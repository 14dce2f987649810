/** The listening-port table (`frontend/src/components/widgets/PortWidget.jsx`):
    a search filter over four fields and a sort chosen from a drop-down. */
module PortWidget {
  import opened Base
  import opened Text
  import opened Models
  import opened Sorting
  import opened Lists

  /** A port entry matches when its number's decimal text contains the term
      as typed, or its program, protocol or state contains it in any letter case. */
  predicate Matches(p: PortInfo, term: string)
    ensures term == "" ==> Matches(p, term)
  {
    || Contains(NatToString(p.port), term)
    || Contains(Lower(p.program), Lower(term))
    || Contains(Lower(p.protocol), Lower(term))
    || Contains(Lower(p.state), Lower(term))
  }

  /** The filter, applied only when the term is non-empty. */
  function FilterPorts(ports: seq<PortInfo>, term: string): (r: seq<PortInfo>)
    ensures term == "" ==> r == ports
    ensures forall p :: p in r <==> p in ports && (term == "" || Matches(p, term))
    ensures multiset(r) <= multiset(ports)
  {
    if term == "" then ports
    else
      var matches := p => Matches(p, term);
      FilterMembers(ports, matches);
      Filter(ports, matches)
  }

  /** Ports are found by their number whatever else the term would need. */
  lemma PortNumberFound(p: PortInfo, ports: seq<PortInfo>)
    requires p in ports
    ensures p in FilterPorts(ports, NatToString(p.port))
  {
    var t := NatToString(p.port);
    assert OccursAt(t, t, 0);
  }

  /** The comparator: port number ascending, program or protocol in code-point
      order, and every pair equal for any other choice. */
  function PortCompare(sortBy: string, a: PortInfo, b: PortInfo): (r: int)
    ensures sortBy == "port" ==> (r < 0 <==> a.port < b.port) && (r == 0 <==> a.port == b.port)
    ensures sortBy == "program" ==> (r == 0 <==> a.program == b.program)
    ensures sortBy == "protocol" ==> (r == 0 <==> a.protocol == b.protocol)
    ensures sortBy != "port" && sortBy != "program" && sortBy != "protocol" ==> r == 0
  {
    CompareAntisymmetric(a.program, b.program);
    CompareAntisymmetric(a.protocol, b.protocol);
    if sortBy == "port" then a.port - b.port
    else if sortBy == "program" then Compare(a.program, b.program)
    else if sortBy == "protocol" then Compare(a.protocol, b.protocol)
    else 0
  }

  function PortOrder(sortBy: string): (PortInfo, PortInfo) -> int
  {
    (a: PortInfo, b: PortInfo) => PortCompare(sortBy, a, b)
  }

  lemma PortOrderIsPreorder(sortBy: string)
    ensures TotalPreorder(PortOrder(sortBy))
  {
    var cmp := PortOrder(sortBy);
    forall a, b ensures cmp(a, b) <= 0 || cmp(b, a) <= 0 {
      CompareAntisymmetric(a.program, b.program);
      CompareAntisymmetric(a.protocol, b.protocol);
    }
    forall a, b, c | cmp(a, b) <= 0 && cmp(b, c) <= 0 ensures cmp(a, c) <= 0 {
      if sortBy == "program" {
        CompareTransitive(a.program, b.program, c.program);
      } else if sortBy == "protocol" {
        CompareTransitive(a.protocol, b.protocol, c.protocol);
      }
    }
  }

  /** `filteredAndSortedPorts`. */
  function FilteredAndSortedPorts(ports: seq<PortInfo>, term: string, sortBy: string): (r: seq<PortInfo>)
    ensures forall p :: p in r <==> p in ports && (term == "" || Matches(p, term))
    ensures multiset(r) <= multiset(ports)
    ensures SortedBy(r, PortOrder(sortBy))
  {
    PortOrderIsPreorder(sortBy);
    SortSorted(FilterPorts(ports, term), PortOrder(sortBy));
    SortSameElements(FilterPorts(ports, term), PortOrder(sortBy));
    Sort(FilterPorts(ports, term), PortOrder(sortBy))
  }

  /** The rows are a permutation of the filtered entries, in the chosen order. */
  lemma FilteredAndSortedPortsOrder(ports: seq<PortInfo>, term: string, sortBy: string)
    ensures multiset(FilteredAndSortedPorts(ports, term, sortBy)) == multiset(FilterPorts(ports, term))
    ensures var r := FilteredAndSortedPorts(ports, term, sortBy);
      sortBy == "port" ==> forall i, j :: 0 <= i < j < |r| ==> r[i].port <= r[j].port
    ensures var r := FilteredAndSortedPorts(ports, term, sortBy);
      sortBy == "program" ==> forall i, j :: 0 <= i < j < |r| ==> Compare(r[i].program, r[j].program) <= 0
    ensures var r := FilteredAndSortedPorts(ports, term, sortBy);
      sortBy == "protocol" ==> forall i, j :: 0 <= i < j < |r| ==> Compare(r[i].protocol, r[j].protocol) <= 0
  {
    PortOrderIsPreorder(sortBy);
    SortSorted(FilterPorts(ports, term), PortOrder(sortBy));
    var r := FilteredAndSortedPorts(ports, term, sortBy);
    forall i, j | 0 <= i < j < |r| ensures PortCompare(sortBy, r[i], r[j]) <= 0 {
      assert PortOrder(sortBy)(r[i], r[j]) <= 0;
    }
  }

  /** An unknown sort key leaves the filtered order as it was. */
  lemma UnknownSortKeepsOrder(ports: seq<PortInfo>, term: string, sortBy: string)
    requires sortBy != "port" && sortBy != "program" && sortBy != "protocol"
    ensures FilteredAndSortedPorts(ports, term, sortBy) == FilterPorts(ports, term)
  {
    SortOfNeutral(FilterPorts(ports, term), PortOrder(sortBy));
  }

  /** The PID cell: `port.pid || '-'`, so a pid of 0 shows as a dash too. */
  function PidCell(pid: Option<nat>): (cell: string)
    ensures cell == "-" <==> pid.None? || pid.value == 0
    ensures pid.Some? && pid.value > 0 ==> AllDigits(cell)
  {
    if pid.Some? && pid.value != 0 then NatToString(pid.value) else "-"
  }

  /** The message shown when no row is left. */
  function EmptyMessage(term: string): (m: string)
    ensures term == "" <==> m == "暂无端口占用信息"
  {
    if term != "" then "没有匹配的端口" else "暂无端口占用信息"
  }
}
