/** The process table (`frontend/src/components/widgets/ProcessWidget.jsx`):
    search filter, descending sort, pages of twenty rows, a window of at most
    five page buttons and filler rows that keep the table height fixed. */
module ProcessWidget {
  import opened Base
  import opened Text
  import opened Models
  import opened Sorting
  import opened Lists

  const ItemsPerPage: nat := 20

  /** The search keeps a process whose name or command contains the term in
      any letter case, or whose pid's decimal text contains the term. */
  predicate Matches(p: ProcessInfo, term: string)
    ensures term == "" ==> Matches(p, term)
  {
    || Contains(Lower(p.name), Lower(term))
    || Contains(Lower(p.command), Lower(term))
    || Contains(NatToString(p.pid), term)
  }

  /** `processes || []`, then the search filter when the term is non-empty. */
  function FilterProcesses(processes: Option<seq<ProcessInfo>>, term: string): (r: seq<ProcessInfo>)
    ensures term == "" ==> r == (if processes.Some? then processes.value else [])
    ensures forall p :: p in r <==> processes.Some? && p in processes.value && (term == "" || Matches(p, term))
  {
    var all := if processes.Some? then processes.value else [];
    if term == "" then all
    else
      var matches := p => Matches(p, term);
      FilterMembers(all, matches);
      Filter(all, matches)
  }

  /** The sign of a numeric comparator result; only the sign matters to a sort. */
  function Sign(x: real): int
  {
    if x < 0.0 then -1 else if x > 0.0 then 1 else 0
  }

  /** `b.cpu_percent - a.cpu_percent` for "cpu", else the memory difference. */
  function ProcessCompare(sortBy: string, a: ProcessInfo, b: ProcessInfo): (r: int)
    ensures -1 <= r <= 1
    ensures sortBy == "cpu" ==> (r < 0 <==> a.cpuPercent > b.cpuPercent) && (r == 0 <==> a.cpuPercent == b.cpuPercent)
    ensures sortBy != "cpu" ==> (r < 0 <==> a.memoryPercent > b.memoryPercent) && (r == 0 <==> a.memoryPercent == b.memoryPercent)
  {
    if sortBy == "cpu" then Sign(b.cpuPercent - a.cpuPercent)
    else Sign(b.memoryPercent - a.memoryPercent)
  }

  function ProcessOrder(sortBy: string): (ProcessInfo, ProcessInfo) -> int
  {
    (a: ProcessInfo, b: ProcessInfo) => ProcessCompare(sortBy, a, b)
  }

  /** The figure a sort key ranks by. */
  function Key(sortBy: string, p: ProcessInfo): real
  {
    if sortBy == "cpu" then p.cpuPercent else p.memoryPercent
  }

  lemma ProcessOrderIsPreorder(sortBy: string)
    ensures TotalPreorder(ProcessOrder(sortBy))
  {
    var cmp := ProcessOrder(sortBy);
    forall a, b ensures cmp(a, b) <= 0 || cmp(b, a) <= 0 {
    }
    forall a, b, c | cmp(a, b) <= 0 && cmp(b, c) <= 0 ensures cmp(a, c) <= 0 {
      assert Key(sortBy, b) <= Key(sortBy, a) && Key(sortBy, c) <= Key(sortBy, b);
    }
  }

  /** `filteredProcesses`: the filtered processes sorted by the key, largest first. */
  function FilteredProcesses(processes: Option<seq<ProcessInfo>>, term: string, sortBy: string): (r: seq<ProcessInfo>)
    ensures forall p :: p in r <==> processes.Some? && p in processes.value && (term == "" || Matches(p, term))
    ensures SortedBy(r, ProcessOrder(sortBy))
  {
    ProcessOrderIsPreorder(sortBy);
    SortSorted(FilterProcesses(processes, term), ProcessOrder(sortBy));
    SortSameElements(FilterProcesses(processes, term), ProcessOrder(sortBy));
    Sort(FilterProcesses(processes, term), ProcessOrder(sortBy))
  }

  /** A list sorted by the comparator is in non-increasing order of the key. */
  lemma SortedByKey(r: seq<ProcessInfo>, sortBy: string)
    requires SortedBy(r, ProcessOrder(sortBy))
    ensures forall i, j :: 0 <= i < j < |r| ==> Key(sortBy, r[i]) >= Key(sortBy, r[j])
  {
    forall i, j | 0 <= i < j < |r| ensures Key(sortBy, r[i]) >= Key(sortBy, r[j]) {
      assert ProcessCompare(sortBy, r[i], r[j]) <= 0;
    }
  }

  /** The list shown is a permutation of the filtered processes, in
      non-increasing order of the key. */
  lemma FilteredProcessesSorted(processes: Option<seq<ProcessInfo>>, term: string, sortBy: string)
    ensures multiset(FilteredProcesses(processes, term, sortBy)) == multiset(FilterProcesses(processes, term))
    ensures var r := FilteredProcesses(processes, term, sortBy);
      forall i, j :: 0 <= i < j < |r| ==> Key(sortBy, r[i]) >= Key(sortBy, r[j])
  {
    ProcessOrderIsPreorder(sortBy);
    SortSorted(FilterProcesses(processes, term), ProcessOrder(sortBy));
    SortedByKey(FilteredProcesses(processes, term, sortBy), sortBy);
  }

  /** `Math.ceil(n / 20)`. */
  function TotalPages(n: nat): (t: nat)
    ensures t * ItemsPerPage >= n
    ensures n > 0 ==> (t - 1) * ItemsPerPage < n
    ensures n == 0 ==> t == 0
  {
    (n + ItemsPerPage - 1) / ItemsPerPage
  }

  /** `filteredProcesses.slice((page - 1) * 20, (page - 1) * 20 + 20)`. */
  function PageItems(list: seq<ProcessInfo>, page: int): (r: seq<ProcessInfo>)
    ensures |r| <= ItemsPerPage
    ensures page >= 1 && r != [] ==>
      (page - 1) * ItemsPerPage + |r| <= |list| && forall k :: 0 <= k < |r| ==> r[k] == list[(page - 1) * ItemsPerPage + k]
  {
    var start := (page - 1) * ItemsPerPage;
    Slice(list, start, start + ItemsPerPage)
  }

  /** Page `p` shows the items from `(p - 1) * 20` up to `min(p * 20, n)`:
      never more than 20, and the first and last page numbers of the range
      label count them. */
  lemma PageItemsRange(list: seq<ProcessInfo>, page: int)
    requires page >= 1
    ensures var start := (page - 1) * ItemsPerPage;
      PageItems(list, page) == list[Min(start, |list|)..Min(start + ItemsPerPage, |list|)]
    ensures |PageItems(list, page)| <= ItemsPerPage
    ensures var (first, last) := RangeLabel(page, |list|);
      1 <= page <= TotalPages(|list|) ==> last - first + 1 == |PageItems(list, page)|
  {
  }

  /** The range label: `startIndex + 1` to `min(endIndex, n)`. */
  function RangeLabel(page: int, n: nat): (r: (int, int))
    ensures page >= 1 && (page - 1) * ItemsPerPage < n ==> 1 <= r.0 <= r.1 <= n && r.1 - r.0 < ItemsPerPage
  {
    var start := (page - 1) * ItemsPerPage;
    (start + 1, Min(start + ItemsPerPage, n))
  }

  /** Buttons of the pager: previous is disabled on page 1, next on the last page. */
  function PrevDisabled(page: int): bool { page == 1 }
  function NextDisabled(page: int, totalPages: nat): bool { page == totalPages }

  /** The number on page button `index` (0-based). */
  function PageNumber(index: nat, page: int, totalPages: nat): (k: int)
    ensures index < Min(5, totalPages) ==> 1 <= k <= totalPages
  {
    if totalPages <= 5 then index + 1
    else if page <= 3 then index + 1
    else if page >= totalPages - 2 then totalPages - 4 + index
    else page - 2 + index
  }

  /** The page-number buttons. */
  function PageWindow(page: int, totalPages: nat): (w: seq<int>)
    ensures |w| == Min(5, totalPages)
  {
    seq(Min(5, totalPages), i requires 0 <= i < Min(5, totalPages) => PageNumber(i, page, totalPages))
  }

  /** The buttons are consecutive numbers inside `[1, totalPages]` and include
      the current page whenever it is a real page. */
  lemma PageWindowShape(page: int, totalPages: nat)
    ensures var w := PageWindow(page, totalPages);
      forall i :: 0 <= i < |w| ==> 1 <= w[i] <= totalPages
    ensures var w := PageWindow(page, totalPages);
      forall i :: 0 < i < |w| ==> w[i] == w[i - 1] + 1
    ensures 1 <= page <= totalPages ==> page in PageWindow(page, totalPages)
  {
    var w := PageWindow(page, totalPages);
    if 1 <= page <= totalPages {
      var k :=
        if totalPages <= 5 || page <= 3 then page - 1
        else if page >= totalPages - 2 then page - (totalPages - 4)
        else 2;
      assert w[k] == page;
    }
  }

  /** Empty rows added below a partly filled page. */
  function FillerRows(shown: nat): (k: nat)
    ensures 0 < shown <= ItemsPerPage ==> shown + k == ItemsPerPage
    ensures shown == 0 || shown >= ItemsPerPage ==> k == 0
  {
    if 0 < shown < ItemsPerPage then ItemsPerPage - shown else 0
  }

  /** A page with any rows always occupies twenty rows. */
  lemma FillerRowsComplete(list: seq<ProcessInfo>, page: int)
    requires page >= 1
    ensures var shown := |PageItems(list, page)|;
      shown > 0 ==> shown + FillerRows(shown) == ItemsPerPage
  {
    PageItemsRange(list, page);
  }

  /** What a pager button does to the current page. */
  datatype PagerButton = Previous | Next | PageAt(index: nat)

  /** `handlePageChange` for an enabled button: the new page, or `None` when
      the button is disabled or not on screen. */
  function Press(page: int, totalPages: nat, button: PagerButton): (r: Option<int>)
    ensures button.PageAt? ==> (r.Some? <==> button.index < Min(5, totalPages))
    ensures button.PageAt? && r.Some? ==> 1 <= r.value <= totalPages
    ensures button.Previous? ==> (r.None? <==> page == 1)
    ensures button.Next? ==> (r.None? <==> page == totalPages)
  {
    match button
    case Previous => if PrevDisabled(page) then None else Some(page - 1)
    case Next => if NextDisabled(page, totalPages) then None else Some(page + 1)
    case PageAt(index) =>
      if index < Min(5, totalPages) then Some(PageWindow(page, totalPages)[index]) else None
  }

  /** From a real page, every enabled button leads to a real page. */
  lemma PressStaysInRange(page: int, totalPages: nat, button: PagerButton)
    requires 1 <= page <= totalPages
    ensures var next := Press(page, totalPages, button);
      next.Some? ==> 1 <= next.value <= totalPages
    ensures button.Previous? ==> (Press(page, totalPages, button).None? <==> page == 1)
    ensures button.Next? ==> (Press(page, totalPages, button).None? <==> page == totalPages)
  {
    PageWindowShape(page, totalPages);
  }

  /** Nothing clamps the page when the list shrinks: a page past the end shows
      no rows and no filler, and its "next" button stays enabled. */
  lemma StalePage(list: seq<ProcessInfo>, page: int)
    requires page > TotalPages(|list|) && page >= 1
    ensures PageItems(list, page) == []
    ensures FillerRows(|PageItems(list, page)|) == 0
    ensures !NextDisabled(page, TotalPages(|list|))
  {
  }

  /** The colour of a process status, by its lower-cased text. */
  function StatusColor(status: string): (c: string)
    ensures Lower(status) == "running" <==> c == "text-green-400"
    ensures Lower(status) == "sleeping" <==> c == "text-blue-400"
    ensures Lower(status) == "zombie" <==> c == "text-red-400"
    ensures c in {"text-green-400", "text-blue-400", "text-red-400", "text-gray-400"}
  {
    var s := Lower(status);
    if s == "running" then "text-green-400"
    else if s == "sleeping" then "text-blue-400"
    else if s == "zombie" then "text-red-400"
    else "text-gray-400"
  }
}
