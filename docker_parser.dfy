/** The `docker ps` / `docker stats` output parser (`src/docker_parser.rs`).

    Each output line is one JSON object. Decoding a line and reading its
    string fields is a parameter of the model (`parseStats`, `parseContainer`),
    as are the float parsing of the size columns and the RFC 3339 date parser
    (`parseTime`). The parts modelled in full are the line skipping, the
    statistics table keyed by container name, the state flags and the parser
    of the "Ports" column. */
module DockerParser {
  import opened Base
  import opened Text
  import opened Models

  // ---------------------------------------------------------------------------
  // The "Ports" column: "0.0.0.0:8080->80/tcp, 443/tcp"
  // ---------------------------------------------------------------------------

  const Separator: string := ", "
  const Arrow: string := "->"

  /** `s.parse::<u16>().unwrap_or(0)`. */
  function PortOrZero(s: string): (p: nat)
    ensures p < 0x1_0000
    ensures ParseU16(s).None? ==> p == 0
  {
    match ParseU16(s)
    case Some(n) => n
    case None => 0
  }

  /** The host side "ip:port" split at its last ':'; without ':' there is
      neither an address nor a port. */
  function HostSide(host: string): (r: (Option<string>, Option<nat>))
    ensures r.0.None? <==> ':' !in host
    ensures r.0.Some? ==> var n := |r.0.value|;
      n < |host| && host[..n] == r.0.value && host[n] == ':' && ':' !in host[n + 1..]
    ensures r.1.Some? ==> r.0.Some? && r.1.value < 0x1_0000
  {
    match RFindChar(host, ':')
    case Some(c) => (Some(host[..c]), ParseU16(host[c + 1..]))
    case None => (None, None)
  }

  /** One part of the column: blank parts and parts without a '/' where one
      is expected give nothing. */
  function ParsePart(part: string): (r: Option<PortMapping>)
    ensures r.Some? ==> r.value.containerPort < 0x1_0000
    ensures r.Some? && r.value.hostPort.Some? ==> r.value.hostIp.Some?
  {
    if RustTrim(part) == [] then None
    else
      match Find(part, Arrow)
      case Some(a) => PublishedPart(part[..a], part[a + |Arrow|..])
      case None => LocalPart(part)
  }

  /** A part with an arrow: the container side split at its first '/', the
      host side at its last ':'. */
  function PublishedPart(host: string, container: string): (r: Option<PortMapping>)
    ensures r.Some? ==> r.value.containerPort < 0x1_0000
    ensures r.Some? && r.value.hostPort.Some? ==> r.value.hostIp.Some?
  {
    match Find(container, "/")
    case Some(k) =>
      var (ip, port) := HostSide(host);
      Some(PortMapping(PortOrZero(container[..k]), port, container[k + 1..], ip))
    case None => None
  }

  /** A part without an arrow: a container port and a protocol, split at the
      first '/'. */
  function LocalPart(part: string): (r: Option<PortMapping>)
    ensures r.Some? ==> r.value.containerPort < 0x1_0000 && r.value.hostPort.None? && r.value.hostIp.None?
  {
    match Find(part, "/")
    case Some(k) => Some(PortMapping(PortOrZero(part[..k]), None, part[k + 1..], None))
    case None => None
  }

  /** The mappings of a sequence of parts, in order, at most one per part. */
  function Mappings(parts: seq<string>): (ms: seq<PortMapping>)
    ensures |ms| <= |parts|
    decreases |parts|
  {
    if parts == [] then []
    else
      var init := Mappings(parts[..|parts| - 1]);
      match ParsePart(parts[|parts| - 1])
      case Some(m) => init + [m]
      case None => init
  }

  /** `parse_port_mappings(ports_str)`: each part of the column in turn. */
  method ParsePortMappings(portsStr: string) returns (mappings: seq<PortMapping>)
    ensures mappings == Mappings(SplitOn(portsStr, Separator))
  {
    var parts := SplitOn(portsStr, Separator);
    mappings := [];
    for i := 0 to |parts|
      invariant mappings == Mappings(parts[..i])
    {
      assert parts[..i + 1][..i] == parts[..i];
      var m := ParsePortPart(parts[i]);
      if m.Some? {
        mappings := mappings + [m.value];
      }
    }
    assert parts[..|parts|] == parts;
  }

  /** The body of the loop over the parts: a blank part is skipped, and the
      part is split at its first arrow and then at the container side's '/'. */
  method ParsePortPart(part: string) returns (m: Option<PortMapping>)
    ensures m == ParsePart(part)
  {
    if RustTrim(part) == [] {
      return None;
    }
    var arrow := Find(part, Arrow);
    if arrow.Some? {
      var container := part[arrow.value + |Arrow|..];
      assert ParsePart(part) == PublishedPart(part[..arrow.value], container);
      var slash := Find(container, "/");
      if slash.Some? {
        var (ip, port) := HostSide(part[..arrow.value]);
        return Some(PortMapping(PortOrZero(container[..slash.value]), port, container[slash.value + 1..], ip));
      }
    } else {
      assert ParsePart(part) == LocalPart(part);
      var slash := Find(part, "/");
      if slash.Some? {
        return Some(PortMapping(PortOrZero(part[..slash.value]), None, part[slash.value + 1..], None));
      }
    }
    return None;
  }

  /** Parts map independently: the mappings of two runs of parts are the
      mappings of each, in order. */
  lemma {:induction false} MappingsAppend(a: seq<string>, b: seq<string>)
    ensures Mappings(a + b) == Mappings(a) + Mappings(b)
    decreases |b|
  {
    if b == [] {
      assert a + b == a;
    } else {
      var b' := b[..|b| - 1];
      assert (a + b)[..|a + b| - 1] == a + b';
      MappingsAppend(a, b');
    }
  }

  /** A part with no '/' at all gives no mapping. */
  lemma PartWithoutSlash(part: string)
    requires '/' !in part
    ensures ParsePart(part) == None
  {
    FindAbsentChar(part, "/");
    match Find(part, Arrow)
    case Some(a) =>
      assert part[a + |Arrow|..] == part[a + 2..];
      FindAbsentChar(part[a + 2..], "/");
    case None =>
  }

  /** A part without an arrow is a container port and a protocol, never
      published; an unparsable port becomes 0. */
  lemma PartWithoutArrow(port: string, protocol: string)
    requires '/' !in port && '-' !in port && '-' !in protocol
    ensures ParsePart(port + "/" + protocol) ==
      Some(PortMapping(PortOrZero(port), None, protocol, None))
  {
    var part := port + "/" + protocol;
    assert part[|port|] == '/';
    assert !IsRustWhitespace(part[|port|]);
    TrimEmptyIff(part, IsRustWhitespace);
    FindAbsentChar(part, Arrow);
    assert part[|port|..|port| + 1] == "/";
    FindFirstChar(part, "/", |port|);
    assert part[..|port|] == port && part[|port| + 1..] == protocol;
  }

  // ---------------------------------------------------------------------------
  // The inverse: the column as docker writes it
  // ---------------------------------------------------------------------------

  /** Docker's text for one mapping: "ip:host->port/proto" when published,
      "port/proto" otherwise. */
  function FormatMapping(m: PortMapping): string
  {
    var c := NatToString(m.containerPort) + "/" + m.protocol;
    if m.hostPort.Some? && m.hostIp.Some? then
      m.hostIp.value + ":" + NatToString(m.hostPort.value) + Arrow + c
    else c
  }

  /** Mappings docker can print: 16-bit ports, an address exactly when a host
      port, and no ',' or '-' inside the address or the protocol. */
  predicate Printable(m: PortMapping)
  {
    && m.containerPort < 0x1_0000
    && (m.hostPort.Some? <==> m.hostIp.Some?)
    && (m.hostPort.Some? ==> m.hostPort.value < 0x1_0000)
    && (m.hostIp.Some? ==> ',' !in m.hostIp.value && '-' !in m.hostIp.value)
    && ',' !in m.protocol && '-' !in m.protocol
  }

  lemma DigitsHaveNoMark(s: string)
    requires AllDigits(s)
    ensures ',' !in s && '-' !in s && ':' !in s && '/' !in s
  {
    forall c | c in s ensures IsDigit(c) {
      var i :| 0 <= i < |s| && s[i] == c;
    }
  }

  /** A non-blank part whose first arrow ends the host side reads the host
      side and the container side separately. */
  lemma ParsePublished(host: string, container: string, k: nat)
    requires Find(host + Arrow + container, Arrow) == Some(|host|)
    requires Find(container, "/") == Some(k)
    ensures ParsePart(host + Arrow + container) ==
      Some(PortMapping(PortOrZero(container[..k]), HostSide(host).1, container[k + 1..], HostSide(host).0))
  {
    var part := host + Arrow + container;
    assert ParsePart(part) == PublishedPart(host, container) by {
      assert part[|host|] == '-' && !IsRustWhitespace(part[|host|]);
      TrimEmptyIff(part, IsRustWhitespace);
      assert part[..|host|] == host;
      assert part[|host| + |Arrow|..] == container;
    }
  }

  /** "ip:port" splits at the ':' before the port digits. */
  lemma HostSideOf(ip: string, port: nat)
    requires port < 0x1_0000
    ensures HostSide(ip + ":" + NatToString(port)) == (Some(ip), Some(port))
  {
    var hp := NatToString(port);
    DigitsHaveNoMark(hp);
    ParseU16OfDecimal(port);
    var host := ip + ":" + hp;
    assert host[|ip|] == ':';
    assert host[..|ip|] == ip && host[|ip| + 1..] == hp;
    assert forall j :: |ip| < j < |host| ==> host[j] == hp[j - |ip| - 1];
    assert RFindChar(host, ':') == Some(|ip|);
  }

  /** Every printable mapping is read back exactly. */
  lemma ParseFormatPart(m: PortMapping)
    requires Printable(m)
    ensures ParsePart(FormatMapping(m)) == Some(m)
  {
    var cp := NatToString(m.containerPort);
    DigitsHaveNoMark(cp);
    ParseU16OfDecimal(m.containerPort);
    if m.hostPort.Some? {
      ParseFormatPublished(m, cp);
    } else {
      PartWithoutArrow(cp, m.protocol);
    }
  }

  /** The published case: "ip:host->port/proto". */
  lemma ParseFormatPublished(m: PortMapping, cp: string)
    requires Printable(m) && m.hostPort.Some? && cp == NatToString(m.containerPort)
    requires ',' !in cp && '-' !in cp && ':' !in cp && '/' !in cp
    requires ParseU16(cp) == Some(m.containerPort)
    ensures ParsePart(FormatMapping(m)) == Some(m)
  {
    var ip, hp := m.hostIp.value, NatToString(m.hostPort.value);
    DigitsHaveNoMark(hp);
    var host := ip + ":" + hp;
    var container := cp + "/" + m.protocol;
    assert host + Arrow + container == FormatMapping(m);
    FirstArrow(host, container);
    ContainerSide(cp, m.protocol);
    ParsePublished(host, container, |cp|);
    HostSideOf(ip, m.hostPort.value);
  }

  /** "port/proto" splits at the '/' after a port without one. */
  lemma ContainerSide(cp: string, protocol: string)
    requires '/' !in cp
    ensures var container := cp + "/" + protocol;
      Find(container, "/") == Some(|cp|) && container[..|cp|] == cp && container[|cp| + 1..] == protocol
  {
    var container := cp + "/" + protocol;
    assert container[|cp|..|cp| + 1] == "/";
    FindFirstChar(container, "/", |cp|);
    assert container[..|cp|] == cp && container[|cp| + 1..] == protocol;
  }

  /** The first arrow of "host->container" ends a host side without '-'. */
  lemma FirstArrow(host: string, container: string)
    requires '-' !in host
    ensures Find(host + Arrow + container, Arrow) == Some(|host|)
  {
    var part := host + Arrow + container;
    assert part[|host|..|host| + 2] == Arrow;
    assert forall j :: 0 <= j < |host| ==> part[j] == host[j];
    FindFirstChar(part, Arrow, |host|);
  }

  function Formatted(ms: seq<PortMapping>): (parts: seq<string>)
    ensures |parts| == |ms|
    ensures forall i :: 0 <= i < |ms| ==> parts[i] == FormatMapping(ms[i])
  {
    seq(|ms|, i requires 0 <= i < |ms| => FormatMapping(ms[i]))
  }

  /** Every printable mapping, formatted, is read back in order. */
  lemma MappingsOfFormatted(ms: seq<PortMapping>)
    requires forall i :: 0 <= i < |ms| ==> Printable(ms[i])
    ensures Mappings(Formatted(ms)) == ms
  {
    var parts := Formatted(ms);
    forall i | 0 <= i < |ms| ensures ParsePart(parts[i]) == Some(ms[i]) {
      ParseFormatPart(ms[i]);
    }
    MappingsOfParts(parts, ms);
  }

  /** Parts that each parse give their mappings, one per part and in order. */
  lemma {:induction false} MappingsOfParts(parts: seq<string>, ms: seq<PortMapping>)
    requires |parts| == |ms|
    requires forall i :: 0 <= i < |ms| ==> ParsePart(parts[i]) == Some(ms[i])
    ensures Mappings(parts) == ms
    decreases |ms|
  {
    if ms != [] {
      var n := |ms| - 1;
      assert forall i :: 0 <= i < n ==> parts[..n][i] == parts[i] && ms[..n][i] == ms[i];
      MappingsOfParts(parts[..n], ms[..n]);
      assert ParsePart(parts[n]) == Some(ms[n]);
      MappingsLast(parts, ms[n]);
      FrontAndLast(ms);
    }
  }

  /** A last part that parses adds its mapping at the end. */
  lemma MappingsLast(parts: seq<string>, m: PortMapping)
    requires parts != [] && ParsePart(parts[|parts| - 1]) == Some(m)
    ensures Mappings(parts) == Mappings(parts[..|parts| - 1]) + [m]
  {
  }

  /** A column written by docker is read back as the mappings it lists, in order. */
  lemma PortsColumnRoundTrip(ms: seq<PortMapping>)
    requires ms != []
    requires forall i :: 0 <= i < |ms| ==> Printable(ms[i])
    ensures Mappings(SplitOn(JoinWith(Formatted(ms), Separator), Separator)) == ms
  {
    var parts := Formatted(ms);
    forall i | 0 <= i < |parts| ensures Separator[0] !in parts[i] {
      var m := ms[i];
      DigitsHaveNoMark(NatToString(m.containerPort));
      if m.hostPort.Some? {
        DigitsHaveNoMark(NatToString(m.hostPort.value));
      }
    }
    SplitOnJoinWith(parts, Separator);
    MappingsOfFormatted(ms);
  }

  // ---------------------------------------------------------------------------
  // Container state and the two listings
  // ---------------------------------------------------------------------------

  /** The state flags derived from docker's one-word state: each flag is set
      exactly when the word is that flag's name; nothing else is known. */
  function DeriveState(word: string): (s: ContainerState)
    ensures s.running <==> word == "running"
    ensures s.paused <==> word == "paused"
    ensures s.restarting <==> word == "restarting"
    ensures s.dead <==> word == "dead"
    ensures s.pid.None? && s.exitCode.None? && s.startedAt.None? && s.finishedAt.None?
  {
    ContainerState(word == "running", word == "paused", word == "restarting", word == "dead",
                   None, None, None, None)
  }

  /** At most one flag of a derived state is set. */
  lemma DerivedStateExclusive(word: string)
    ensures var s := DeriveState(word);
      (if s.running then 1 else 0) + (if s.paused then 1 else 0)
      + (if s.restarting then 1 else 0) + (if s.dead then 1 else 0) <= 1
  {
  }

  /** What one `docker stats` line yields once its strings are read:
      container name, CPU percent, memory used and limit, received and sent MB. */
  datatype StatsLine = StatsLine(
    container: string, cpuPercent: real, memUsageMb: real, memLimitMb: real,
    rxMb: real, txMb: real)

  /** The resource figures attached to a container. */
  datatype Stats = Stats(
    cpuPercent: real, memoryUsageMb: real, memoryLimitMb: real,
    networkRxMb: real, networkTxMb: real, memoryPercent: real)

  const NoStats: Stats := Stats(0.0, 0.0, 0.0, 0.0, 0.0, 0.0)

  /** Memory use as a percentage of the limit, 0 when there is no limit. */
  function MemoryPercent(usage: real, limit: real): (p: real)
    ensures limit <= 0.0 ==> p == 0.0
    ensures limit > 0.0 ==> p * limit == usage * 100.0
  {
    if limit > 0.0 then (usage / limit) * 100.0 else 0.0
  }

  function StatsOf(l: StatsLine): Stats
  {
    Stats(l.cpuPercent, l.memUsageMb, l.memLimitMb, l.rxMb, l.txMb, MemoryPercent(l.memUsageMb, l.memLimitMb))
  }

  predicate BlankLine(line: string) { RustTrim(line) == [] }

  /** The statistics table after the given lines: blank and unreadable lines
      are skipped, and a later line for the same container replaces an earlier one. */
  function StatsTable(lines: seq<string>, parseStats: string -> Option<StatsLine>): (t: map<string, Stats>)
    ensures forall i :: 0 <= i < |lines| && !BlankLine(lines[i]) && parseStats(lines[i]).Some? ==>
      parseStats(lines[i]).value.container in t
    ensures lines != [] && !BlankLine(lines[|lines| - 1]) && parseStats(lines[|lines| - 1]).Some? ==>
      var l := parseStats(lines[|lines| - 1]).value; t[l.container] == StatsOf(l)
    decreases |lines|
  {
    if lines == [] then map[]
    else
      var init := lines[..|lines| - 1];
      var table := StatsTable(init, parseStats);
      assert forall i :: 0 <= i < |init| ==> init[i] == lines[i];
      var line := lines[|lines| - 1];
      if BlankLine(line) then table
      else match parseStats(line)
        case Some(l) => table[l.container := StatsOf(l)]
        case None => table
  }

  /** Line `i` is readable and names container `k` with the figures `st`. */
  ghost predicate NamesEntry(lines: seq<string>, parseStats: string -> Option<StatsLine>, i: int, k: string, st: Stats)
  {
    0 <= i < |lines| && !BlankLine(lines[i]) && parseStats(lines[i]).Some?
    && parseStats(lines[i]).value.container == k && StatsOf(parseStats(lines[i]).value) == st
  }

  /** Every key of the table is named by some readable line, and its entry is
      the figures of such a line. */
  lemma {:induction false} StatsTableKeys(lines: seq<string>, parseStats: string -> Option<StatsLine>)
    ensures forall k :: k in StatsTable(lines, parseStats) ==>
      exists i :: NamesEntry(lines, parseStats, i, k, StatsTable(lines, parseStats)[k])
    decreases |lines|
  {
    if lines != [] {
      var init := lines[..|lines| - 1];
      var table := StatsTable(lines, parseStats);
      var before := StatsTable(init, parseStats);
      StatsTableKeys(init, parseStats);
      var line := lines[|lines| - 1];
      forall k | k in table
        ensures exists i :: NamesEntry(lines, parseStats, i, k, table[k])
      {
        if !BlankLine(line) && parseStats(line).Some? && parseStats(line).value.container == k {
          assert NamesEntry(lines, parseStats, |lines| - 1, k, table[k]);
        } else {
          assert k in before && table[k] == before[k];
          var i :| NamesEntry(init, parseStats, i, k, before[k]);
          assert lines[i] == init[i];
          assert NamesEntry(lines, parseStats, i, k, table[k]);
        }
      }
    }
  }

  /** The fields of one `docker ps` line, once decoded: ID, Names, Image,
      Status, State, CreatedAt and the optional Ports column. */
  datatype ContainerFields = ContainerFields(
    id: string, names: string, image: string, status: string, state: string,
    createdAt: string, ports: Option<string>)

  /** `parse_container_json` once the fields are read, with the mappings given. */
  function ContainerWith(f: ContainerFields, ports: seq<PortMapping>, table: map<string, Stats>,
                         parseTime: string -> Option<int>): (c: DockerContainer)
    ensures c.id == f.id && c.name == f.names && c.image == f.image && c.status == f.status
    ensures c.state == DeriveState(f.state) && c.ports == ports
    ensures c.created == (if parseTime(f.createdAt).Some? then parseTime(f.createdAt).value else 0)
  {
    var st := if f.names in table then table[f.names] else NoStats;
    var created := match parseTime(f.createdAt) case Some(t) => t case None => 0;
    DockerContainer(f.id, f.names, f.image, f.status, DeriveState(f.state), created, ports,
                    st.cpuPercent, st.memoryUsageMb, st.memoryLimitMb, st.memoryPercent,
                    st.networkRxMb, st.networkTxMb)
  }

  /** The figures attached to a container: its table entry, or all zeros. */
  function StatsOfContainer(c: DockerContainer): Stats
  {
    Stats(c.cpuPercent, c.memoryUsageMb, c.memoryLimitMb, c.networkRxMb, c.networkTxMb, c.memoryPercent)
  }

  /** The mappings of an optional Ports column; none without the column. */
  function PortsOf(f: ContainerFields): seq<PortMapping>
  {
    if f.ports.Some? then Mappings(SplitOn(f.ports.value, Separator)) else []
  }

  /** The containers of the given `docker ps` lines, in order. */
  function Containers(lines: seq<string>, parseContainer: string -> Option<ContainerFields>,
                      table: map<string, Stats>, parseTime: string -> Option<int>): (r: seq<DockerContainer>)
    ensures (forall i :: 0 <= i < |lines| ==> !BlankLine(lines[i]) && parseContainer(lines[i]).Some?) ==> |r| == |lines|
    ensures lines != [] && !BlankLine(lines[|lines| - 1]) && parseContainer(lines[|lines| - 1]).Some? ==>
      r != [] && r[|r| - 1].id == parseContainer(lines[|lines| - 1]).value.id
    decreases |lines|
  {
    if lines == [] then []
    else
      var init := Containers(lines[..|lines| - 1], parseContainer, table, parseTime);
      var line := lines[|lines| - 1];
      if BlankLine(line) then init
      else match parseContainer(line)
        case Some(f) => init + [ContainerWith(f, PortsOf(f), table, parseTime)]
        case None => init
  }

  /** `parse_docker_containers(containers_json, stats_json)`: never an error. */
  method ParseDockerContainers(containersJson: string, statsJson: string,
                               parseStats: string -> Option<StatsLine>,
                               parseContainer: string -> Option<ContainerFields>,
                               parseTime: string -> Option<int>)
    returns (r: Result<seq<DockerContainer>, string>)
    ensures r.Ok?
    ensures r.value == Containers(Lines(containersJson), parseContainer,
                                  StatsTable(Lines(statsJson), parseStats), parseTime)
  {
    var table := CollectStats(Lines(statsJson), parseStats);
    var containers := CollectContainers(Lines(containersJson), parseContainer, table, parseTime);
    return Ok(containers);
  }

  /** The first loop of `parse_docker_containers`: the statistics table. */
  method CollectStats(statsLines: seq<string>, parseStats: string -> Option<StatsLine>)
    returns (table: map<string, Stats>)
    ensures table == StatsTable(statsLines, parseStats)
  {
    table := map[];
    for i := 0 to |statsLines|
      invariant table == StatsTable(statsLines[..i], parseStats)
    {
      assert statsLines[..i + 1][..i] == statsLines[..i];
      var line := statsLines[i];
      if BlankLine(line) {
        continue;
      }
      var stats := parseStats(line);
      if stats.Some? {
        table := table[stats.value.container := StatsOf(stats.value)];
      }
    }
    assert statsLines[..|statsLines|] == statsLines;
  }

  /** The second loop of `parse_docker_containers`: one container per
      readable line, in order. */
  method CollectContainers(lines: seq<string>, parseContainer: string -> Option<ContainerFields>,
                           table: map<string, Stats>, parseTime: string -> Option<int>)
    returns (containers: seq<DockerContainer>)
    ensures containers == Containers(lines, parseContainer, table, parseTime)
  {
    containers := [];
    for i := 0 to |lines|
      invariant containers == Containers(lines[..i], parseContainer, table, parseTime)
    {
      ContainersStep(lines, i, parseContainer, table, parseTime);
      var line := lines[i];
      if BlankLine(line) {
        continue;
      }
      var fields := parseContainer(line);
      if fields.Some? {
        var ports: seq<PortMapping> := [];
        if fields.value.ports.Some? {
          ports := ParsePortMappings(fields.value.ports.value);
        }
        containers := containers + [ContainerWith(fields.value, ports, table, parseTime)];
      }
    }
    assert lines[..|lines|] == lines;
  }

  /** One more line adds at most its own container to the list. */
  lemma ContainersStep(lines: seq<string>, i: nat, parseContainer: string -> Option<ContainerFields>,
                       table: map<string, Stats>, parseTime: string -> Option<int>)
    requires i < |lines|
    ensures Containers(lines[..i + 1], parseContainer, table, parseTime)
      == Containers(lines[..i], parseContainer, table, parseTime)
         + (if BlankLine(lines[i]) || parseContainer(lines[i]).None? then []
            else [ContainerWith(parseContainer(lines[i]).value, PortsOf(parseContainer(lines[i]).value), table, parseTime)])
  {
    assert lines[..i + 1][..i] == lines[..i];
    var init := Containers(lines[..i], parseContainer, table, parseTime);
    assert init + [] == init;
  }

  /** Every listed container comes from one non-blank line, has a derived
      state, and carries the figures of the statistics line with its name, or
      zeros when there is none. */
  lemma {:induction false} ContainersShape(lines: seq<string>, parseContainer: string -> Option<ContainerFields>,
                                           table: map<string, Stats>, parseTime: string -> Option<int>)
    ensures |Containers(lines, parseContainer, table, parseTime)| <= |lines|
    ensures forall c :: c in Containers(lines, parseContainer, table, parseTime) ==>
      && (exists word :: c.state == DeriveState(word))
      && StatsOfContainer(c) == (if c.name in table then table[c.name] else NoStats)
    decreases |lines|
  {
    if lines != [] {
      var init := lines[..|lines| - 1];
      ContainersShape(init, parseContainer, table, parseTime);
      var line := lines[|lines| - 1];
      if !BlankLine(line) && parseContainer(line).Some? {
        var f := parseContainer(line).value;
        var c := ContainerWith(f, PortsOf(f), table, parseTime);
        assert c.state == DeriveState(f.state);
      }
    }
  }
}
