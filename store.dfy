/** The dashboard's global state store (`frontend/src/store/serverStore.js`).

    The store is one object whose fields the actions replace. The new histories
    are computed by pure functions (append, then keep the last 60 points), which
    the actions install. Service entries are the JSON objects the services
    endpoint returns; `id` is `None` where the object has no `id` property
    (`undefined` in JavaScript). */
module Store {
  import opened Base
  import opened Models

  /** Chart history keeps this many of the most recent samples. */
  const MaxHistoryLength: nat := 60

  /** A service object as held by the store. */
  datatype ServiceEntry = ServiceEntry(id: Option<string>, name: string, url: string, status: string)

  /** `s.slice(-n)`: the last `n` elements, or all of them when there are
      fewer. `-0` is `0`, so `slice(-0)` copies the whole array. */
  function KeepLast<T>(s: seq<T>, n: nat): (r: seq<T>)
    ensures |r| == if n == 0 then |s| else Min(|s|, n)
    ensures forall i :: 0 <= i < |r| ==> r[i] == s[|s| - |r| + i]
  {
    if n == 0 || |s| <= n then s else s[|s| - n..]
  }

  /** `[...history, x].slice(-60)`. */
  function Appended(history: seq<real>, x: real): (r: seq<real>)
    ensures |r| == Min(|history| + 1, MaxHistoryLength)
    ensures r[|r| - 1] == x
    ensures forall i :: 0 <= i < |r| - 1 ==> r[i] == history[|history| - |r| + 1 + i]
  {
    KeepLast(history + [x], MaxHistoryLength)
  }

  /** The history after appending each of `xs` in turn. */
  function AppendedAll(history: seq<real>, xs: seq<real>): (r: seq<real>)
    ensures |history| <= MaxHistoryLength ==> |r| == Min(|history| + |xs|, MaxHistoryLength)
    ensures xs != [] ==> r != [] && r[|r| - 1] == xs[|xs| - 1]
    decreases |xs|
  {
    if xs == [] then history else AppendedAll(Appended(history, xs[0]), xs[1..])
  }

  /** Starting from a history of at most 60 points, any number of samples
      leaves exactly the last 60 points of the whole stream. */
  lemma {:induction false} AppendedAllWindow(history: seq<real>, xs: seq<real>)
    requires |history| <= MaxHistoryLength
    ensures AppendedAll(history, xs) == KeepLast(history + xs, MaxHistoryLength)
    decreases |xs|
  {
    if xs == [] {
      assert history + xs == history;
    } else {
      var h' := Appended(history, xs[0]);
      AppendedAllWindow(h', xs[1..]);
      FrontAndRest(xs);
      ConcatAssoc(history, [xs[0]], xs[1..]);
      KeepLastSuffix(history + [xs[0]], xs[1..], MaxHistoryLength);
    }
  }

  /** Dropping elements from the front that the final window does not reach
      does not change the window. */
  lemma KeepLastSuffix(s: seq<real>, t: seq<real>, n: nat)
    ensures KeepLast(KeepLast(s, n) + t, n) == KeepLast(s + t, n)
  {
    if n == 0 {
      return;
    }
    var k := KeepLast(s, n);
    var a := KeepLast(k + t, n);
    var b := KeepLast(s + t, n);
    assert |a| == |b|;
    forall i | 0 <= i < |a| ensures a[i] == b[i] {
      var j := |k + t| - |a| + i;
      var j' := |s + t| - |b| + i;
      if j < |k| {
        assert (k + t)[j] == k[j] == s[|s| - |k| + j];
      } else {
        assert (k + t)[j] == t[j - |k|];
      }
    }
  }

  /** `services.map(s => s.id === id ? {...s, status} : s)`. */
  function WithStatus(services: seq<ServiceEntry>, id: Option<string>, status: string): (r: seq<ServiceEntry>)
    ensures |r| == |services|
    ensures forall i :: 0 <= i < |r| && services[i].id == id ==>
      r[i] == services[i].(status := status)
    ensures forall i :: 0 <= i < |r| && services[i].id != id ==> r[i] == services[i]
  {
    if services == [] then []
    else
      [if services[0].id == id then services[0].(status := status) else services[0]]
        + WithStatus(services[1..], id, status)
  }

  /** The services endpoint serialises cards without an `id`, so updating a
      status by a real id leaves such a list unchanged. */
  lemma WithStatusWithoutIds(services: seq<ServiceEntry>, id: string, status: string)
    requires forall i :: 0 <= i < |services| ==> services[i].id == None
    ensures WithStatus(services, Some(id), status) == services
  {
  }

  /** The store. Each action replaces some fields and leaves the rest alone. */
  class ServerStore {
    var isConnected: bool
    var systemInfo: Option<SystemStaticInfo>
    var services: seq<ServiceEntry>
    var realtimeData: RealtimeData
    var cpuHistory: seq<real>
    var memoryHistory: seq<real>
    var rxHistory: seq<real>
    var txHistory: seq<real>

    /** No history holds more than 60 points. */
    ghost predicate Valid()
      reads this
    {
      && |cpuHistory| <= MaxHistoryLength
      && |memoryHistory| <= MaxHistoryLength
      && |rxHistory| <= MaxHistoryLength
      && |txHistory| <= MaxHistoryLength
    }

    /** The initial state: disconnected, no static information, no services,
        a zero sample and empty histories. */
    constructor ()
      ensures Valid()
      ensures !isConnected && systemInfo == None && services == []
      ensures realtimeData == RealtimeData(0.0, 0.0, 0.0, 0.0, 0, [], [], [])
      ensures cpuHistory == [] && memoryHistory == [] && rxHistory == [] && txHistory == []
    {
      isConnected := false;
      systemInfo := None;
      services := [];
      realtimeData := RealtimeData(0.0, 0.0, 0.0, 0.0, 0, [], [], []);
      cpuHistory, memoryHistory, rxHistory, txHistory := [], [], [], [];
    }

    method SetConnectionStatus(connected: bool)
      requires Valid()
      modifies this`isConnected
      ensures Valid() && isConnected == connected
    {
      isConnected := connected;
    }

    method SetSystemInfo(info: Option<SystemStaticInfo>)
      requires Valid()
      modifies this`systemInfo
      ensures Valid() && systemInfo == info
    {
      systemInfo := info;
    }

    method SetServices(list: seq<ServiceEntry>)
      requires Valid()
      modifies this`services
      ensures Valid() && services == list
    {
      services := list;
    }

    /** Installs the new sample and appends its four figures to the histories. */
    method UpdateRealtimeData(data: RealtimeData)
      requires Valid()
      modifies this`realtimeData, this`cpuHistory, this`memoryHistory, this`rxHistory, this`txHistory
      ensures Valid()
      ensures realtimeData == data
      ensures cpuHistory == Appended(old(cpuHistory), data.cpuTotalUsage)
      ensures memoryHistory == Appended(old(memoryHistory), data.memoryUsedPercent)
      ensures rxHistory == Appended(old(rxHistory), data.rxSpeedKbps)
      ensures txHistory == Appended(old(txHistory), data.txSpeedKbps)
    {
      var cpu := Appended(cpuHistory, data.cpuTotalUsage);
      var memory := Appended(memoryHistory, data.memoryUsedPercent);
      var rx := Appended(rxHistory, data.rxSpeedKbps);
      var tx := Appended(txHistory, data.txSpeedKbps);
      realtimeData, cpuHistory, memoryHistory, rxHistory, txHistory := data, cpu, memory, rx, tx;
    }

    /** Sets the status of every service whose `id` is `id`. */
    method UpdateServiceStatus(id: Option<string>, status: string)
      requires Valid()
      modifies this`services
      ensures Valid()
      ensures services == WithStatus(old(services), id, status)
    {
      services := WithStatus(services, id, status);
    }

    /** Empties the four histories. */
    method ClearHistory()
      requires Valid()
      modifies this`cpuHistory, this`memoryHistory, this`rxHistory, this`txHistory
      ensures Valid()
      ensures cpuHistory == [] && memoryHistory == [] && rxHistory == [] && txHistory == []
    {
      cpuHistory, memoryHistory, rxHistory, txHistory := [], [], [], [];
    }
  }
}
