/** The older single-page dashboard (`static/app.js`): its uptime text, its
    fixed-length chart series and its reconnect logic.

    The page's globals are the fields of `LegacyDashboard`; each chart dataset
    is a `Dataset` object whose `data` array the page shifts and pushes in
    place. `JSON.parse` (with the field lookups that follow it) and the
    `toFixed(1)` / `parseFloat` rounding are parameters. A frame that lacks a
    figure stops the update at that figure, where the page throws a
    `TypeError`, so the series after it keep their old points. */
module LegacyApp {
  import opened Base
  import opened Text
  import Helpers
  import Realtime

  /** Every chart starts with this many points, all zero. */
  const SeriesLength: nat := 60

  /** Milliseconds between reconnect attempts. */
  const ReconnectIntervalMs: nat := 5000

  function Zeros(n: nat): (s: seq<real>)
    ensures |s| == n && forall i :: 0 <= i < n ==> s[i] == 0.0
  {
    seq(n, _ => 0.0)
  }

  /** `data.shift(); data.push(value)` on a JavaScript array. */
  function ShiftPush(data: seq<real>, value: real): (r: seq<real>)
    ensures |r| == if data == [] then 1 else |data|
    ensures r[|r| - 1] == value
    ensures forall i :: 0 <= i < |r| - 1 ==> r[i] == data[i + 1]
  {
    if data == [] then [value] else data[1..] + [value]
  }

  /** The series after pushing each of `values` in turn. */
  function ShiftPushAll(data: seq<real>, values: seq<real>): (r: seq<real>)
    ensures data != [] ==> |r| == |data|
    ensures values != [] ==> |r| >= 1 && r[|r| - 1] == values[|values| - 1]
    decreases |values|
  {
    if values == [] then data else ShiftPushAll(ShiftPush(data, values[0]), values[1..])
  }

  /** A non-empty series keeps its length and always holds the most recent
      points of the whole stream. */
  lemma {:induction false} ShiftPushAllWindow(data: seq<real>, values: seq<real>)
    requires data != []
    ensures ShiftPushAll(data, values) == (data + values)[|values|..]
    decreases |values|
  {
    if values == [] {
      assert data + values == data;
    } else {
      var next := ShiftPush(data, values[0]);
      assert next == (data + [values[0]])[1..];
      ShiftPushAllWindow(next, values[1..]);
      assert next + values[1..] == (data + values)[1..];
    }
  }

  /** From the initial 60 zeros, the series is the stream zero-padded on the
      left and cut to its last 60 points. */
  lemma InitialSeriesWindow(values: seq<real>)
    ensures |ShiftPushAll(Zeros(SeriesLength), values)| == SeriesLength
    ensures ShiftPushAll(Zeros(SeriesLength), values) == (Zeros(SeriesLength) + values)[|values|..]
  {
    ShiftPushAllWindow(Zeros(SeriesLength), values);
  }

  /** `formatUptime(seconds)`: days, hours and minutes when there are days;
      hours and minutes when there are hours; otherwise minutes alone. */
  function FormatUptime(seconds: nat): (t: string)
    ensures |t| > 0
    ensures seconds < 3600 ==> t == NatToString(seconds / 60) + "分钟"
  {
    SpanText(Helpers.Decompose(seconds))
  }

  /** The text of a span as this page writes it. */
  function SpanText(d: Helpers.Span): string
  {
    if d.days > 0 then
      NatToString(d.days) + "天 " + NatToString(d.hours) + "小时 " + NatToString(d.minutes) + "分钟"
    else if d.hours > 0 then
      NatToString(d.hours) + "小时 " + NatToString(d.minutes) + "分钟"
    else NatToString(d.minutes) + "分钟"
  }

  /** The text is never empty and always ends with the minute count. */
  lemma FormatUptimeEndsWithMinutes(seconds: nat)
    ensures |FormatUptime(seconds)| > 0
    ensures var m := NatToString(Helpers.Decompose(seconds).minutes) + "分钟";
      |m| <= |FormatUptime(seconds)| && FormatUptime(seconds)[|FormatUptime(seconds)| - |m|..] == m
  {
  }

  lemma JoinThree(a: string, b: string, c: string)
    ensures Join([a, b, c], ' ') == a + [' '] + b + [' '] + c
  {
    assert [a, b, c][..2] == [a, b] && [a, b][..1] == [a];
    assert Join([a], ' ') == a;
    assert Join([a, b], ' ') == a + [' '] + b;
  }

  /** When days, hours and minutes are all non-zero the two formatters agree. */
  lemma FormatUptimeAgrees(d: Helpers.Span)
    requires d.days > 0 && d.hours > 0 && d.minutes > 0
    ensures SpanText(d) == Helpers.SpanText(d)
  {
    var a, b, c := NatToString(d.days) + "天", NatToString(d.hours) + "小时", NatToString(d.minutes) + "分钟";
    Helpers.SpanTextOfNonZero(d);
    assert Helpers.UptimeParts(d) == [a, b, c];
    JoinThree(a, b, c);
    assert "天 " == "天" + [' '] && "小时 " == "小时" + [' '];
  }

  /** The network figures of a frame. */
  datatype NetworkFigures = NetworkFigures(rxSpeedKbps: real, txSpeedKbps: real)

  /** What a parsed frame offers `updateRealtimeData`, figure by figure: a
      figure is absent when the JSON lacks it or its enclosing object. */
  datatype LegacyFrame = LegacyFrame(
    uptimeSecs: Option<nat>, cpuTotalUsage: Option<real>, memoryUsedPercent: Option<real>,
    network: Option<NetworkFigures>)

  /** Every chart figure is present, so no lookup before the network chart throws. */
  predicate Complete(f: LegacyFrame)
  {
    f.cpuTotalUsage.Some? && f.memoryUsedPercent.Some? && f.network.Some?
  }

  /** The uptime text. Without an uptime, days, hours and minutes are all
      NaN, neither of the first two tests holds, and only the minutes are
      written. */
  function UptimeText(uptime: Option<nat>): (t: string)
    ensures uptime.None? ==> t == "NaN分钟"
    ensures uptime.Some? ==> t == FormatUptime(uptime.value)
  {
    if uptime.Some? then FormatUptime(uptime.value) else "NaN分钟"
  }

  /** One chart dataset; the page mutates its array in place. */
  class Dataset {
    var data: seq<real>

    constructor (n: nat)
      ensures data == Zeros(n)
    {
      data := Zeros(n);
    }
  }

  /** `updateChart(chart, value)`: drops the oldest point and appends `value`. */
  method UpdateChart(chart: Dataset, value: real)
    modifies chart
    ensures chart.data == ShiftPush(old(chart.data), value)
  {
    chart.data := ShiftPush(chart.data, value);
  }

  class LegacyDashboard {
    var sockets: seq<Realtime.ReadyState>
    var ws: Option<nat>
    var reconnectTimer: Option<nat>
    var liveTimers: set<nat>
    var nextTimerId: nat
    const cpu: Dataset
    const memory: Dataset
    const rx: Dataset
    const tx: Dataset
    var uptimeText: string

    /** At most one interval is alive; the four series are distinct arrays of 60 points. */
    ghost predicate Valid()
      reads this, cpu, memory, rx, tx
    {
      && (ws.Some? ==> ws.value < |sockets|)
      && 1 <= nextTimerId
      && (reconnectTimer.Some? ==> 1 <= reconnectTimer.value < nextTimerId)
      && liveTimers == (if reconnectTimer.Some? then {reconnectTimer.value} else {})
      && cpu != memory && cpu != rx && cpu != tx && memory != rx && memory != tx && rx != tx
      && |cpu.data| == SeriesLength && |memory.data| == SeriesLength
      && |rx.data| == SeriesLength && |tx.data| == SeriesLength
    }

    /** `initCharts()`: every series is 60 zeros; no socket yet. */
    constructor ()
      ensures Valid()
      ensures sockets == [] && ws == None && reconnectTimer == None && liveTimers == {}
      ensures cpu.data == Zeros(SeriesLength) && memory.data == Zeros(SeriesLength)
      ensures rx.data == Zeros(SeriesLength) && tx.data == Zeros(SeriesLength)
      ensures uptimeText == ""
    {
      sockets := [];
      ws := None;
      reconnectTimer := None;
      liveTimers := {};
      nextTimerId := 1;
      cpu := new Dataset(SeriesLength);
      memory := new Dataset(SeriesLength);
      rx := new Dataset(SeriesLength);
      tx := new Dataset(SeriesLength);
      uptimeText := "";
    }

    /** `updateNetworkChart(rx, tx)`: the same shift and push on each dataset. */
    method UpdateNetworkChart(rxValue: real, txValue: real)
      requires Valid()
      modifies rx, tx
      ensures Valid()
      ensures rx.data == ShiftPush(old(rx.data), rxValue)
      ensures tx.data == ShiftPush(old(tx.data), txValue)
    {
      UpdateChart(rx, rxValue);
      UpdateChart(tx, txValue);
    }

    /** `updateRealtimeData(data)`: the uptime text, then one point per
        series; `roundTenth` is `parseFloat(x.toFixed(1))`. The first figure
        the frame lacks throws, so the series before it are updated and the
        rest are left as they were; a missing uptime only makes the text
        "NaN分钟". */
    method UpdateRealtimeData(frame: LegacyFrame, roundTenth: real -> real)
      requires Valid()
      modifies this`uptimeText, cpu, memory, rx, tx
      ensures Valid()
      ensures uptimeText == UptimeText(frame.uptimeSecs)
      ensures cpu.data == if frame.cpuTotalUsage.Some?
        then ShiftPush(old(cpu.data), roundTenth(frame.cpuTotalUsage.value)) else old(cpu.data)
      ensures memory.data == if frame.cpuTotalUsage.Some? && frame.memoryUsedPercent.Some?
        then ShiftPush(old(memory.data), roundTenth(frame.memoryUsedPercent.value)) else old(memory.data)
      ensures rx.data == if Complete(frame)
        then ShiftPush(old(rx.data), frame.network.value.rxSpeedKbps) else old(rx.data)
      ensures tx.data == if Complete(frame)
        then ShiftPush(old(tx.data), frame.network.value.txSpeedKbps) else old(tx.data)
    {
      uptimeText := UptimeText(frame.uptimeSecs);
      if frame.cpuTotalUsage.None? {
        return;
      }
      UpdateChart(cpu, roundTenth(frame.cpuTotalUsage.value));
      if frame.memoryUsedPercent.None? {
        return;
      }
      UpdateChart(memory, roundTenth(frame.memoryUsedPercent.value));
      if frame.network.None? {
        return;
      }
      UpdateNetworkChart(frame.network.value.rxSpeedKbps, frame.network.value.txSpeedKbps);
    }

    /** `connectWebSocket()`: always constructs a new socket. */
    method ConnectWebSocket()
      requires Valid()
      modifies this`sockets, this`ws
      ensures Valid()
      ensures sockets == old(sockets) + [Realtime.Connecting] && ws == Some(|old(sockets)|)
    {
      sockets := sockets + [Realtime.Connecting];
      ws := Some(|sockets| - 1);
    }

    /** The `open` event: the pending interval is cleared. */
    method HandleOpen(i: nat)
      requires Valid() && i < |sockets| && sockets[i] == Realtime.Connecting
      modifies this`sockets, this`reconnectTimer, this`liveTimers
      ensures Valid()
      ensures sockets == old(sockets)[i := Realtime.Open]
      ensures reconnectTimer == None && liveTimers == {}
    {
      sockets := sockets[i := Realtime.Open];
      if reconnectTimer.Some? {
        liveTimers := liveTimers - {reconnectTimer.value};
        reconnectTimer := None;
      }
    }

    /** The `message` event. `JSON.parse` throws on a malformed frame before
        anything is displayed; a parsed frame is displayed up to the first
        figure it lacks. */
    method HandleMessage(i: nat, text: string, parse: string -> Option<LegacyFrame>, roundTenth: real -> real)
      requires Valid() && i < |sockets| && sockets[i] == Realtime.Open
      modifies this`uptimeText, cpu, memory, rx, tx
      ensures Valid()
      ensures parse(text).None? ==>
        uptimeText == old(uptimeText) && cpu.data == old(cpu.data) && memory.data == old(memory.data)
        && rx.data == old(rx.data) && tx.data == old(tx.data)
      ensures parse(text).Some? ==> var f := parse(text).value;
        && uptimeText == UptimeText(f.uptimeSecs)
        && cpu.data == (if f.cpuTotalUsage.Some?
             then ShiftPush(old(cpu.data), roundTenth(f.cpuTotalUsage.value)) else old(cpu.data))
        && memory.data == (if f.cpuTotalUsage.Some? && f.memoryUsedPercent.Some?
             then ShiftPush(old(memory.data), roundTenth(f.memoryUsedPercent.value)) else old(memory.data))
        && rx.data == (if Complete(f) then ShiftPush(old(rx.data), f.network.value.rxSpeedKbps) else old(rx.data))
        && tx.data == (if Complete(f) then ShiftPush(old(tx.data), f.network.value.txSpeedKbps) else old(tx.data))
    {
      var parsed := parse(text);
      if parsed.Some? {
        UpdateRealtimeData(parsed.value, roundTenth);
      }
    }

    /** The `close` event: an interval is created only if none is pending. */
    method HandleClose(i: nat)
      requires Valid() && i < |sockets| && sockets[i] != Realtime.Closed
      modifies this`sockets, this`reconnectTimer, this`liveTimers, this`nextTimerId
      ensures Valid()
      ensures sockets == old(sockets)[i := Realtime.Closed]
      ensures reconnectTimer.Some?
      ensures old(reconnectTimer).Some? ==> reconnectTimer == old(reconnectTimer) && liveTimers == old(liveTimers)
      ensures old(reconnectTimer).None? ==> liveTimers == {old(nextTimerId)}
    {
      sockets := sockets[i := Realtime.Closed];
      if reconnectTimer.None? {
        reconnectTimer := Some(nextTimerId);
        liveTimers := {nextTimerId};
        nextTimerId := nextTimerId + 1;
      }
    }

    /** The pending interval fires and opens another socket, even while an
        earlier one is still connecting. */
    method HandleTimer()
      requires Valid() && reconnectTimer.Some?
      modifies this`sockets, this`ws
      ensures Valid()
      ensures sockets == old(sockets) + [Realtime.Connecting] && ws == Some(|old(sockets)|)
    {
      ConnectWebSocket();
    }
  }
}
