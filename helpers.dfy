/** Formatting and classification helpers of the dashboard
    (`frontend/src/utils/helpers.js`): the uptime text and the threshold colour
    of a percentage or temperature. */
module Helpers {
  import opened Text

  const SecondsPerMinute: nat := 60
  const SecondsPerHour: nat := 3600
  const SecondsPerDay: nat := 86400

  /** Whole days, hours and minutes of an uptime. */
  datatype Span = Span(days: nat, hours: nat, minutes: nat)

  /** The decomposition both uptime formatters compute:
      `floor(s / 86400)`, `floor((s % 86400) / 3600)`, `floor((s % 3600) / 60)`. */
  function Decompose(seconds: nat): (d: Span)
    ensures d.hours < 24 && d.minutes < 60
  {
    Span(seconds / SecondsPerDay, (seconds % SecondsPerDay) / SecondsPerHour,
         (seconds % SecondsPerHour) / SecondsPerMinute)
  }

  /** The seconds a span stands for. */
  function SpanSeconds(d: Span): nat
  {
    d.days * SecondsPerDay + d.hours * SecondsPerHour + d.minutes * SecondsPerMinute
  }

  /** Euclidean division has one quotient and one remainder. */
  lemma DivModUnique(n: int, m: int, q: int, r: int)
    requires m > 0 && 0 <= r < m && n == q * m + r
    ensures n / m == q && n % m == r
  {
    var q', r' := n / m, n % m;
    assert n == q' * m + r';
    MulDiff(q, q', m);
    if q > q' {
      MulAtLeast(q - q', m);
    } else if q < q' {
      MulAtLeast(q' - q, m);
    }
  }

  lemma MulDiff(a: int, b: int, m: int)
    ensures a * m - b * m == (a - b) * m
  {
  }

  lemma MulAtLeast(d: int, m: int)
    requires d >= 1 && m > 0
    ensures d * m >= m
  {
  }

  /** Dividing by `a` and then by `b` is dividing by `a * b`, and the
      remainder modulo `a * b`, divided by `a`, is the quotient by `a` modulo `b`. */
  lemma DivDivMod(n: nat, a: nat, b: nat)
    requires a > 0 && b > 0
    ensures n / (a * b) == (n / a) / b
    ensures (n % (a * b)) / a == (n / a) % b
  {
    var q, r0 := n / a, n % a;
    var q2, r2 := q / b, q % b;
    assert n == (q2 * b + r2) * a + r0;
    assert n == q2 * (a * b) + (r2 * a + r0);
    assert r2 * a + r0 < a * b by {
      assert r2 <= b - 1;
      assert r2 * a <= (b - 1) * a;
    }
    DivModUnique(n, a * b, q2, r2 * a + r0);
    DivModUnique(r2 * a + r0, a, r2, r0);
  }

  /** The span depends on the whole minutes only: days, hours and minutes are
      the minute count in base (1440, 60). */
  lemma DecomposeByMinutes(seconds: nat)
    ensures Decompose(seconds) ==
      Span((seconds / 60) / 1440, ((seconds / 60) % 1440) / 60, (seconds / 60) % 60)
  {
    DivDivMod(seconds, 60, 1440);
    DivDivMod(seconds, 60, 60);
  }

  /** The span accounts for every second except fewer than sixty. */
  lemma DecomposeExact(seconds: nat)
    ensures SpanSeconds(Decompose(seconds)) + seconds % 60 == seconds
  {
    DecomposeByMinutes(seconds);
    var m := seconds / 60;
    assert seconds == m * 60 + seconds % 60;
    var dd, hh := m / 1440, (m % 1440) / 60;
    assert m == dd * 1440 + m % 1440;
    assert m % 1440 == hh * 60 + (m % 1440) % 60;
    DivDivMod(m, 60, 24);
    assert (m % 1440) % 60 == m % 60 by {
      DivModUnique(m, 60, (m / 1440) * 24 + hh, (m % 1440) % 60);
    }
  }

  /** Leftover seconds never change the span. */
  lemma DecomposeIgnoresSeconds(seconds: nat)
    ensures Decompose(seconds) == Decompose(seconds - seconds % 60)
  {
    var t := seconds - seconds % 60;
    DivModUnique(t, 60, seconds / 60, 0);
    DecomposeByMinutes(seconds);
    DecomposeByMinutes(t);
  }

  /** The span is zero exactly when the uptime is under a minute. */
  lemma DecomposeZero(seconds: nat)
    ensures Decompose(seconds) == Span(0, 0, 0) <==> seconds < 60
  {
    DecomposeExact(seconds);
  }

  /** `parts.join(' ') || '刚刚启动'` over the non-zero units, in the order
      days, hours, minutes. */
  function UptimeParts(d: Span): (parts: seq<string>)
    ensures |parts| <= 3
    ensures parts == [] <==> d == Span(0, 0, 0)
    ensures forall i :: 0 <= i < |parts| ==> |parts[i]| >= 1 && IsDigit(parts[i][0])
  {
    (if d.days > 0 then [NatToString(d.days) + "天"] else [])
      + (if d.hours > 0 then [NatToString(d.hours) + "小时"] else [])
      + (if d.minutes > 0 then [NatToString(d.minutes) + "分钟"] else [])
  }

  const JustStarted: string := "刚刚启动"

  /** The text of a span: its non-zero units, or the "just started" phrase. */
  function SpanText(d: Span): (t: string)
    ensures d == Span(0, 0, 0) ==> t == JustStarted
    ensures d != Span(0, 0, 0) ==> |t| >= 1 && IsDigit(t[0])
  {
    JoinedPartsStartWithDigit(d);
    var text := Join(UptimeParts(d), ' ');
    if text == "" then JustStarted else text
  }

  /** `formatUptime(seconds)`. */
  function FormatUptime(seconds: nat): (t: string)
    ensures seconds < 60 ==> t == JustStarted
    ensures seconds >= 60 ==> |t| >= 1 && IsDigit(t[0])
  {
    DecomposeZero(seconds);
    SpanText(Decompose(seconds))
  }

  /** A join of non-empty parts whose first starts with a digit starts with that digit. */
  lemma {:induction false} JoinStartsWithDigit(parts: seq<string>)
    requires |parts| >= 1 && |parts[0]| >= 1 && IsDigit(parts[0][0])
    ensures |Join(parts, ' ')| >= 1 && IsDigit(Join(parts, ' ')[0])
    decreases |parts|
  {
    if |parts| > 1 {
      JoinStartsWithDigit(parts[..|parts| - 1]);
    }
  }

  /** Some non-zero unit makes the joined text start with a digit. */
  lemma JoinedPartsStartWithDigit(d: Span)
    ensures d != Span(0, 0, 0) ==> |Join(UptimeParts(d), ' ')| >= 1 && IsDigit(Join(UptimeParts(d), ' ')[0])
  {
    if d != Span(0, 0, 0) {
      JoinStartsWithDigit(UptimeParts(d));
    }
  }

  /** The text is the "just started" phrase exactly when the uptime is under a
      minute; otherwise it is the space-joined non-zero units. */
  lemma FormatUptimeJustStarted(seconds: nat)
    ensures FormatUptime(seconds) == JustStarted <==> seconds < 60
    ensures seconds >= 60 ==> FormatUptime(seconds) == Join(UptimeParts(Decompose(seconds)), ' ')
  {
    DecomposeZero(seconds);
    SpanTextOfNonZero(Decompose(seconds));
  }

  /** A span with some non-zero unit is written as its joined units, which
      start with a digit and so differ from the "just started" phrase. */
  lemma SpanTextOfNonZero(d: Span)
    ensures d == Span(0, 0, 0) ==> SpanText(d) == JustStarted
    ensures d != Span(0, 0, 0) ==> SpanText(d) == Join(UptimeParts(d), ' ') && SpanText(d) != JustStarted
  {
    var parts := UptimeParts(d);
    if d != Span(0, 0, 0) {
      assert parts != [];
      assert |parts[0]| >= 1 && IsDigit(parts[0][0]);
      JoinStartsWithDigit(parts);
      assert !IsDigit(JustStarted[0]);
    }
  }

  /** Leftover seconds never change the text. */
  lemma FormatUptimeIgnoresSeconds(seconds: nat)
    ensures FormatUptime(seconds) == FormatUptime(seconds - seconds % 60)
  {
    DecomposeIgnoresSeconds(seconds);
  }

  /** A unit is shown exactly when its count is non-zero, and the units come in
      the order days, hours, minutes. */
  lemma UptimePartsShape(d: Span)
    ensures |UptimeParts(d)| == (if d.days > 0 then 1 else 0) + (if d.hours > 0 then 1 else 0)
      + (if d.minutes > 0 then 1 else 0)
    ensures d.days > 0 ==> UptimeParts(d)[0] == NatToString(d.days) + "天"
    ensures d.days == 0 && d.hours > 0 ==> UptimeParts(d)[0] == NatToString(d.hours) + "小时"
    ensures d.minutes > 0 ==> UptimeParts(d)[|UptimeParts(d)| - 1] == NatToString(d.minutes) + "分钟"
  {
  }

  /** The Tailwind colour classes of the threshold classifier. */
  const Green: string := "text-green-500"
  const Yellow: string := "text-yellow-500"
  const Red: string := "text-red-500"
  const Gray: string := "text-gray-500"

  /** How alarming a colour is; gray is outside the scale. */
  function Severity(color: string): int
  {
    if color == Green then 0 else if color == Yellow then 1 else if color == Red then 2 else -1
  }

  /** `getStatusColor(value, type)`. */
  function StatusColor(value: real, kind: string): (c: string)
    ensures kind == "cpu" || kind == "memory" ==>
      (c == Green <==> value < 50.0) && (c == Yellow <==> 50.0 <= value < 80.0)
      && (c == Red <==> 80.0 <= value)
    ensures kind == "temperature" ==>
      (c == Green <==> value < 60.0) && (c == Yellow <==> 60.0 <= value < 80.0)
      && (c == Red <==> 80.0 <= value)
    ensures kind != "cpu" && kind != "memory" && kind != "temperature" ==> c == Gray
  {
    if kind == "cpu" || kind == "memory" then
      if value < 50.0 then Green else if value < 80.0 then Yellow else Red
    else if kind == "temperature" then
      if value < 60.0 then Green else if value < 80.0 then Yellow else Red
    else Gray
  }

  /** Within one kind, a larger value is never shown in a milder colour. */
  lemma StatusColorMonotone(v: real, w: real, kind: string)
    requires v <= w
    ensures Severity(StatusColor(v, kind)) <= Severity(StatusColor(w, kind))
  {
  }
}
