/** Text primitives the dashboard relies on: decimal and octal numerals, ASCII case
    folding, substring search, splitting and joining, whitespace trimming and the
    lexicographic order of strings. Strings are sequences of Unicode scalar values. */
module Text {
  import opened Base

  // ---------------------------------------------------------------------------
  // Decimal numerals (JavaScript `Number.prototype.toString`, Rust `Display`)
  // ---------------------------------------------------------------------------

  predicate IsDigit(c: char) { '0' <= c <= '9' }

  predicate AllDigits(s: string) { forall i :: 0 <= i < |s| ==> IsDigit(s[i]) }

  function DigitValue(c: char): nat
    requires '0' <= c
  {
    c as int - '0' as int
  }

  function DigitChar(d: nat): char
    requires d < 10
  {
    (d + '0' as int) as char
  }

  /** Decimal text of `n`, without leading zeros. */
  function NatToString(n: nat): (s: string)
    ensures |s| >= 1 && AllDigits(s)
    ensures s[0] == '0' ==> n == 0
    decreases n
  {
    if n < 10 then [DigitChar(n)] else NatToString(n / 10) + [DigitChar(n % 10)]
  }

  /** The value of a string of decimal digits (leading zeros allowed). */
  function DigitsValue(s: string): nat
    requires AllDigits(s)
    decreases |s|
  {
    if s == [] then 0 else DigitsValue(s[..|s| - 1]) * 10 + DigitValue(s[|s| - 1])
  }

  lemma {:induction false} DecimalRoundTrip(n: nat)
    ensures DigitsValue(NatToString(n)) == n
    decreases n
  {
    if n >= 10 {
      var s := NatToString(n);
      assert s[..|s| - 1] == NatToString(n / 10);
      DecimalRoundTrip(n / 10);
    }
  }

  /** Rust's `str::parse::<u16>()`: an optional '+', then at least one decimal
      digit, and a value that fits in 16 bits; anything else is an error. */
  function ParseU16(s: string): (r: Option<nat>)
    ensures r.Some? ==> r.value < 0x1_0000
  {
    var digits := if |s| > 0 && s[0] == '+' then s[1..] else s;
    if |digits| > 0 && AllDigits(digits) && DigitsValue(digits) < 0x1_0000
    then Some(DigitsValue(digits))
    else None
  }

  lemma ParseU16OfDecimal(n: nat)
    requires n < 0x1_0000
    ensures ParseU16(NatToString(n)) == Some(n)
  {
    DecimalRoundTrip(n);
  }

  lemma ParseU16RejectsEmpty()
    ensures ParseU16("") == None && ParseU16("+") == None
  {
  }

  // ---------------------------------------------------------------------------
  // Octal numerals (Rust `format!("{:o}", n)`)
  // ---------------------------------------------------------------------------

  predicate IsOctalDigit(c: char) { '0' <= c <= '7' }

  function Octal(n: nat): (s: string)
    ensures |s| >= 1 && AllOctal(s)
    decreases n
  {
    if n < 8 then [(n + '0' as int) as char] else Octal(n / 8) + [(n % 8 + '0' as int) as char]
  }

  predicate AllOctal(s: string) { forall i :: 0 <= i < |s| ==> IsOctalDigit(s[i]) }

  function OctalValue(s: string): nat
    requires AllOctal(s)
    decreases |s|
  {
    if s == [] then 0 else OctalValue(s[..|s| - 1]) * 8 + DigitValue(s[|s| - 1])
  }

  lemma {:induction false} OctalRoundTrip(n: nat)
    ensures OctalValue(Octal(n)) == n
    decreases n
  {
    if n >= 8 {
      var s := Octal(n);
      assert s[..|s| - 1] == Octal(n / 8);
      OctalRoundTrip(n / 8);
    }
  }

  /** A value below 8^3 = 512 is written with at most three octal digits. */
  lemma {:induction false} OctalAtMostThreeDigits(n: nat)
    requires n < 512
    ensures |Octal(n)| <= 3
  {
    if n >= 8 {
      assert n / 8 < 64;
      if n / 8 >= 8 {
        assert n / 8 / 8 < 8;
        assert |Octal(n / 8 / 8)| == 1;
      }
    }
  }

  // ---------------------------------------------------------------------------
  // ASCII case folding (the model of `toLowerCase`)
  // ---------------------------------------------------------------------------

  function LowerChar(c: char): char
  {
    if 'A' <= c <= 'Z' then (c as int + 32) as char else c
  }

  function Lower(s: string): string
  {
    seq(|s|, i requires 0 <= i < |s| => LowerChar(s[i]))
  }

  lemma LowerIdempotent(s: string)
    ensures Lower(Lower(s)) == Lower(s)
  {
  }

  // ---------------------------------------------------------------------------
  // Substring search (`String.prototype.includes`, `str::find`, `str::rfind`)
  // ---------------------------------------------------------------------------

  /** `sub` occurs in `s` (every string contains the empty string). */
  predicate Contains(s: string, sub: string)
    decreases |s|
  {
    sub <= s || (|s| > 0 && Contains(s[1..], sub))
  }

  /** `sub` occurs in `s` starting at index `i`. */
  predicate OccursAt(s: string, sub: string, i: nat)
  {
    i + |sub| <= |s| && s[i..i + |sub|] == sub
  }

  /** `Contains` agrees with the definition by position. */
  lemma {:induction false} ContainsAt(s: string, sub: string)
    ensures Contains(s, sub) <==> exists i: nat :: OccursAt(s, sub, i)
    decreases |s|
  {
    if sub <= s {
      assert OccursAt(s, sub, 0);
    } else if |s| > 0 {
      ContainsAt(s[1..], sub);
      if Contains(s[1..], sub) {
        var i: nat :| OccursAt(s[1..], sub, i);
        OccursAfterFirst(s, sub, i + 1);
      } else {
        forall i: nat | OccursAt(s, sub, i) ensures false {
          if i > 0 {
            OccursAfterFirst(s, sub, i);
          }
        }
      }
    }
  }

  /** An occurrence after the first character is an occurrence in the rest. */
  lemma OccursAfterFirst(s: string, sub: string, i: nat)
    requires 0 < i && |s| > 0
    ensures OccursAt(s, sub, i) <==> OccursAt(s[1..], sub, i - 1)
  {
    if i + |sub| <= |s| {
      assert s[1..][i - 1..i - 1 + |sub|] == s[i..i + |sub|];
    }
  }

  /** Index of the first occurrence of `pat` in `s`. */
  function Find(s: string, pat: string): (r: Option<nat>)
    ensures r.Some? ==> r.value + |pat| <= |s| && s[r.value..r.value + |pat|] == pat
    ensures r.Some? ==> forall j :: 0 <= j < r.value ==> !(pat <= s[j..])
    ensures r.None? ==> forall j :: 0 <= j <= |s| ==> !(pat <= s[j..])
    decreases |s|
  {
    if pat <= s then Some(0)
    else if s == [] then None
    else
      match Find(s[1..], pat)
      case Some(i) =>
        assert forall j :: 1 <= j <= |s| ==> s[1..][j - 1..] == s[j..];
        Some(i + 1)
      case None =>
        assert forall j :: 1 <= j <= |s| ==> s[1..][j - 1..] == s[j..];
        None
  }

  /** Index of the last occurrence of the character `c` in `s`. */
  function RFindChar(s: string, c: char): (r: Option<nat>)
    ensures r.Some? ==> r.value < |s| && s[r.value] == c
    ensures r.Some? ==> forall j :: r.value < j < |s| ==> s[j] != c
    ensures r.None? ==> c !in s
    decreases |s|
  {
    if s == [] then None
    else if s[|s| - 1] == c then Some(|s| - 1)
    else RFindChar(s[..|s| - 1], c)
  }

  // ---------------------------------------------------------------------------
  // Splitting on a character and joining (JavaScript `split('/')`, `join('/')`)
  // ---------------------------------------------------------------------------

  /** JavaScript's `s.split(sep)` for a one-character separator: the pieces between
      separators, so `""` gives `[""]` and `"a/"` gives `["a", ""]`. */
  function Split(s: string, sep: char): (parts: seq<string>)
    ensures |parts| >= 1
    decreases |s|
  {
    if s == [] then [[]]
    else
      var init := Split(s[..|s| - 1], sep);
      if s[|s| - 1] == sep then init + [[]]
      else init[..|init| - 1] + [init[|init| - 1] + [s[|s| - 1]]]
  }

  /** JavaScript's `parts.join(sep)`: `[]` joins to `""`. */
  function Join(parts: seq<string>, sep: char): string
    decreases |parts|
  {
    if parts == [] then []
    else if |parts| == 1 then parts[0]
    else Join(parts[..|parts| - 1], sep) + [sep] + parts[|parts| - 1]
  }

  lemma JoinExtendLast(q: seq<string>, sep: char, c: char)
    requires |q| >= 1
    ensures Join(q[..|q| - 1] + [q[|q| - 1] + [c]], sep) == Join(q, sep) + [c]
  {
    var r := q[..|q| - 1] + [q[|q| - 1] + [c]];
    if |q| > 1 {
      assert r[..|r| - 1] == q[..|q| - 1];
    }
  }

  /** Splitting and joining again gives back the original string. */
  lemma {:induction false} JoinSplit(s: string, sep: char)
    ensures Join(Split(s, sep), sep) == s
    decreases |s|
  {
    if s != [] {
      var s' := s[..|s| - 1];
      var init := Split(s', sep);
      JoinSplit(s', sep);
      if s[|s| - 1] == sep {
        FrontOfAppend(init, []);
      } else {
        JoinExtendLast(init, sep, s[|s| - 1]);
      }
      FrontAndLast(s);
    }
  }

  /** A string without the separator is a single piece. */
  lemma {:induction false} SplitWithoutSep(s: string, sep: char)
    requires sep !in s
    ensures Split(s, sep) == [s]
    decreases |s|
  {
    if s != [] {
      SplitWithoutSep(s[..|s| - 1], sep);
      assert s[..|s| - 1] + [s[|s| - 1]] == s;
    }
  }

  /** Appending a separator and a separator-free piece appends one piece. */
  lemma {:induction false} SplitAppend(p: string, name: string, sep: char)
    requires sep !in name
    ensures Split(p + [sep] + name, sep) == Split(p, sep) + [name]
    decreases |name|
  {
    var s := p + [sep] + name;
    if name == [] {
      assert s[..|s| - 1] == p;
    } else {
      var n' := name[..|name| - 1];
      assert s[..|s| - 1] == p + [sep] + n';
      SplitAppend(p, n', sep);
      assert n' + [name[|name| - 1]] == name;
    }
  }

  /** One more character either ends a piece or extends the last one. */
  lemma SplitSnoc(t: string, c: char, sep: char)
    ensures var init := Split(t, sep);
      Split(t + [c], sep) == if c == sep then init + [[]] else init[..|init| - 1] + [init[|init| - 1] + [c]]
  {
    assert (t + [c])[..|t|] == t;
  }

  /** Splitting at a separator splits each side on its own. */
  lemma {:induction false} SplitConcat(a: string, b: string, sep: char)
    ensures Split(a + [sep] + b, sep) == Split(a, sep) + Split(b, sep)
    decreases |b|
  {
    if b == [] {
      assert a + [sep] + b == a + [sep];
      SplitSnoc(a, sep, sep);
    } else {
      var b', c := b[..|b| - 1], b[|b| - 1];
      FrontAndLast(b);
      ConcatAssoc(a + [sep], b', [c]);
      SplitConcat(a, b', sep);
      SplitConcatStep(Split(a, sep), Split(b', sep), a + [sep] + b', b', c, sep);
    }
  }

  lemma SplitConcatStep(x: seq<string>, y: seq<string>, t: string, b': string, c: char, sep: char)
    requires |y| >= 1 && Split(t, sep) == x + y && Split(b', sep) == y
    ensures Split(t + [c], sep) == x + Split(b' + [c], sep)
  {
    SplitSnoc(t, c, sep);
    SplitSnoc(b', c, sep);
    var init := x + y;
    if c != sep {
      assert Split(t + [c], sep) == init[..|init| - 1] + [init[|init| - 1] + [c]];
      assert Split(b' + [c], sep) == y[..|y| - 1] + [y[|y| - 1] + [c]];
      ExtendLastOfConcat(x, y, [c]);
    } else {
      assert Split(t + [c], sep) == init + [[]];
      assert Split(b' + [c], sep) == y + [[]];
      ConcatAssoc(x, y, [[]]);
    }
  }

  /** Extending the last piece of `x + y` extends the last piece of `y`. */
  lemma ExtendLastOfConcat(x: seq<string>, y: seq<string>, tail: string)
    requires |y| >= 1
    ensures var init := x + y;
      init[..|init| - 1] + [init[|init| - 1] + tail] == x + (y[..|y| - 1] + [y[|y| - 1] + tail])
  {
    var init := x + y;
    assert init[..|init| - 1] == x + y[..|y| - 1];
    assert init[|init| - 1] == y[|y| - 1];
  }

  /** Splitting and joining a prefix of the pieces. */
  lemma JoinPrefixLast(parts: seq<string>, k: nat, sep: char)
    requires 1 <= k <= |parts|
    ensures Join(parts[..k], sep) == if k == 1 then parts[0] else Join(parts[..k - 1], sep) + [sep] + parts[k - 1]
  {
    assert parts[..k][..k - 1] == parts[..k - 1];
  }

  // ---------------------------------------------------------------------------
  // Splitting on a string (Rust `str::split(", ")`, `str::lines`)
  // ---------------------------------------------------------------------------

  /** Rust's `s.split(pat)` for a non-empty pattern: the pieces between
      non-overlapping occurrences, scanning left to right. */
  function SplitOn(s: string, pat: string): (parts: seq<string>)
    requires |pat| > 0
    ensures |parts| >= 1
    decreases |s|
  {
    match Find(s, pat)
    case None => [s]
    case Some(i) => [s[..i]] + SplitOn(s[i + |pat|..], pat)
  }

  function StripCr(line: string): string
  {
    if |line| > 0 && line[|line| - 1] == '\r' then line[..|line| - 1] else line
  }

  /** Rust's `s.lines()`: pieces ended by "\n" (a "\r" before it is dropped); a
      final empty piece after the last "\n" is not a line. */
  function Lines(s: string): (lines: seq<string>)
  {
    var parts := SplitOn(s, "\n");
    var ended := seq(|parts| - 1, i requires 0 <= i < |parts| - 1 => StripCr(parts[i]));
    if parts[|parts| - 1] == [] then ended else ended + [parts[|parts| - 1]]
  }

  lemma LinesOfEmpty()
    ensures Lines("") == []
  {
    assert Find("", "\n") == None;
  }

  /** The first occurrence is found at `k` when the pattern starts at `k` and
      its first character appears nowhere before. */
  lemma FindFirstChar(s: string, pat: string, k: nat)
    requires |pat| > 0 && OccursAt(s, pat, k)
    requires forall j :: 0 <= j < k ==> s[j] != pat[0]
    ensures Find(s, pat) == Some(k)
  {
    var r := Find(s, pat);
    assert pat <= s[k..];
    assert r.Some?;
    var v := r.value;
    assert s[v] == pat[0] by {
      assert s[v..v + |pat|][0] == s[v];
    }
    assert !(k < v);
  }

  /** A pattern whose first character does not occur is not found. */
  lemma FindAbsentChar(s: string, pat: string)
    requires |pat| > 0 && pat[0] !in s
    ensures Find(s, pat) == None
  {
    forall j | 0 <= j <= |s| ensures !(pat <= s[j..]) {
      if j < |s| {
        assert s[j..][0] == s[j];
      }
    }
  }

  /** The pieces joined with a string separator, the inverse of `SplitOn`. */
  function JoinWith(parts: seq<string>, sep: string): string
    decreases |parts|
  {
    if parts == [] then []
    else if |parts| == 1 then parts[0]
    else parts[0] + sep + JoinWith(parts[1..], sep)
  }

  /** Splitting undoes joining when no piece holds the separator's first character. */
  lemma {:induction false} SplitOnJoinWith(parts: seq<string>, sep: string)
    requires |parts| >= 1 && |sep| > 0
    requires forall i :: 0 <= i < |parts| ==> sep[0] !in parts[i]
    ensures SplitOn(JoinWith(parts, sep), sep) == parts
    decreases |parts|
  {
    if |parts| == 1 {
      FindAbsentChar(parts[0], sep);
    } else {
      var rest := JoinWith(parts[1..], sep);
      var s := parts[0] + sep + rest;
      ThreePieces(parts[0], sep, rest);
      FindFirstChar(s, sep, |parts[0]|);
      assert SplitOn(s, sep) == [parts[0]] + SplitOn(rest, sep);
      assert forall i :: 0 <= i < |parts| - 1 ==> parts[1..][i] == parts[i + 1];
      SplitOnJoinWith(parts[1..], sep);
      FrontAndRest(parts);
    }
  }

  // ---------------------------------------------------------------------------
  // Trimming
  // ---------------------------------------------------------------------------

  /** Rust's `char::is_whitespace`: the Unicode White_Space property. */
  predicate IsRustWhitespace(c: char)
  {
    c == ' ' || '\t' <= c <= '\r' || c == '\U{85}' || c == '\U{A0}' || c == '\U{1680}'
    || '\U{2000}' <= c <= '\U{200A}' || c == '\U{2028}' || c == '\U{2029}'
    || c == '\U{202F}' || c == '\U{205F}' || c == '\U{3000}'
  }

  /** The characters JavaScript's `String.prototype.trim` removes: WhiteSpace and
      LineTerminator of ECMAScript (this includes U+FEFF and excludes U+0085). */
  predicate IsJsWhitespace(c: char)
  {
    c == ' ' || '\t' <= c <= '\r' || c == '\U{A0}' || c == '\U{1680}'
    || '\U{2000}' <= c <= '\U{200A}' || c == '\U{2028}' || c == '\U{2029}'
    || c == '\U{202F}' || c == '\U{205F}' || c == '\U{3000}' || c == '\U{FEFF}'
  }

  function TrimStart(s: string, ws: char -> bool): string
    decreases |s|
  {
    if s != [] && ws(s[0]) then TrimStart(s[1..], ws) else s
  }

  function TrimEnd(s: string, ws: char -> bool): string
    decreases |s|
  {
    if s != [] && ws(s[|s| - 1]) then TrimEnd(s[..|s| - 1], ws) else s
  }

  function Trim(s: string, ws: char -> bool): string
  {
    TrimEnd(TrimStart(s, ws), ws)
  }

  function RustTrim(s: string): string { Trim(s, IsRustWhitespace) }

  function JsTrim(s: string): string { Trim(s, IsJsWhitespace) }

  predicate Blank(s: string, ws: char -> bool)
  {
    forall i :: 0 <= i < |s| ==> ws(s[i])
  }

  /** Whitespace in front of a string is all trimmed away by `TrimStart`. */
  lemma {:induction false} TrimStartBlankPrefix(w: string, t: string, ws: char -> bool)
    requires Blank(w, ws)
    ensures TrimStart(w + t, ws) == TrimStart(t, ws)
    decreases |w|
  {
    if w != [] {
      assert (w + t)[0] == w[0];
      assert (w + t)[1..] == w[1..] + t;
      assert Blank(w[1..], ws) by {
        forall i | 0 <= i < |w[1..]| ensures ws(w[1..][i]) {
          assert w[1..][i] == w[i + 1];
        }
      }
      TrimStartBlankPrefix(w[1..], t, ws);
    } else {
      assert w + t == t;
    }
  }

  /** Whitespace after a string is all trimmed away by `TrimEnd`. */
  lemma {:induction false} TrimEndBlankSuffix(t: string, w: string, ws: char -> bool)
    requires Blank(w, ws)
    ensures TrimEnd(t + w, ws) == TrimEnd(t, ws)
    decreases |w|
  {
    if w != [] {
      var front := w[..|w| - 1];
      assert (t + w)[|t + w| - 1] == w[|w| - 1];
      assert (t + w)[..|t + w| - 1] == t + front;
      assert Blank(front, ws) by {
        forall i | 0 <= i < |front| ensures ws(front[i]) {
          assert front[i] == w[i];
        }
      }
      TrimEndBlankSuffix(t, front, ws);
    } else {
      assert t + w == t;
    }
  }

  lemma {:induction false} TrimStartEmptyIff(s: string, ws: char -> bool)
    ensures TrimStart(s, ws) == [] <==> Blank(s, ws)
    decreases |s|
  {
    if s != [] && ws(s[0]) {
      TrimStartEmptyIff(s[1..], ws);
      assert Blank(s, ws) <==> Blank(s[1..], ws) by {
        if Blank(s[1..], ws) {
          forall i | 0 <= i < |s| ensures ws(s[i]) {
            if i > 0 { assert s[i] == s[1..][i - 1]; }
          }
        }
      }
    }
  }

  /** A string trims to nothing exactly when every character of it is whitespace. */
  lemma TrimEmptyIff(s: string, ws: char -> bool)
    ensures Trim(s, ws) == [] <==> Blank(s, ws)
  {
    TrimStartEmptyIff(s, ws);
    var t := TrimStart(s, ws);
    if t != [] {
      TrimStartFirst(s, ws);
      TrimEndKeepsFirst(t, ws);
    }
  }

  lemma {:induction false} TrimStartFirst(s: string, ws: char -> bool)
    requires TrimStart(s, ws) != []
    ensures !ws(TrimStart(s, ws)[0])
    decreases |s|
  {
    if s != [] && ws(s[0]) {
      TrimStartFirst(s[1..], ws);
    }
  }

  lemma {:induction false} TrimEndKeepsFirst(t: string, ws: char -> bool)
    requires t != [] && !ws(t[0])
    ensures TrimEnd(t, ws) != []
    decreases |t|
  {
    if ws(t[|t| - 1]) {
      assert |t| > 1;
      TrimEndKeepsFirst(t[..|t| - 1], ws);
    }
  }

  // ---------------------------------------------------------------------------
  // Lexicographic order (Rust `String::cmp`; the model of `localeCompare`)
  // ---------------------------------------------------------------------------

  /** Negative, zero or positive as `a` sorts before, equal to or after `b`,
      comparing scalar values left to right; a proper prefix sorts first. */
  function Compare(a: string, b: string): int
    decreases |a|
  {
    if a == [] && b == [] then 0
    else if a == [] then -1
    else if b == [] then 1
    else if a[0] < b[0] then -1
    else if a[0] > b[0] then 1
    else Compare(a[1..], b[1..])
  }

  lemma {:induction false} CompareAntisymmetric(a: string, b: string)
    ensures Compare(a, b) == -Compare(b, a)
    ensures Compare(a, b) == 0 <==> a == b
    decreases |a|
  {
    if a != [] && b != [] && a[0] == b[0] {
      CompareAntisymmetric(a[1..], b[1..]);
      if a[1..] == b[1..] {
        assert a == [a[0]] + a[1..] && b == [b[0]] + b[1..];
      }
    }
  }

  lemma {:induction false} CompareTransitive(a: string, b: string, c: string)
    requires Compare(a, b) <= 0 && Compare(b, c) <= 0
    ensures Compare(a, c) <= 0
    decreases |a|
  {
    if a != [] && b != [] && c != [] && a[0] == b[0] && b[0] == c[0] {
      CompareTransitive(a[1..], b[1..], c[1..]);
    }
  }
}
