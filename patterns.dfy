/** The string tests and regular expressions the engine applies to raw
    invoice text (src/memoryEngine.ts), written out as scanners. A scanner
    for a pattern finds the leftmost position at which the pattern
    matches, as JavaScript's String.prototype.match does without the g flag. */
module Patterns {
  import opened Models

  /** The end of the longest run of characters satisfying p that starts at i
      (a greedy `[...]*`). */
  function SpanEnd(s: string, i: nat, p: char -> bool): (k: nat)
    requires i <= |s|
    ensures i <= k <= |s|
    decreases |s| - i
  {
    if i == |s| || !p(s[i]) then i else SpanEnd(s, i + 1, p)
  }

  /** The run is as long as it can be: every character in it satisfies p
      and the one after it, if any, does not. */
  lemma {:induction false} SpanEndRun(s: string, i: nat, p: char -> bool)
    requires i <= |s|
    ensures var k := SpanEnd(s, i, p);
            (forall t :: i <= t < k ==> p(s[t])) && (k < |s| ==> !p(s[k]))
    decreases |s| - i
  {
    if !(i == |s| || !p(s[i])) {
      SpanEndRun(s, i + 1, p);
    }
  }

  /** part occurs in s at position i. */
  predicate OccursAt(s: string, part: string, i: nat) {
    i + |part| <= |s| && s[i..i + |part|] == part
  }

  /** part occurs in s at i or later; the scan `s.includes(part)` makes. */
  predicate ContainsFrom(s: string, part: string, i: nat)
    requires i <= |s|
    decreases |s| - i
  {
    OccursAt(s, part, i) || (i < |s| && ContainsFrom(s, part, i + 1))
  }

  /** `s.includes(part)` */
  predicate Contains(s: string, part: string) {
    ContainsFrom(s, part, 0)
  }

  /** The scan from i succeeds exactly when part occurs at some position from i on. */
  lemma {:induction false} ContainsFromMeans(s: string, part: string, i: nat)
    requires i <= |s|
    ensures ContainsFrom(s, part, i) <==> exists k: nat | i <= k <= |s| :: OccursAt(s, part, k)
    decreases |s| - i
  {
    if i < |s| {
      ContainsFromMeans(s, part, i + 1);
    }
  }

  /** `s.includes(part)` holds exactly when part occurs somewhere in s. */
  lemma ContainsMeans(s: string, part: string)
    ensures Contains(s, part) <==> exists k: nat | k <= |s| :: OccursAt(s, part, k)
  {
    ContainsFromMeans(s, part, 0);
  }

  /** `\d` */
  predicate IsDigit(c: char) { '0' <= c <= '9' }

  /** `[0-9.]` */
  predicate IsDateChar(c: char) { IsDigit(c) || c == '.' }

  /** `\s`: the white space and line terminator characters of ECMAScript. */
  predicate IsSpace(c: char) {
    || c == ' ' || c == '\t' || c == '\n' || c == '\U{B}' || c == '\U{C}' || c == '\r'
    || c == '\U{A0}' || c == '\U{1680}' || ('\U{2000}' <= c <= '\U{200A}')
    || c == '\U{2028}' || c == '\U{2029}' || c == '\U{202F}' || c == '\U{205F}'
    || c == '\U{3000}' || c == '\U{FEFF}'
  }

  /** The characters `.` does not match. */
  predicate IsLineTerminator(c: char) {
    c == '\n' || c == '\r' || c == '\U{2028}' || c == '\U{2029}'
  }

  /** `\w`, whose edges `\b` detects. */
  predicate IsWordChar(c: char) {
    ('a' <= c <= 'z') || ('A' <= c <= 'Z') || IsDigit(c) || c == '_'
  }

  function LowerAscii(c: char): char {
    if 'A' <= c <= 'Z' then (c as int + 32) as char else c
  }

  /** Lower-casing of the ASCII letters. For the keyword tests below this
      agrees with toLowerCase: the only other characters that lower-case to
      an ASCII letter are U+212A (to `k`, which no keyword contains) and
      U+0130 (to `i` followed by U+0307, which no keyword contains). */
  function Lower(s: string): string {
    seq(|s|, i requires 0 <= i < |s| => LowerAscii(s[i]))
  }

  function DigitValue(c: char): nat {
    if IsDigit(c) then c as int - '0' as int else 0
  }

  /** `Number(digits)` for a string of decimal digits. */
  function Decimal(digits: string): nat
    decreases |digits|
  {
    if digits == [] then 0
    else 10 * Decimal(digits[..|digits| - 1]) + DigitValue(digits[|digits| - 1])
  }

  // ----- /Leistungsdatum:\s*([0-9.]+)/ -----

  const LEISTUNGSDATUM: string := "Leistungsdatum:"

  /** The pattern matches at i: the label, any white space, then at least
      one date character (`\s*` gives nothing back, since no date character
      is white space). */
  predicate ServiceDateAt(s: string, i: nat) {
    && i + |LEISTUNGSDATUM| <= |s|
    && s[i..i + |LEISTUNGSDATUM|] == LEISTUNGSDATUM
    && var j := SpanEnd(s, i + |LEISTUNGSDATUM|, IsSpace);
       j < |s| && IsDateChar(s[j])
  }

  /** The captured `[0-9.]+` of a match at i. */
  function ServiceDateCapture(s: string, i: nat): string
    requires ServiceDateAt(s, i)
  {
    var j := SpanEnd(s, i + |LEISTUNGSDATUM|, IsSpace);
    s[j..SpanEnd(s, j, IsDateChar)]
  }

  /** The first position from `from` at which the pattern matches, or |s|. */
  function FirstServiceDateAt(s: string, from: nat): (k: nat)
    requires from <= |s|
    ensures from <= k <= |s|
    ensures k < |s| ==> ServiceDateAt(s, k)
    ensures forall j :: from <= j < k ==> !ServiceDateAt(s, j)
    decreases |s| - from
  {
    if from == |s| || ServiceDateAt(s, from) then from else FirstServiceDateAt(s, from + 1)
  }

  /** The capture group of the leftmost match, if the pattern matches. */
  function ServiceDateText(s: string): Option<string> {
    var i := FirstServiceDateAt(s, 0);
    if i < |s| then Some(ServiceDateCapture(s, i)) else None
  }

  /** ServiceDateText is the capture of the leftmost match, a non-empty run
      of digits and dots, and None exactly when the pattern matches nowhere. */
  lemma ServiceDateTextMatches(s: string)
    ensures ServiceDateText(s).None? <==> forall i :: 0 <= i < |s| ==> !ServiceDateAt(s, i)
    ensures ServiceDateText(s).Some? ==>
              var i := FirstServiceDateAt(s, 0);
              && ServiceDateAt(s, i) && ServiceDateText(s).value == ServiceDateCapture(s, i)
              && (forall j :: 0 <= j < i ==> !ServiceDateAt(s, j))
    ensures ServiceDateText(s).Some? ==>
              var v := ServiceDateText(s).value;
              v != [] && forall k :: 0 <= k < |v| ==> IsDateChar(v[k])
  {
    var i := FirstServiceDateAt(s, 0);
    if i < |s| {
      CaptureIsDate(s, i);
    }
  }

  /** The capture of a match is a non-empty run of digits and dots. */
  lemma CaptureIsDate(s: string, i: nat)
    requires ServiceDateAt(s, i)
    ensures var v := ServiceDateCapture(s, i);
            v != [] && forall k :: 0 <= k < |v| ==> IsDateChar(v[k])
  {
    var j := SpanEnd(s, i + |LEISTUNGSDATUM|, IsSpace);
    var e := SpanEnd(s, j, IsDateChar);
    SpanEndRun(s, j, IsDateChar);
    var v := ServiceDateCapture(s, i);
    assert v == s[j..e];
    assert j < e;
    forall k | 0 <= k < |v| ensures IsDateChar(v[k]) {
      assert v[k] == s[j + k];
    }
  }

  /** A captured service date of three parts survives the rewrite: the ISO
      form splits back into its parts, reversed, and the parts join back
      into the captured text. */
  lemma ServiceDateRoundTrip(s: string)
    requires ServiceDateText(s).Some? && |Split(ServiceDateText(s).value, '.')| == 3
    ensures var v := ServiceDateText(s).value;
            var p := Split(v, '.');
            Split(ToIsoDate(v), '-') == [p[2], p[1], p[0]] && Join([p[0], p[1], p[2]], '.') == v
  {
    ServiceDateTextMatches(s);
    DateRoundTrip(ServiceDateText(s).value);
  }

  // ----- /\b(EUR|USD|GBP)\b/ -----

  predicate IsCurrencyCode(code: string) {
    code == "EUR" || code == "USD" || code == "GBP"
  }

  /** A code starts at i with a word boundary on each side. */
  predicate CurrencyAt(s: string, i: nat) {
    && i + 3 <= |s|
    && IsCurrencyCode(s[i..i + 3])
    && (i == 0 || !IsWordChar(s[i - 1]))
    && (i + 3 == |s| || !IsWordChar(s[i + 3]))
  }

  function FirstCurrencyAt(s: string, from: nat): (k: nat)
    requires from <= |s|
    ensures from <= k <= |s|
    ensures k < |s| ==> CurrencyAt(s, k)
    ensures forall j :: from <= j < k ==> !CurrencyAt(s, j)
    decreases |s| - from
  {
    if from == |s| || CurrencyAt(s, from) then from else FirstCurrencyAt(s, from + 1)
  }

  /** The leftmost whole-word currency code in s. */
  function FindCurrency(s: string): Option<string> {
    var i := FirstCurrencyAt(s, 0);
    if i < |s| then Some(s[i..i + 3]) else None
  }

  /** FindCurrency is the leftmost whole-word code, and None exactly when
      no code stands as a whole word. */
  lemma FindCurrencyMatches(s: string)
    ensures FindCurrency(s).None? <==> forall i :: 0 <= i < |s| ==> !CurrencyAt(s, i)
    ensures FindCurrency(s).Some? ==>
              var i := FirstCurrencyAt(s, 0);
              && CurrencyAt(s, i) && FindCurrency(s).value == s[i..i + 3]
              && (forall j :: 0 <= j < i ==> !CurrencyAt(s, j))
    ensures FindCurrency(s).Some? ==> IsCurrencyCode(FindCurrency(s).value)
  {
  }

  // ----- /(\d+)%\s+Skonto.*?(\d+)\s+days?/i -----

  /** `(\d+)\s+day` matches at p (the optional `s` never decides a match).
      Each run is greedy and cannot give anything back, because the
      character after it must be of another class. */
  predicate DaysAt(s: string, p: nat) {
    && p < |s|
    && IsDigit(s[p])
    && var q := SpanEnd(s, p, IsDigit);
       var r := SpanEnd(s, q, IsSpace);
       q < r && r + 3 <= |s| && Lower(s[r..r + 3]) == "day"
  }

  /** Where the lazy `.*?` that starts at a stops: the first position at
      which the rest of the pattern matches, the first line terminator, or
      the end of s. */
  function LazyEnd(s: string, a: nat): (p: nat)
    requires a <= |s|
    ensures a <= p <= |s|
    decreases |s| - a
  {
    if a == |s| || DaysAt(s, a) || IsLineTerminator(s[a]) then a else LazyEnd(s, a + 1)
  }

  /** The lazy run stops at the first place the days part matches or a line
      ends, and crosses neither before it. */
  lemma {:induction false} LazyEndStops(s: string, a: nat)
    requires a <= |s|
    ensures var p := LazyEnd(s, a);
            && (p < |s| ==> DaysAt(s, p) || IsLineTerminator(s[p]))
            && forall t :: a <= t < p ==> !DaysAt(s, t) && !IsLineTerminator(s[t])
    decreases |s| - a
  {
    if !(a == |s| || DaysAt(s, a) || IsLineTerminator(s[a])) {
      LazyEndStops(s, a + 1);
    }
  }

  /** The whole Skonto pattern matches at i. */
  predicate SkontoAt(s: string, i: nat) {
    && i < |s|
    && IsDigit(s[i])
    && var j := SpanEnd(s, i, IsDigit);
       && j < |s| && s[j] == '%'
       && var k := SpanEnd(s, j + 1, IsSpace);
          && j + 1 < k && k + 6 <= |s| && Lower(s[k..k + 6]) == "skonto"
          && var p := LazyEnd(s, k + 6);
             p < |s| && DaysAt(s, p)
  }

  function FirstSkontoAt(s: string, from: nat): (k: nat)
    requires from <= |s|
    ensures from <= k <= |s|
    ensures k < |s| ==> SkontoAt(s, k)
    ensures forall j :: from <= j < k ==> !SkontoAt(s, j)
    decreases |s| - from
  {
    if from == |s| || SkontoAt(s, from) then from else FirstSkontoAt(s, from + 1)
  }

  /** The two capture groups of a match at i, as numbers. */
  function SkontoCapture(s: string, i: nat): (nat, nat)
    requires SkontoAt(s, i)
  {
    var j := SpanEnd(s, i, IsDigit);
    var p := LazyEnd(s, SpanEnd(s, j + 1, IsSpace) + 6);
    (Decimal(s[i..j]), Decimal(s[p..SpanEnd(s, p, IsDigit)]))
  }

  /** The captures of the leftmost match. */
  function FindSkonto(s: string): Option<(nat, nat)> {
    var i := FirstSkontoAt(s, 0);
    if i < |s| then Some(SkontoCapture(s, i)) else None
  }

  /** The captures of a match at i are the values of two non-empty digit
      runs: s[i..j], ending at the `%`, and s[p..q], where the lazy run stops. */
  lemma SkontoCaptures(s: string, i: nat)
    requires SkontoAt(s, i)
    ensures var j := SpanEnd(s, i, IsDigit);
            j < |s| &&
            var k := SpanEnd(s, j + 1, IsSpace);
            k + 6 <= |s| &&
            var p := LazyEnd(s, k + 6);
            p < |s| &&
            var q := SpanEnd(s, p, IsDigit);
            && i < j && s[j] == '%' && p < q
            && (forall t :: i <= t < j ==> IsDigit(s[t]))
            && (forall t :: p <= t < q ==> IsDigit(s[t]))
            && SkontoCapture(s, i) == (Decimal(s[i..j]), Decimal(s[p..q]))
  {
    var j := SpanEnd(s, i, IsDigit);
    SpanEndRun(s, i, IsDigit);
    var k := SpanEnd(s, j + 1, IsSpace);
    var p := LazyEnd(s, k + 6);
    SpanEndRun(s, p, IsDigit);
  }

  /** There is a Skonto match exactly when the pattern matches somewhere,
      and the result is then the captures of the leftmost match. */
  lemma FindSkontoMatches(s: string)
    ensures FindSkonto(s).None? <==> forall i :: 0 <= i < |s| ==> !SkontoAt(s, i)
    ensures FindSkonto(s).Some? ==>
              var i := FirstSkontoAt(s, 0);
              && i < |s| && SkontoAt(s, i) && (forall t :: 0 <= t < i ==> !SkontoAt(s, t))
              && FindSkonto(s).value == SkontoCapture(s, i)
  {
  }

  // ----- rawDate.split('.') and the ISO date -----

  /** `s.split(sep)` for a one-character separator. */
  function Split(s: string, sep: char): (parts: seq<string>)
    ensures |parts| >= 1
    ensures forall k :: 0 <= k < |parts| ==> sep !in parts[k]
    ensures forall k, c :: 0 <= k < |parts| && c in parts[k] ==> c in s
    decreases |s|
  {
    if s == [] then [[]]
    else
      var rest := Split(s[1..], sep);
      assert forall c :: c in s[1..] ==> c in s;
      if s[0] == sep then [[]] + rest
      else [[s[0]] + rest[0]] + rest[1..]
  }

  /** `parts.join(sep)`, the inverse of Split. */
  function Join(parts: seq<string>, sep: char): string
    decreases |parts|
  {
    if parts == [] then []
    else if |parts| == 1 then parts[0]
    else parts[0] + [sep] + Join(parts[1..], sep)
  }

  lemma {:induction false} JoinSplit(s: string, sep: char)
    ensures Join(Split(s, sep), sep) == s
    decreases |s|
  {
    if s != [] {
      var rest := Split(s[1..], sep);
      JoinSplit(s[1..], sep);
      var parts := Split(s, sep);
      if s[0] == sep {
        assert parts[1..] == rest;
        assert Join(parts, sep) == [] + [sep] + Join(rest, sep);
      } else if |rest| == 1 {
        assert parts == [[s[0]] + rest[0]];
      } else {
        assert parts[1..] == rest[1..];
        assert Join(rest, sep) == rest[0] + [sep] + Join(rest[1..], sep);
        assert Join(parts, sep) == [s[0]] + rest[0] + [sep] + Join(rest[1..], sep);
      }
    }
  }

  lemma {:induction false} SplitWithoutSeparator(a: string, sep: char)
    requires sep !in a
    ensures Split(a, sep) == [a]
    decreases |a|
  {
    if a != [] {
      SplitWithoutSeparator(a[1..], sep);
      assert [a[0]] + a[1..] == a;
    }
  }

  lemma {:induction false} SplitAtFirstSeparator(a: string, b: string, sep: char)
    requires sep !in a
    ensures Split(a + [sep] + b, sep) == [a] + Split(b, sep)
    decreases |a|
  {
    var s := a + [sep] + b;
    if a == [] {
      assert s[1..] == b;
    } else {
      assert s[1..] == a[1..] + [sep] + b;
      SplitAtFirstSeparator(a[1..], b, sep);
      assert [a[0]] + a[1..] == a;
    }
  }

  lemma {:induction false} SplitJoin(parts: seq<string>, sep: char)
    requires |parts| >= 1
    requires forall k :: 0 <= k < |parts| ==> sep !in parts[k]
    ensures Split(Join(parts, sep), sep) == parts
    decreases |parts|
  {
    if |parts| == 1 {
      SplitWithoutSeparator(parts[0], sep);
    } else {
      SplitJoin(parts[1..], sep);
      SplitAtFirstSeparator(parts[0], Join(parts[1..], sep), sep);
      assert [parts[0]] + parts[1..] == parts;
    }
  }

  /** `${yyyy}-${mm}-${dd}` for `[dd, mm, yyyy] = raw.split('.')`. */
  function ToIsoDate(raw: string): string
    requires |Split(raw, '.')| == 3
  {
    var p := Split(raw, '.');
    p[2] + "-" + p[1] + "-" + p[0]
  }

  /** The ISO date keeps all three parts: splitting it at '-' gives them
      back in reverse, and joining them with '.' gives back the captured text. */
  lemma DateRoundTrip(raw: string)
    requires |Split(raw, '.')| == 3
    requires forall k :: 0 <= k < |raw| ==> IsDateChar(raw[k])
    ensures var p := Split(raw, '.');
            Split(ToIsoDate(raw), '-') == [p[2], p[1], p[0]]
            && Join([p[0], p[1], p[2]], '.') == raw
  {
    var p := Split(raw, '.');
    assert forall i :: 0 <= i < |raw| ==> raw[i] != '-' by {
      forall i | 0 <= i < |raw| ensures raw[i] != '-' { assert IsDateChar(raw[i]); }
    }
    assert '-' !in raw;
    var q := [p[2], p[1], p[0]];
    assert Join(q, '-') == ToIsoDate(raw) by {
      assert q[1..][1..] == [p[0]];
      assert Join(q[1..], '-') == p[1] + ['-'] + p[0];
    }
    SplitJoin(q, '-');
    JoinSplit(raw, '.');
    assert p == [p[0], p[1], p[2]];
  }

  /** The freight keywords of the SKU mapping rule. */
  predicate FreightLike(description: string) {
    var lower := Lower(description);
    Contains(lower, "seefracht") || Contains(lower, "shipping") || Contains(lower, "transport")
  }
}
