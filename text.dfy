/** String operations the core relies on, written out with the semantics of
    Ruby's `downcase`, `strip`, `include?`, `[0, n]` and `join`, and of the
    decimal rendering and parsing of integer ids. */
module Text {
  import opened Wrappers

  // ---------------------------------------------------------------------
  // Case and whitespace
  // ---------------------------------------------------------------------

  /** Lower-casing of one character (ASCII letters only). */
  function Lower(c: char): (r: char)
    ensures 'A' <= c <= 'Z' ==> r as int == c as int + 32
    ensures !('A' <= c <= 'Z') ==> r == c
  {
    if 'A' <= c <= 'Z' then (c as int + 32) as char else c
  }

  /** `String#downcase`: every character lower-cased, length kept. */
  function Downcase(s: string): (r: string)
    ensures |r| == |s|
    ensures forall i :: 0 <= i < |s| ==> r[i] == Lower(s[i])
  {
    seq(|s|, i requires 0 <= i < |s| => Lower(s[i]))
  }

  /** The characters Ruby's `strip` removes: NUL, tab, line feed, vertical
      tab, form feed, carriage return and space. */
  predicate IsSpace(c: char) {
    c == '\0' || c == '\t' || c == '\n' || c == '\U{0B}' || c == '\U{0C}' || c == '\r' || c == ' '
  }

  predicate AllSpace(s: string) {
    forall i :: 0 <= i < |s| ==> IsSpace(s[i])
  }

  /** How many whitespace characters `s` starts with. */
  function LeadingSpaces(s: string): (k: nat)
    ensures k <= |s|
    ensures forall i :: 0 <= i < k ==> IsSpace(s[i])
    ensures k == |s| || !IsSpace(s[k])
  {
    if |s| > 0 && IsSpace(s[0]) then
      var k := 1 + LeadingSpaces(s[1..]);
      assert forall i :: 1 <= i < k ==> s[i] == s[1..][i - 1];
      k
    else 0
  }

  /** How many whitespace characters `s` ends with. */
  function TrailingSpaces(s: string): (k: nat)
    ensures k <= |s|
    ensures forall i :: |s| - k <= i < |s| ==> IsSpace(s[i])
    ensures k == |s| || !IsSpace(s[|s| - k - 1])
  {
    if |s| > 0 && IsSpace(s[|s| - 1]) then
      var k := 1 + TrailingSpaces(s[..|s| - 1]);
      assert forall i :: |s| - k <= i < |s| - 1 ==> s[i] == s[..|s| - 1][i];
      k
    else 0
  }

  /** Leading whitespace removed. */
  function TrimLeft(s: string): string {
    s[LeadingSpaces(s)..]
  }

  /** Trailing whitespace removed. */
  function TrimRight(s: string): string {
    s[..|s| - TrailingSpaces(s)]
  }

  /** `String#strip`. */
  function Strip(s: string): string {
    TrimRight(TrimLeft(s))
  }

  /** `LeadingSpaces` is the one count whose prefix is whitespace and that
      stops at a non-space or the end. */
  lemma LeadingSpacesUnique(s: string, k: nat)
    requires k <= |s| && (forall i :: 0 <= i < k ==> IsSpace(s[i])) && (k == |s| || !IsSpace(s[k]))
    ensures LeadingSpaces(s) == k
  {
  }

  /** `TrailingSpaces` is the one count whose suffix is whitespace and that
      stops at a non-space or the start. */
  lemma TrailingSpacesUnique(s: string, k: nat)
    requires k <= |s| && (forall i :: |s| - k <= i < |s| ==> IsSpace(s[i])) && (k == |s| || !IsSpace(s[|s| - k - 1]))
    ensures TrailingSpaces(s) == k
  {
  }

  lemma TrimLeftOfSpace(p: string, x: string)
    requires AllSpace(p)
    ensures TrimLeft(p + x) == TrimLeft(x)
  {
    var k := LeadingSpaces(x);
    assert forall i :: |p| <= i < |p| + k ==> (p + x)[i] == x[i - |p|];
    LeadingSpacesUnique(p + x, |p| + k);
    assert (p + x)[|p| + k..] == x[k..];
  }

  lemma TrimRightOfSpace(x: string, q: string)
    requires AllSpace(q)
    ensures TrimRight(x + q) == TrimRight(x)
  {
    var k := TrailingSpaces(x);
    assert forall i :: |x| - k <= i < |x| ==> (x + q)[i] == x[i];
    TrailingSpacesUnique(x + q, k + |q|);
    assert (x + q)[..|x| - k] == x[..|x| - k];
  }

  lemma StripOfSpaceSuffix(x: string, q: string)
    requires AllSpace(q)
    ensures Strip(x + q) == Strip(x)
  {
    var k := LeadingSpaces(x);
    if k == |x| {
      LeadingSpacesUnique(x + q, |x + q|);
      assert TrimLeft(x + q) == [] && TrimLeft(x) == [];
    } else {
      LeadingSpacesUnique(x + q, k);
      assert TrimLeft(x + q) == x[k..] + q;
      TrimRightOfSpace(x[k..], q);
    }
  }

  /** Whitespace around a string does not change what `strip` returns. */
  lemma StripPadded(p: string, x: string, q: string)
    requires AllSpace(p) && AllSpace(q)
    ensures Strip(p + x + q) == Strip(x)
  {
    assert p + x + q == p + (x + q);
    TrimLeftOfSpace(p, x + q);
    assert Strip(p + x + q) == Strip(x + q);
    StripOfSpaceSuffix(x, q);
  }

  /** Ruby's `to_s.downcase.strip`, the normal form of a description. */
  function Normalize(s: string): string {
    Strip(Downcase(s))
  }

  lemma DowncaseConcat(a: string, b: string)
    ensures Downcase(a + b) == Downcase(a) + Downcase(b)
  {
  }

  lemma DowncaseOfSpace(p: string)
    requires AllSpace(p)
    ensures Downcase(p) == p
  {
  }

  /** Changing the letter case of a string, or the whitespace around it,
      leaves its normal form unchanged. */
  lemma NormalizePadded(p: string, x: string, y: string, q: string)
    requires AllSpace(p) && AllSpace(q)
    requires Downcase(x) == Downcase(y)
    ensures Normalize(p + x + q) == Normalize(y)
  {
    DowncaseConcat(p + x, q);
    DowncaseConcat(p, x);
    DowncaseOfSpace(p);
    DowncaseOfSpace(q);
    StripPadded(p, Downcase(x), q);
  }

  // ---------------------------------------------------------------------
  // Substrings
  // ---------------------------------------------------------------------

  predicate IsPrefix(needle: string, hay: string) {
    |needle| <= |hay| && hay[..|needle|] == needle
  }

  /** `hay.include?(needle)`, searched left to right. */
  predicate Contains(hay: string, needle: string)
    decreases |hay|
  {
    IsPrefix(needle, hay) || (|hay| > 0 && Contains(hay[1..], needle))
  }

  /** `needle` occurs in `hay` starting at offset `i`. */
  predicate OccursAt(hay: string, needle: string, i: int) {
    0 <= i <= |hay| - |needle| && hay[i..i + |needle|] == needle
  }

  /** `Contains` holds exactly when `needle` occurs at some offset of `hay`. */
  lemma {:induction false} ContainsIff(hay: string, needle: string)
    ensures Contains(hay, needle) <==> exists i :: OccursAt(hay, needle, i)
    decreases |hay|
  {
    if IsPrefix(needle, hay) {
      assert OccursAt(hay, needle, 0);
    } else if |hay| > 0 {
      ContainsIff(hay[1..], needle);
      if exists i :: OccursAt(hay, needle, i) {
        var i :| OccursAt(hay, needle, i);
        assert i != 0;
        assert OccursAt(hay[1..], needle, i - 1);
      }
      if Contains(hay[1..], needle) {
        var j :| OccursAt(hay[1..], needle, j);
        assert OccursAt(hay, needle, j + 1);
      }
    } else {
    }
  }

  /** `s[0, n]`: the first `n` characters, or all of `s` when it is shorter. */
  function Take(s: string, n: nat): (r: string)
    ensures |r| == if |s| < n then |s| else n
    ensures IsPrefix(r, s)
  {
    if |s| <= n then s else s[..n]
  }

  // ---------------------------------------------------------------------
  // Joining lines
  // ---------------------------------------------------------------------

  /** `parts.join(sep)`. */
  function Join(parts: seq<string>, sep: string): string
    decreases |parts|
  {
    if |parts| == 0 then ""
    else if |parts| == 1 then parts[0]
    else parts[0] + sep + Join(parts[1..], sep)
  }

  /** Part `i` of a join sits between the earlier parts, joined and followed
      by one separator, and the later parts, joined and preceded by one. */
  lemma {:induction false} JoinAround(parts: seq<string>, sep: string, i: nat)
    requires i < |parts|
    ensures Join(parts, sep) ==
      (if i == 0 then "" else Join(parts[..i], sep) + sep) + parts[i] +
      (if i + 1 == |parts| then "" else sep + Join(parts[i + 1..], sep))
    decreases i
  {
    if i == 0 {
      if |parts| > 1 {
        assert parts[1..] == parts[i + 1..];
      }
    } else {
      var tail := parts[1..];
      JoinAround(tail, sep, i - 1);
      assert tail[i - 1] == parts[i];
      assert tail[i..] == parts[i + 1..];
      var after := if i + 1 == |parts| then "" else sep + Join(parts[i + 1..], sep);
      var before := if i == 1 then "" else Join(tail[..i - 1], sep) + sep;
      JoinPrefixStep(parts, sep, i);
      Regroup(parts[0], sep, before, parts[i], after);
    }
  }

  /** The first `i` parts, joined and followed by a separator, start with
      the first part and a separator. */
  lemma JoinPrefixStep(parts: seq<string>, sep: string, i: nat)
    requires 0 < i < |parts|
    ensures Join(parts[..i], sep) + sep ==
      parts[0] + sep + (if i == 1 then "" else Join(parts[1..][..i - 1], sep) + sep)
  {
    assert parts[..i][1..] == parts[1..][..i - 1];
  }

  lemma Regroup(a: string, b: string, c: string, d: string, e: string)
    ensures a + b + (c + d + e) == (a + b + c) + d + e
  {
  }

  // ---------------------------------------------------------------------
  // Decimal numbers
  // ---------------------------------------------------------------------

  predicate IsDigit(c: char) {
    '0' <= c <= '9'
  }

  function DigitChar(d: nat): (c: char)
    requires d < 10
    ensures IsDigit(c)
  {
    ('0' as int + d) as char
  }

  /** `String(n)` / `n.to_s` for a non-negative integer. */
  function NatToString(n: nat): (s: string)
    ensures |s| > 0
    ensures forall i :: 0 <= i < |s| ==> IsDigit(s[i])
    decreases n
  {
    if n < 10 then [DigitChar(n)] else NatToString(n / 10) + [DigitChar(n % 10)]
  }

  function DigitValue(c: char): (d: nat)
    requires IsDigit(c)
    ensures d < 10
  {
    c as int - '0' as int
  }

  /** The value of a string of decimal digits, read most significant first. */
  function DigitsValue(s: string): nat
    requires forall i :: 0 <= i < |s| ==> IsDigit(s[i])
    decreases |s|
  {
    if |s| == 0 then 0
    else 10 * DigitsValue(s[..|s| - 1]) + DigitValue(s[|s| - 1])
  }

  /** The longest prefix of `s` made of decimal digits. */
  function LeadingDigits(s: string): (r: string)
    ensures IsPrefix(r, s)
    ensures forall i :: 0 <= i < |r| ==> IsDigit(r[i])
    ensures |r| == |s| || !IsDigit(s[|r|])
    decreases |s|
  {
    if |s| > 0 && IsDigit(s[0]) then [s[0]] + LeadingDigits(s[1..]) else ""
  }

  /** JavaScript's `parseInt(s, 10)` on a string that starts with a digit:
      the value of its leading digits; `None` (NaN) when it starts with
      anything else. */
  function ParseDecimal(s: string): Option<nat> {
    var d := LeadingDigits(s);
    if |d| == 0 then None else Some(DigitsValue(d))
  }

  lemma {:induction false} LeadingDigitsOfDigits(s: string)
    requires forall i :: 0 <= i < |s| ==> IsDigit(s[i])
    ensures LeadingDigits(s) == s
  {
    if |s| > 0 {
      LeadingDigitsOfDigits(s[1..]);
    }
  }

  lemma {:induction false} DigitsValueOfNatToString(n: nat)
    ensures DigitsValue(NatToString(n)) == n
    decreases n
  {
    var s := NatToString(n);
    if n >= 10 {
      DigitsValueOfNatToString(n / 10);
      assert s[..|s| - 1] == NatToString(n / 10);
    }
  }

  /** Reading back the decimal rendering of an id gives the id. */
  lemma ParseNatToString(n: nat)
    ensures ParseDecimal(NatToString(n)) == Some(n)
  {
    LeadingDigitsOfDigits(NatToString(n));
    DigitsValueOfNatToString(n);
  }

  /** Distinct ids have distinct decimal renderings. */
  lemma NatToStringInjective(m: nat, n: nat)
    ensures NatToString(m) == NatToString(n) ==> m == n
  {
    ParseNatToString(m);
    ParseNatToString(n);
  }
}
