/**
 * The two pieces of JavaScript's string behaviour the services rely on:
 * `String.prototype.trim` (the question check and the completion text) and the
 * decimal rendering of a non-negative integer inside a template literal
 * (the part numbers of chunked memory files).
 */
module JsString {

  /**
   * The characters `trim` removes, as inclusive code point ranges: ECMAScript's
   * WhiteSpace (tab, vertical tab, form feed, space, no-break space, the byte
   * order mark and every other space separator) and its LineTerminator
   * characters (line feed, carriage return, line and paragraph separator).
   */
  const WhitespaceRanges: seq<(int, int)> :=
    [(0x09, 0x0D), (0x20, 0x20), (0xA0, 0xA0), (0x1680, 0x1680), (0x2000, 0x200A),
     (0x2028, 0x2029), (0x202F, 0x202F), (0x205F, 0x205F), (0x3000, 0x3000), (0xFEFF, 0xFEFF)]

  predicate InRanges(n: int, ranges: seq<(int, int)>) {
    ranges != [] && (ranges[0].0 <= n <= ranges[0].1 || InRanges(n, ranges[1..]))
  }

  predicate IsWhitespace(c: char) {
    InRanges(c as int, WhitespaceRanges)
  }

  /** A code point outside every range of the table is not whitespace. */
  lemma {:induction false} OutsideRanges(n: int, ranges: seq<(int, int)>)
    requires forall i :: 0 <= i < |ranges| ==> n < ranges[i].0 || ranges[i].1 < n
    ensures !InRanges(n, ranges)
  {
    if ranges != [] {
      OutsideRanges(n, ranges[1..]);
    }
  }

  /** Letters of the Latin alphabet are not whitespace. */
  lemma LetterNotWhitespace(c: char)
    requires 'a' <= c <= 'z' || 'A' <= c <= 'Z'
    ensures !IsWhitespace(c)
  {
    OutsideRanges(c as int, WhitespaceRanges);
  }

  predicate AllWhitespace(s: string) {
    forall k :: 0 <= k < |s| ==> IsWhitespace(s[k])
  }

  /** The end of the run of whitespace that starts at index `i` of `s`. */
  function SpaceRunFrom(s: string, i: nat): (j: nat)
    requires i <= |s|
    ensures i <= j <= |s|
    ensures forall k :: i <= k < j ==> IsWhitespace(s[k])
    ensures j < |s| ==> !IsWhitespace(s[j])
    decreases |s| - i
  {
    if i < |s| && IsWhitespace(s[i]) then SpaceRunFrom(s, i + 1) else i
  }

  /** The start of the run of whitespace that ends just before index `j`, not going below `lo`. */
  function SpaceRunBack(s: string, lo: nat, j: nat): (i: nat)
    requires lo <= j <= |s|
    ensures lo <= i <= j
    ensures forall k :: i <= k < j ==> IsWhitespace(s[k])
    ensures lo < i ==> !IsWhitespace(s[i - 1])
    decreases j - lo
  {
    if lo < j && IsWhitespace(s[j - 1]) then SpaceRunBack(s, lo, j - 1) else j
  }

  /** Where the text `trim` keeps starts. */
  function TrimLow(s: string): nat {
    SpaceRunFrom(s, 0)
  }

  /** Where the text `trim` keeps ends. */
  function TrimHigh(s: string): nat {
    SpaceRunBack(s, TrimLow(s), |s|)
  }

  /**
   * `s.trim()`: the slice of `s` between a leading and a trailing run of
   * whitespace. The result is empty exactly when `s` consists of whitespace
   * only, and otherwise begins and ends with a character that is not
   * whitespace, so nothing but whitespace was removed and all of it was.
   */
  function Trim(s: string): (r: string)
    ensures TrimLow(s) <= TrimHigh(s) <= |s| && r == s[TrimLow(s)..TrimHigh(s)]
    ensures forall k :: 0 <= k < TrimLow(s) ==> IsWhitespace(s[k])
    ensures forall k :: TrimHigh(s) <= k < |s| ==> IsWhitespace(s[k])
    ensures r == [] <==> AllWhitespace(s)
    ensures r != [] ==> !IsWhitespace(r[0]) && !IsWhitespace(r[|r| - 1])
  {
    var lo := TrimLow(s);
    var hi := TrimHigh(s);
    if lo < hi then
      assert s[lo..hi][0] == s[lo] && s[lo..hi][hi - lo - 1] == s[hi - 1];
      s[lo..hi]
    else
      s[lo..hi]
  }

  /** Trimming twice removes nothing more. */
  lemma TrimIdempotent(s: string)
    ensures Trim(Trim(s)) == Trim(s)
  {
    var r := Trim(s);
    if r != [] {
      assert TrimLow(r) == 0;
      assert TrimHigh(r) == |r|;
      assert r[0..|r|] == r;
    }
  }

  function Digit(d: nat): (c: char)
    requires d < 10
    ensures '0' <= c <= '9' && c as int - '0' as int == d
  {
    (('0' as int) + d) as char
  }

  function DigitValue(c: char): int {
    c as int - '0' as int
  }

  /** `${n}` for a non-negative integer: its decimal digits, with no leading zero. */
  function Decimal(n: nat): (r: string)
    ensures |r| >= 1
    ensures forall k :: 0 <= k < |r| ==> '0' <= r[k] <= '9'
    ensures r[0] == '0' ==> n == 0
    ensures n >= 10 ==> |r| >= 2
    ensures DigitValue(r[|r| - 1]) == n % 10
  {
    if n < 10 then [Digit(n)] else Decimal(n / 10) + [Digit(n % 10)]
  }

  /** The number a string of decimal digits denotes, most significant digit first. */
  function DigitsValue(s: string): int {
    if s == [] then 0 else 10 * DigitsValue(s[..|s| - 1]) + DigitValue(s[|s| - 1])
  }

  /** The digits of `${n}` denote `n`. */
  lemma {:induction false} DecimalDenotes(n: nat)
    ensures DigitsValue(Decimal(n)) == n
  {
    var s := Decimal(n);
    if n < 10 {
      assert s[..0] == [];
    } else {
      assert s[..|s| - 1] == Decimal(n / 10);
      DecimalDenotes(n / 10);
    }
  }

  /** Different numbers render differently, so the names built from them differ too. */
  lemma {:induction false} DecimalInjective(a: nat, b: nat)
    requires Decimal(a) == Decimal(b)
    ensures a == b
  {
    var s := Decimal(a);
    assert a % 10 == b % 10;
    if a >= 10 && b >= 10 {
      assert Decimal(a / 10) == s[..|s| - 1] == Decimal(b / 10);
      DecimalInjective(a / 10, b / 10);
    }
  }
}
