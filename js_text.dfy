/**
 * The JavaScript string behaviour the server relies on: the `\s` class of
 * regular expressions, `String.prototype.trim`, `Array.prototype.join` as a
 * template literal renders an array, and `Number.prototype.toString` for
 * non-negative integers.
 */
module JsText {
  import opened Wrappers

  /**
   * A character that `\s` matches in an ECMAScript regular expression; it is
   * also the set `String.prototype.trim` strips (white space and line
   * terminators).
   */
  predicate IsSpace(c: char) {
    c == '\t' || c == '\n' || c == '\U{B}' || c == '\U{C}' || c == '\r' || c == ' '
    || c == '\U{A0}' || c == '\U{1680}' || ('\U{2000}' <= c <= '\U{200A}')
    || c == '\U{2028}' || c == '\U{2029}' || c == '\U{202F}' || c == '\U{205F}'
    || c == '\U{3000}' || c == '\U{FEFF}'
  }

  predicate AllSpace(s: string) {
    forall i :: 0 <= i < |s| ==> IsSpace(s[i])
  }

  /** JavaScript truthiness of a string: only the empty string is falsy. */
  predicate Truthy(s: string) {
    s != ""
  }

  /**
   * An optional string that is present and truthy: what `if (!x)` and
   * Mongoose's `required` check accept.
   */
  predicate PresentString(v: Option<string>) {
    v.Some? && v.value != ""
  }

  /**
   * The end of the run of white space that starts at `lo`: where
   * `trimStart` cuts.
   */
  function LeadingSpaceEnd(s: string, lo: nat): (i: nat)
    requires lo <= |s|
    ensures lo <= i <= |s|
    ensures forall k :: lo <= k < i ==> IsSpace(s[k])
    ensures i == |s| || !IsSpace(s[i])
    decreases |s| - lo
  {
    if lo < |s| && IsSpace(s[lo]) then LeadingSpaceEnd(s, lo + 1) else lo
  }

  /**
   * The start of the run of white space that ends at `hi`, not going below
   * `lo`: where `trimEnd` cuts.
   */
  function TrailingSpaceStart(s: string, lo: nat, hi: nat): (j: nat)
    requires lo <= hi <= |s|
    ensures lo <= j <= hi
    ensures forall k :: j <= k < hi ==> IsSpace(s[k])
    ensures j == lo || !IsSpace(s[j - 1])
    decreases hi
  {
    if lo < hi && IsSpace(s[hi - 1]) then TrailingSpaceStart(s, lo, hi - 1) else hi
  }

  /** `r` is the slice `s[i..i + |r|]`, and everything around it is white space. */
  predicate StrippedAt(s: string, r: string, i: int) {
    0 <= i <= |s| - |r| && r == s[i..i + |r|]
    && (forall k :: 0 <= k < i ==> IsSpace(s[k]))
    && (forall k :: i + |r| <= k < |s| ==> IsSpace(s[k]))
  }

  /**
   * `s.trim()`: the slice of `s` that remains once white space is dropped
   * from both ends. It is empty exactly when `s` is all white space, and
   * otherwise begins and ends with a character that is not white space.
   */
  function Trim(s: string): (r: string)
    ensures exists i :: StrippedAt(s, r, i)
    ensures r == [] || (!IsSpace(r[0]) && !IsSpace(r[|r| - 1]))
    ensures r == [] <==> AllSpace(s)
  {
    var i := LeadingSpaceEnd(s, 0);
    var j := TrailingSpaceStart(s, i, |s|);
    assert StrippedAt(s, s[i..j], i);
    s[i..j]
  }

  /** Trimming is idempotent: a trimmed string has nothing left to strip. */
  lemma TrimIdempotent(s: string)
    ensures Trim(Trim(s)) == Trim(s)
  {
    var r := Trim(s);
    assert LeadingSpaceEnd(r, 0) == 0;
    assert TrailingSpaceStart(r, 0, |r|) == |r|;
    assert r[0..|r|] == r;
  }

  /** `xs.join(sep)`; a template literal renders an array as `xs.join(",")`. */
  function Join(xs: seq<string>, sep: string): string {
    if |xs| == 0 then ""
    else if |xs| == 1 then xs[0]
    else xs[0] + sep + Join(xs[1..], sep)
  }

  predicate IsDigit(c: char) {
    '0' <= c <= '9'
  }

  predicate AllDigits(s: string) {
    forall i :: 0 <= i < |s| ==> IsDigit(s[i])
  }

  function DigitChar(d: nat): (c: char)
    requires d < 10
    ensures IsDigit(c) && (c as int) - ('0' as int) == d
  {
    "0123456789"[d]
  }

  /** `n.toString()` for a non-negative integer: its decimal digits, no leading zero. */
  function DecimalString(n: nat): (r: string)
    ensures |r| > 0 && AllDigits(r)
    ensures r[0] == '0' <==> n == 0
  {
    if n < 10 then [DigitChar(n)] else DecimalString(n / 10) + [DigitChar(n % 10)]
  }

  /** The number a string of decimal digits denotes. */
  function DecimalValue(s: string): nat
    requires AllDigits(s)
  {
    if s == [] then 0
    else DecimalValue(s[..|s| - 1]) * 10 + ((s[|s| - 1] as int) - ('0' as int))
  }

  /** Reading back the digits `toString` wrote gives the number again. */
  lemma {:induction false} DecimalRoundTrip(n: nat)
    ensures DecimalValue(DecimalString(n)) == n
  {
    var r := DecimalString(n);
    if n >= 10 {
      DecimalRoundTrip(n / 10);
      assert r[..|r| - 1] == DecimalString(n / 10);
    }
  }

  /** A number has `k` decimal digits exactly when it lies in [10^(k-1), 10^k). */
  lemma {:induction false} DecimalLength(n: nat, k: nat)
    requires 0 < k
    requires n < Pow10(k) && (k == 1 || Pow10(k - 1) <= n)
    ensures |DecimalString(n)| == k
  {
    if n >= 10 {
      assert Pow10(1) == 10;
      DecimalLength(n / 10, k - 1);
    }
  }

  function Pow10(k: nat): (p: nat)
    ensures p > 0
  {
    if k == 0 then 1 else 10 * Pow10(k - 1)
  }
}
