/**
 * The JavaScript string and number-to-string operations the services rely on:
 * `slice` index normalisation, `padStart`, `repeat`, `Number.prototype.toString`
 * for integers, `parseInt` of a run of decimal digits, ASCII case mapping and
 * the regular-expression character classes `[A-Z]`, `[a-z]` and `\d`.
 */
module JsText {
  import opened Wrappers

  predicate IsDigit(c: char) { '0' <= c <= '9' }
  predicate IsUpper(c: char) { 'A' <= c <= 'Z' }
  predicate IsLower(c: char) { 'a' <= c <= 'z' }

  predicate AllDigits(s: string) { forall i | 0 <= i < |s| :: IsDigit(s[i]) }
  predicate AllUpper(s: string) { forall i | 0 <= i < |s| :: IsUpper(s[i]) }

  /** `toLowerCase` / `toUpperCase` restricted to ASCII letters. */
  function LowerChar(c: char): (r: char) { if IsUpper(c) then (c as int + 32) as char else c }
  function UpperChar(c: char): (r: char) { if IsLower(c) then (c as int - 32) as char else c }

  function ToLower(s: string): (r: string)
    ensures |r| == |s|
  {
    seq(|s|, i requires 0 <= i < |s| => LowerChar(s[i]))
  }

  function ToUpper(s: string): (r: string)
    ensures |r| == |s|
  {
    seq(|s|, i requires 0 <= i < |s| => UpperChar(s[i]))
  }

  /** How `slice` turns a (possibly negative) argument into a position in 0..len. */
  function ClampIndex(k: int, len: nat): (r: nat)
    ensures r <= len
  {
    if k < 0 then (if len + k < 0 then 0 else len + k)
    else if k > len then len
    else k
  }

  /** `s.slice(start, end)`. */
  function Slice<T>(s: seq<T>, start: int, end: int): (r: seq<T>) {
    var a := ClampIndex(start, |s|);
    var b := ClampIndex(end, |s|);
    if a < b then s[a..b] else []
  }

  /** `s.slice(start)`. */
  function SliceFrom<T>(s: seq<T>, start: int): (r: seq<T>) {
    Slice(s, start, |s|)
  }

  /** `c.repeat(n)`. */
  function Repeat(c: char, n: nat): (r: string)
    ensures |r| == n
    ensures forall i | 0 <= i < n :: r[i] == c
  {
    seq(n, _ => c)
  }

  /** `s.padStart(width, c)` for a one-character fill. */
  function PadStart(s: string, width: int, c: char): (r: string)
    ensures |r| == if width <= |s| then |s| else width
    ensures r[|r| - |s|..] == s
    ensures forall i | 0 <= i < |r| - |s| :: r[i] == c
  {
    if width <= |s| then s else Repeat(c, width - |s|) + s
  }

  function DigitChar(d: nat): (r: char)
    requires d < 10
  {
    ('0' as int + d) as char
  }

  function DigitValue(c: char): (r: nat)
    requires IsDigit(c)
  {
    c as int - '0' as int
  }

  /** `n.toString()` for a non-negative integer: decimal digits, no leading zero. */
  function NatToString(n: nat): (r: string)
    ensures |r| >= 1 && AllDigits(r)
    ensures |r| == 1 <==> n < 10
    ensures r[0] == '0' <==> n == 0
    decreases n
  {
    if n < 10 then [DigitChar(n)] else NatToString(n / 10) + [DigitChar(n % 10)]
  }

  /** `i.toString()` for any integer. */
  function IntToString(i: int): (r: string) {
    if i < 0 then "-" + NatToString(-i) else NatToString(i)
  }

  /** `parseInt(s, 10)` of a non-empty run of decimal digits. */
  function DigitsValue(s: string): (r: nat)
    requires AllDigits(s)
  {
    if s == [] then 0 else DigitsValue(s[..|s| - 1]) * 10 + DigitValue(s[|s| - 1])
  }

  /** Printing a number and parsing it back gives the number. */
  lemma {:induction false} NatToStringRoundTrip(n: nat)
    ensures DigitsValue(NatToString(n)) == n
    decreases n
  {
    if n >= 10 {
      var s := NatToString(n / 10);
      assert NatToString(n) == s + [DigitChar(n % 10)];
      assert (s + [DigitChar(n % 10)])[..|s|] == s;
      NatToStringRoundTrip(n / 10);
    }
  }

  lemma {:induction false} DigitsValueOfZeros(k: nat)
    ensures AllDigits(Repeat('0', k)) && DigitsValue(Repeat('0', k)) == 0
  {
    if k > 0 {
      assert Repeat('0', k)[..k - 1] == Repeat('0', k - 1);
      DigitsValueOfZeros(k - 1);
    }
  }

  /** Leading zeros do not change what `parseInt` reads. */
  lemma {:induction false} DigitsValueLeadingZeros(k: nat, s: string)
    requires AllDigits(s)
    ensures AllDigits(Repeat('0', k) + s)
    ensures DigitsValue(Repeat('0', k) + s) == DigitsValue(s)
    decreases |s|
  {
    if s == [] {
      assert Repeat('0', k) + s == Repeat('0', k);
      DigitsValueOfZeros(k);
    } else {
      var z := Repeat('0', k);
      assert (z + s)[..|z + s| - 1] == z + s[..|s| - 1];
      DigitsValueLeadingZeros(k, s[..|s| - 1]);
    }
  }

  /** A number padded with zeros to `width` digits still parses back to itself. */
  lemma PaddedRoundTrip(n: nat, width: int)
    ensures AllDigits(PadStart(NatToString(n), width, '0'))
    ensures DigitsValue(PadStart(NatToString(n), width, '0')) == n
  {
    var s := NatToString(n);
    NatToStringRoundTrip(n);
    if width > |s| {
      assert PadStart(s, width, '0') == Repeat('0', width - |s|) + s;
      DigitsValueLeadingZeros(width - |s|, s);
    }
  }

  function Pow10(k: nat): (r: nat)
    ensures r >= 1
  {
    if k == 0 then 1 else 10 * Pow10(k - 1)
  }

  /** A number below 10^k prints in at most k digits, and one of at least 10^(k-1) in at least k. */
  lemma {:induction false} NatToStringLength(n: nat, k: nat)
    requires k >= 1
    ensures n < Pow10(k) ==> |NatToString(n)| <= k
    ensures Pow10(k - 1) <= n ==> |NatToString(n)| >= k
    decreases k
  {
    if n >= 10 && k >= 2 {
      NatToStringLength(n / 10, k - 1);
      assert |NatToString(n)| == |NatToString(n / 10)| + 1;
      assert n < Pow10(k) ==> n / 10 < Pow10(k - 1);
      assert Pow10(k - 1) <= n ==> Pow10(k - 2) <= n / 10;
    }
  }

  /** `s.includes(needle)`. */
  predicate Contains(hay: string, needle: string)
    decreases |hay|
  {
    if |needle| > |hay| then false
    else hay[..|needle|] == needle || (hay != [] && Contains(hay[1..], needle))
  }

  /** Position of the first occurrence of `c`, as `indexOf` (None for -1). */
  function IndexOfChar(s: string, c: char): (r: Option<nat>)
    ensures r.Some? ==> r.value < |s| && s[r.value] == c && c !in s[..r.value]
    ensures r.None? ==> c !in s
  {
    if s == [] then None
    else if s[0] == c then Some(0)
    else match IndexOfChar(s[1..], c)
      case None => None
      case Some(i) => assert s[1..][..i] == s[1..i + 1]; Some(i + 1)
  }

  /** `Math.ceil(a / b)` for a count `a` and a positive divisor. */
  function CeilDiv(a: nat, b: int): (r: nat)
    requires b >= 1
    ensures (r - 1) * b < a <= r * b
  {
    (a + b - 1) / b
  }
}
