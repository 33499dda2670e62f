/** String helpers shared by the server and the browser code: substring
    search (Python `in`, JavaScript `includes`) and decimal rendering. */
module Strings {

  /** `n` is a prefix of `h`. */
  predicate IsPrefix(n: string, h: string) {
    |n| <= |h| && h[..|n|] == n
  }

  /** `n` occurs in `h` at position `i`. */
  predicate OccursAt(n: string, h: string, i: int) {
    0 <= i && i + |n| <= |h| && h[i..i + |n|] == n
  }

  /** `n` occurs in `h` as a contiguous block; the empty string occurs everywhere. */
  function IsSubstring(n: string, h: string): (r: bool)
    ensures r <==> exists i :: OccursAt(n, h, i)
    decreases |h|
  {
    if IsPrefix(n, h) then
      assert OccursAt(n, h, 0);
      true
    else if |h| == 0 then
      false
    else
      var rest := IsSubstring(n, h[1..]);
      if rest then
        var i :| OccursAt(n, h[1..], i);
        assert h[i + 1..i + 1 + |n|] == h[1..][i..i + |n|];
        assert OccursAt(n, h, i + 1);
        true
      else
        assert forall i :: OccursAt(n, h, i) ==> i == 0 || OccursAt(n, h[1..], i - 1) by {
          forall i | OccursAt(n, h, i) && i > 0 ensures OccursAt(n, h[1..], i - 1) {
            assert h[1..][i - 1..i - 1 + |n|] == h[i..i + |n|];
          }
        }
        false
  }

  predicate IsDigit(c: char) { '0' <= c <= '9' }

  function DigitChar(d: nat): (c: char)
    requires d < 10
    ensures IsDigit(c)
  {
    "0123456789"[d]
  }

  function DigitValue(c: char): (d: nat)
    requires IsDigit(c)
    ensures d < 10 && DigitChar(d) == c
  {
    (c as int - '0' as int) as nat
  }

  /** Decimal digits of `n`, most significant first, without leading zeros. */
  function NatToString(n: nat): (s: string)
    ensures |s| > 0 && forall i :: 0 <= i < |s| ==> IsDigit(s[i])
    ensures |s| > 1 ==> s[0] != '0'
  {
    if n < 10 then [DigitChar(n)] else NatToString(n / 10) + [DigitChar(n % 10)]
  }

  /** JavaScript's rendering of an integer inside a template literal. */
  function IntToString(n: int): string {
    if n < 0 then "-" + NatToString(-n) else NatToString(n)
  }

  /** The value of a string of decimal digits. */
  function ParseDigits(s: string): (n: nat)
    requires forall i :: 0 <= i < |s| ==> IsDigit(s[i])
  {
    if |s| == 0 then 0 else 10 * ParseDigits(s[..|s| - 1]) + DigitValue(s[|s| - 1])
  }

  lemma {:induction false} ParseNatToString(n: nat)
    ensures ParseDigits(NatToString(n)) == n
  {
    if n >= 10 {
      var s := NatToString(n);
      assert s[..|s| - 1] == NatToString(n / 10);
      ParseNatToString(n / 10);
    }
  }
}
