/**
 * Decoding of the chain identifier an injected provider reports as a hex
 * string such as "0x89", i.e. `parseInt(chainIdHex, 16)` restricted to
 * well-formed input, and the encoding it inverts.
 */
module HexChainId {

  predicate IsHexDigit(c: char) {
    '0' <= c <= '9' || 'a' <= c <= 'f' || 'A' <= c <= 'F'
  }

  predicate AllHexDigits(ds: string) {
    forall i :: 0 <= i < |ds| ==> IsHexDigit(ds[i])
  }

  function DigitValue(c: char): (d: nat)
    requires IsHexDigit(c)
    ensures d < 16
  {
    if '0' <= c <= '9' then c as int - '0' as int
    else if 'a' <= c <= 'f' then c as int - 'a' as int + 10
    else c as int - 'A' as int + 10
  }

  /** The lower-case digit for `d`, the one providers emit. */
  function DigitChar(d: nat): (c: char)
    requires d < 16
    ensures IsHexDigit(c) && DigitValue(c) == d
    ensures !('A' <= c <= 'F')
  {
    if d < 10 then ('0' as int + d) as char else ('a' as int + d - 10) as char
  }

  function Pow16(k: nat): (p: nat)
    ensures p >= 1
  {
    if k == 0 then 1 else 16 * Pow16(k - 1)
  }

  /** With radix 16, `parseInt` skips one leading "0x" or "0X". */
  predicate HasHexPrefix(s: string) {
    |s| >= 2 && s[0] == '0' && (s[1] == 'x' || s[1] == 'X')
  }

  function Digits(s: string): (ds: string)
    ensures |ds| <= |s|
  {
    if HasHexPrefix(s) then s[2..] else s
  }

  /** Input `parseInt(s, 16)` reads completely: an optional prefix and at least one digit. */
  predicate WellFormed(s: string) {
    Digits(s) != [] && AllHexDigits(Digits(s))
  }

  /** The value of a digit string, most significant digit first. */
  function HexValue(ds: string): (n: nat)
    requires AllHexDigits(ds)
    ensures n < Pow16(|ds|)
  {
    if ds == [] then 0
    else 16 * HexValue(ds[..|ds| - 1]) + DigitValue(ds[|ds| - 1])
  }

  /** `parseInt(s, 16)` on a well-formed chain id. */
  function ParseChainId(s: string): (n: nat)
    requires WellFormed(s)
    ensures n < Pow16(|Digits(s)|)
  {
    HexValue(Digits(s))
  }

  /** The shortest lower-case digit string of `n`. */
  function ToHex(n: nat): (ds: string)
    ensures ds != [] && AllHexDigits(ds)
    ensures forall i :: 0 <= i < |ds| ==> !('A' <= ds[i] <= 'F')
    ensures |ds| > 1 ==> ds[0] != '0'
  {
    if n < 16 then [DigitChar(n)] else ToHex(n / 16) + [DigitChar(n % 16)]
  }

  /** The chain id as an EIP-695 style "0x…" string. */
  function Encode(n: nat): (s: string)
    ensures HasHexPrefix(s)
  {
    "0x" + ToHex(n)
  }

  lemma {:induction false} HexValueOfToHex(n: nat)
    ensures HexValue(ToHex(n)) == n
  {
    if n >= 16 {
      var ds := ToHex(n);
      assert ds[..|ds| - 1] == ToHex(n / 16);
      HexValueOfToHex(n / 16);
    }
  }

  /** Decoding inverts encoding: every chain id survives the round trip. */
  lemma ParseEncode(n: nat)
    ensures WellFormed(Encode(n))
    ensures ParseChainId(Encode(n)) == n
  {
    assert Digits(Encode(n)) == ToHex(n);
    HexValueOfToHex(n);
  }

  /** A leading zero does not change the decoded value. */
  lemma {:induction false} LeadingZero(ds: string)
    requires AllHexDigits(ds)
    ensures AllHexDigits("0" + ds) && HexValue("0" + ds) == HexValue(ds)
  {
    if ds != [] {
      var z := "0" + ds;
      assert z[..|z| - 1] == "0" + ds[..|ds| - 1];
      LeadingZero(ds[..|ds| - 1]);
    }
  }
}
