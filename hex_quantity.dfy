/**
 * The balance conversion of the wallet context: the `eth_getBalance` reply is
 * a QUANTITY of the Ethereum JSON-RPC API ("0x" followed by hex digits, no
 * leading zeros), read with `parseInt(hex, 16)` into wei and divided by 10^18
 * to give ether.
 */
module HexQuantity {
  import opened Wrappers

  predicate IsHexDigit(c: char) {
    '0' <= c <= '9' || 'a' <= c <= 'f' || 'A' <= c <= 'F'
  }

  predicate AllHexDigits(s: string) {
    forall i :: 0 <= i < |s| ==> IsHexDigit(s[i])
  }

  /** The value of one hex digit, either case. */
  function DigitValue(c: char): (d: nat)
    requires IsHexDigit(c)
    ensures d < 16
  {
    if '0' <= c <= '9' then c as nat - '0' as nat
    else if 'a' <= c <= 'f' then c as nat - 'a' as nat + 10
    else c as nat - 'A' as nat + 10
  }

  /** The lower-case digit for a value below 16. */
  function HexDigit(d: nat): (c: char)
    requires d < 16
    ensures IsHexDigit(c) && DigitValue(c) == d
  {
    if d < 10 then ('0' as nat + d) as char else ('a' as nat + d - 10) as char
  }

  /** 16 to the power `n`. */
  function Pow16(n: nat): (p: nat)
    ensures p >= 1
  {
    if n == 0 then 1 else 16 * Pow16(n - 1)
  }

  /** The number a run of hex digits denotes, most significant first: the sum of d_i * 16^i. */
  function HexValue(digits: string): (v: nat)
    requires AllHexDigits(digits)
    ensures v < Pow16(|digits|)
  {
    if digits == [] then 0
    else 16 * HexValue(digits[..|digits| - 1]) + DigitValue(digits[|digits| - 1])
  }

  /** How many leading characters of `s` are hex digits: where `parseInt` stops reading. */
  function HexRunLength(s: string): (k: nat)
    ensures k <= |s|
    ensures AllHexDigits(s[..k])
    ensures k < |s| ==> !IsHexDigit(s[k])
  {
    if s == [] || !IsHexDigit(s[0]) then 0
    else
      var k := 1 + HexRunLength(s[1..]);
      assert s[..k] == [s[0]] + s[1..][..k - 1];
      k
  }

  /**
   * `parseInt(s, 16)`: an optional "0x" or "0X" prefix is skipped, then the
   * longest run of hex digits is read; no digit at all gives `NaN` (None).
   * Leading white space and a sign are not modelled.
   */
  function ParseIntHex(s: string): (r: Option<nat>)
    ensures r.None? <==> AfterPrefix(s) == [] || !IsHexDigit(AfterPrefix(s)[0])
    ensures AfterPrefix(s) != [] && AllHexDigits(AfterPrefix(s)) ==> r == Some(HexValue(AfterPrefix(s)))
    ensures r.Some? ==> r.value == HexValue(AfterPrefix(s)[..HexRunLength(AfterPrefix(s))])
  {
    var body := AfterPrefix(s);
    var k := HexRunLength(body);
    assert AllHexDigits(body) ==> body[..k] == body by {
      if AllHexDigits(body) {
        HexRunOfDigits(body);
      }
    }
    if k == 0 then None else Some(HexValue(body[..k]))
  }

  /** What `parseInt(s, 16)` reads after an optional "0x" or "0X" prefix. */
  function AfterPrefix(s: string): string
  {
    if |s| >= 2 && s[0] == '0' && (s[1] == 'x' || s[1] == 'X') then s[2..] else s
  }

  /** The shortest digit string for `n`: no leading zero except for 0 itself. */
  function EncodeHex(n: nat): (s: string)
    ensures |s| >= 1 && AllHexDigits(s)
    ensures |s| > 1 ==> s[0] != '0'
  {
    if n < 16 then [HexDigit(n)] else EncodeHex(n / 16) + [HexDigit(n % 16)]
  }

  /** A QUANTITY of the Ethereum JSON-RPC API: "0x", then hex digits without a leading zero. */
  predicate IsQuantity(s: string) {
    |s| >= 3 && s[..2] == "0x" && AllHexDigits(s[2..]) && (|s| > 3 ==> s[2] != '0')
  }

  /** The QUANTITY encoding of a number, as a provider writes it. */
  function ToQuantity(n: nat): (q: string)
    ensures IsQuantity(q)
  {
    "0x" + EncodeHex(n)
  }

  /** Reading the digits of `n` gives `n` back. */
  lemma {:induction false} HexValueOfEncode(n: nat)
    ensures HexValue(EncodeHex(n)) == n
  {
    if n >= 16 {
      var s := EncodeHex(n);
      assert s[..|s| - 1] == EncodeHex(n / 16);
      HexValueOfEncode(n / 16);
    }
  }

  /** A run made only of hex digits is read to its end. */
  lemma HexRunOfDigits(s: string)
    requires AllHexDigits(s)
    ensures HexRunLength(s) == |s|
  {
  }

  /** `parseInt("0x" + digits, 16)` is the value of the digits. */
  lemma ParsePrefixedDigits(digits: string)
    requires |digits| >= 1 && AllHexDigits(digits)
    ensures ParseIntHex("0x" + digits) == Some(HexValue(digits))
  {
    var s := "0x" + digits;
    assert s[2..] == digits;
    HexRunOfDigits(digits);
    assert digits[..|digits|] == digits;
  }

  /** Every QUANTITY a provider sends is read back as the number it encodes. */
  lemma ParseQuantityRoundTrip(n: nat)
    ensures ParseIntHex(ToQuantity(n)) == Some(n)
  {
    ParsePrefixedDigits(EncodeHex(n));
    HexValueOfEncode(n);
  }

  /** Digits without a leading zero are exactly the encoding of their value. */
  lemma {:induction false} EncodeHexOfValue(digits: string)
    requires |digits| >= 1 && AllHexDigits(digits)
    requires |digits| > 1 ==> digits[0] != '0'
    requires forall i :: 0 <= i < |digits| ==> !('A' <= digits[i] <= 'F')
    ensures EncodeHex(HexValue(digits)) == digits
  {
    var n := |digits| - 1;
    var last := digits[n];
    if n == 0 {
      assert HexValue(digits) == DigitValue(last);
    } else {
      var init := digits[..n];
      LeadingDigitBound(init);
      assert HexValue(digits) == 16 * HexValue(init) + DigitValue(last);
      assert HexValue(digits) / 16 == HexValue(init);
      assert HexValue(digits) % 16 == DigitValue(last);
      EncodeHexOfValue(init);
      assert HexDigit(DigitValue(last)) == last;
    }
  }

  /** A digit string of two or more digits without a leading zero denotes at least 16^(length - 1), so at least 1. */
  lemma {:induction false} LeadingDigitBound(digits: string)
    requires |digits| >= 1 && AllHexDigits(digits)
    requires |digits| > 1 ==> digits[0] != '0'
    ensures |digits| > 1 ==> HexValue(digits) >= 16
    ensures HexValue(digits) >= 1 || digits == "0"
  {
    if |digits| > 1 {
      var init := digits[..|digits| - 1];
      assert init[0] == digits[0];
      LeadingDigitBound(init);
    } else {
      assert digits == [digits[0]];
    }
  }

  /** Wei per ether. */
  const WeiPerEther: nat := 1_000_000_000_000_000_000

  /** `balanceInWei / 1e18`, in exact arithmetic. */
  function WeiToEther(wei: nat): (ether: real)
    ensures ether * WeiPerEther as real == wei as real
    ensures ether >= 0.0
  {
    wei as real / WeiPerEther as real
  }
}
