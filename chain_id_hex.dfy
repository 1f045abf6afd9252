/**
 * The chain id the direct-wallet flow asks the wallet to switch to
 * (pretix_eth/static/pretix_eth/web3modal.js, `makePayment`): the text `0x`
 * followed by `chain_id.toString(16)`, where `chain_id` is whatever value the
 * order details carry.
 *
 * Its partner is `ParseQuantity`, which reads a `0x`-prefixed hexadecimal
 * quantity back to a number; for every non-negative chain id the requested
 * text reads back to the chain id itself.
 */
module ChainIdHex {
  import opened Wrappers
  import opened Js

  /** A digit of base 16 as `Number.prototype.toString(16)` writes it
      (lower case). */
  function HexDigit(d: nat): (c: char)
    requires d < 16
  {
    if d < 10 then ('0' as int + d) as char else ('a' as int + d - 10) as char
  }

  predicate LowerHexDigit(c: char) {
    ('0' <= c && c <= '9') || ('a' <= c && c <= 'f')
  }

  /** The base-16 digits of a natural number, most significant first. */
  function HexDigits(n: nat): (s: string)
    ensures |s| >= 1
    decreases n
  {
    if n < 16 then [HexDigit(n)] else HexDigits(n / 16) + [HexDigit(n % 16)]
  }

  /** `n.toString(16)` for an integral number: a minus sign, then the digits
      of the magnitude, when `n` is negative. */
  function ToRadix16(n: int): string {
    if n < 0 then "-" + HexDigits(-n) else HexDigits(n)
  }

  /** `v.toString(16)` for a value read from JSON. Only numbers honour the
      radix; a string, a boolean and a plain object ignore it, and reading a
      method of undefined or null throws a TypeError. */
  function ToStringRadix16(v: JsValue): Completion<string> {
    match v
    case Undefined => Throw(TypeError)
    case Null => Throw(TypeError)
    case Bool(b) => Normal(if b then "true" else "false")
    case Num(n) => Normal(ToRadix16(n))
    case Str(s) => Normal(s)
    case Obj(_) => Normal("[object Object]")
  }

  /** The `chainId` sent with `wallet_switchEthereumChain`. */
  function DesiredChainId(chainId: JsValue): Completion<string> {
    match ToStringRadix16(chainId)
    case Throw(e) => Throw(e)
    case Normal(s) => Normal("0x" + s)
  }

  /** The number a non-empty string of hexadecimal digits denotes; None when
      it is empty or holds anything else. */
  function ParseDigits(s: string): Option<nat>
    decreases |s|
  {
    if s == [] then None
    else if |s| == 1 then HexDigitValue(s[0])
    else
      match (ParseDigits(s[..|s| - 1]), HexDigitValue(s[|s| - 1]))
      case (Some(high), Some(low)) => Some(high * 16 + low)
      case _ => None
  }

  /** Reads a `0x`-prefixed hexadecimal quantity, the form in which wallets
      exchange chain ids. */
  function ParseQuantity(s: string): Option<nat> {
    if |s| >= 2 && s[0] == '0' && s[1] == 'x' then ParseDigits(s[2..]) else None
  }

  lemma DigitValueOfHexDigit(d: nat)
    requires d < 16
    ensures HexDigitValue(HexDigit(d)) == Some(d)
    ensures LowerHexDigit(HexDigit(d))
  {
  }

  lemma {:induction false} ParseHexDigits(n: nat)
    ensures ParseDigits(HexDigits(n)) == Some(n)
    decreases n
  {
    DigitValueOfHexDigit(n % 16);
    if n >= 16 {
      ParseHexDigits(n / 16);
      var s := HexDigits(n);
      assert s[..|s| - 1] == HexDigits(n / 16);
      assert s[|s| - 1] == HexDigit(n % 16);
    }
  }

  /** Reading the requested chain id back gives the order's chain id, for
      every non-negative integral chain id. */
  lemma ChainIdRoundTrip(n: nat)
    ensures DesiredChainId(Num(n)).Normal?
    ensures ParseQuantity(DesiredChainId(Num(n)).value) == Some(n)
  {
    var s := DesiredChainId(Num(n)).value;
    assert s == "0x" + HexDigits(n);
    assert s[2..] == HexDigits(n);
    ParseHexDigits(n);
  }

  /** `HexDigits` writes lower-case digits with no leading zero. */
  lemma {:induction false} HexDigitsCanonical(n: nat)
    ensures forall i :: 0 <= i < |HexDigits(n)| ==> LowerHexDigit(HexDigits(n)[i])
    ensures HexDigits(n)[0] == '0' <==> n == 0
    decreases n
  {
    DigitValueOfHexDigit(n % 16);
    if n >= 16 {
      HexDigitsCanonical(n / 16);
      var s, h := HexDigits(n), HexDigits(n / 16);
      assert s == h + [HexDigit(n % 16)];
      assert s[0] == h[0];
      forall i | 0 <= i < |s| ensures LowerHexDigit(s[i]) {
        if i < |h| { assert s[i] == h[i]; }
      }
    }
  }

  /** The requested id for a non-negative number is in canonical form:
      `0x`, then lower-case digits with no leading zero. */
  lemma ChainIdCanonical(n: nat)
    ensures var s := DesiredChainId(Num(n)).value;
      && DesiredChainId(Num(n)).Normal?
      && |s| >= 3 && s[..2] == "0x"
      && (forall i :: 2 <= i < |s| ==> LowerHexDigit(s[i]))
      && (s[2] == '0' <==> n == 0)
  {
    var s := DesiredChainId(Num(n)).value;
    var h := HexDigits(n);
    HexDigitsCanonical(n);
    assert s == "0x" + h;
    forall i | 2 <= i < |s| ensures LowerHexDigit(s[i]) {
      assert s[i] == h[i - 2];
    }
  }

  /** A negative chain id is rendered with a minus sign, which no wallet reads
      as a quantity. */
  lemma NegativeChainIdUnreadable(n: int)
    requires n < 0
    ensures DesiredChainId(Num(n)).Normal?
    ensures ParseQuantity(DesiredChainId(Num(n)).value) == None
  {
    var s := DesiredChainId(Num(n)).value;
    assert s == "0x-" + HexDigits(-n);
    var d := s[2..];
    assert d[0] == '-';
    if |d| > 1 {
      ParseDigitsNeedsDigits(d, 0);
    }
  }

  /** A string with a non-digit anywhere does not parse. */
  lemma {:induction false} ParseDigitsNeedsDigits(s: string, i: nat)
    requires i < |s| && HexDigitValue(s[i]).None?
    ensures ParseDigits(s) == None
    decreases |s|
  {
    if |s| > 1 && i < |s| - 1 {
      ParseDigitsNeedsDigits(s[..|s| - 1], i);
    }
  }

  /** The request fails (before anything is sent) exactly when the chain id
      is undefined or null. */
  lemma DesiredChainIdFailure(chainId: JsValue)
    ensures DesiredChainId(chainId).Throw? <==> Nullish(chainId)
    ensures DesiredChainId(chainId).Throw? ==> DesiredChainId(chainId).error == TypeError
  {
  }

  /** A string chain id is sent as it is, behind `0x`; a number is written
      in base 16. */
  lemma DesiredChainIdOfString(s: string)
    ensures DesiredChainId(Str(s)) == Normal("0x" + s)
  {
  }
}
