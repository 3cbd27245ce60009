/** Access PINs and the data encoded in a booking's access QR code. */
module QrGenerator {

  function Digit(d: nat): (c: char)
    requires d < 10
    ensures '0' <= c <= '9'
  {
    (48 + d) as char
  }

  function DigitValue(c: char): nat
    requires '0' <= c <= '9'
  {
    c as int - 48
  }

  predicate AllDigits(s: string) {
    forall k :: 0 <= k < |s| ==> '0' <= s[k] <= '9'
  }

  /** `Number.prototype.toString()` on a non-negative integer: its decimal digits,
      most significant first. */
  function NatToDecimal(n: nat): (s: string)
    ensures |s| >= 1 && AllDigits(s)
  {
    if n < 10 then [Digit(n)] else NatToDecimal(n / 10) + [Digit(n % 10)]
  }

  /** The number a string of decimal digits denotes. */
  function DecimalValue(s: string): nat
    requires AllDigits(s)
  {
    if s == [] then 0 else DecimalValue(s[..|s| - 1]) * 10 + DigitValue(s[|s| - 1])
  }

  function Pow10(k: nat): (p: nat)
    ensures p >= 1
  {
    if k == 0 then 1 else 10 * Pow10(k - 1)
  }

  /** Reading back the decimal digits of `n` gives `n`. */
  lemma {:induction false} DecimalRoundTrip(n: nat)
    ensures DecimalValue(NatToDecimal(n)) == n
  {
    var s := NatToDecimal(n);
    if n >= 10 {
      DecimalRoundTrip(n / 10);
      assert s[..|s| - 1] == NatToDecimal(n / 10);
    }
  }

  /** A number with `k` decimal digits is written with exactly `k` characters. */
  lemma {:induction false} DecimalLength(n: nat, k: nat)
    requires k >= 1 && Pow10(k - 1) <= n < Pow10(k)
    ensures |NatToDecimal(n)| == k
  {
    if n >= 10 {
      assert k >= 2;
      DecimalLength(n / 10, k - 1);
    }
  }

  /** The decimal digits of a positive number do not start with `0`. */
  lemma {:induction false} NoLeadingZero(n: nat)
    requires n >= 1
    ensures NatToDecimal(n)[0] != '0'
  {
    if n >= 10 {
      NoLeadingZero(n / 10);
    }
  }

  /** `generateAccessPin`: `Math.floor(100000 + Math.random() * 900000)` as a
      string. The floored random term is the parameter `draw`; the range of
      `Math.random()` puts it in [0, 900000). The PIN has six digits, does not
      start with `0`, and denotes `100000 + draw`. */
  function GenerateAccessPin(draw: nat): (pin: string)
    requires draw < 900000
    ensures |pin| == 6 && AllDigits(pin) && pin[0] != '0'
    ensures DecimalValue(pin) == 100000 + draw
  {
    var n := 100000 + draw;
    assert Pow10(2) == 100 && Pow10(4) == 10000 && Pow10(6) == 1000000;
    DecimalLength(n, 6);
    NoLeadingZero(n);
    DecimalRoundTrip(n);
    NatToDecimal(n)
  }

  /** Distinct draws give distinct PINs, so the PIN determines the draw. */
  lemma AccessPinInjective(d1: nat, d2: nat)
    requires d1 < 900000 && d2 < 900000
    requires GenerateAccessPin(d1) == GenerateAccessPin(d2)
    ensures d1 == d2
  {
  }

  /** The object `generateAccessQRData` serialises into the QR code: the booking
      it opens, its PIN, its validity window and the moment it was produced
      (instants in milliseconds; their ISO rendering is not modelled). */
  datatype AccessPayload = AccessPayload(
    bookingId: nat,
    accessPin: string,
    validFrom: int,
    validUntil: int,
    generatedAt: int)

  function GenerateAccessQRData(bookingId: nat, accessPin: string, validFrom: int,
                                validUntil: int, now: int): (p: AccessPayload)
    ensures p.bookingId == bookingId && p.accessPin == accessPin
    ensures p.validFrom == validFrom && p.validUntil == validUntil && p.generatedAt == now
  {
    AccessPayload(bookingId, accessPin, validFrom, validUntil, now)
  }
}
