/**
 * DRF's `DecimalField`: a decimal input as `Decimal.as_tuple()` presents it
 * (a sign, the coefficient read as a number, an exponent), the digit checks
 * of `validate_precision` against `max_digits` and `decimal_places`, and the
 * value quantized to `decimal_places`, held exactly as an integer count of
 * 10^-places.
 */
module Decimals {
  import opened Wrappers
  import opened Text

  /** `Decimal.as_tuple()`: value = (-1)^negative * coefficient * 10^exponent. */
  datatype Decimal = Decimal(negative: bool, coefficient: nat, exponent: int)

  function Abs(i: int): nat { if i < 0 then -i else i }

  /** The value has at most `places` decimal places. */
  predicate FitsPlaces(d: Decimal, places: nat) { d.exponent + places >= 0 }

  /** `len(digittuple)`: the digits of the coefficient (zero has the one digit 0). */
  function DigitCount(d: Decimal): nat { |NatToString(d.coefficient)| }

  datatype Precision = Precision(total: nat, whole: nat, places: nat)

  /** The digit counts `validate_precision` derives from the tuple. */
  function PrecisionOf(d: Decimal): (p: Precision)
    ensures p.total == p.whole + p.places
    ensures p.places == if d.exponent < 0 then -d.exponent else 0
  {
    if d.exponent >= 0 then Precision(DigitCount(d) + d.exponent, DigitCount(d) + d.exponent, 0)
    else if DigitCount(d) > -d.exponent then Precision(DigitCount(d), DigitCount(d) + d.exponent, -d.exponent)
    else Precision(-d.exponent, 0, -d.exponent)
  }

  /** The value of `d` in units of 10^-places (exact when it has at most that many places). */
  function Scaled(d: Decimal, places: nat): int
    requires FitsPlaces(d, places)
  {
    (if d.negative then -1 else 1) * d.coefficient * Pow10((d.exponent + places) as nat)
  }

  /** The three refusals of `validate_precision`. */
  datatype DigitsError =
    | MaxDigits(limit: nat)
    | MaxDecimalPlaces(limit: nat)
    | MaxWholeDigits(limit: nat)

  function DigitsMessage(e: DigitsError): string
  {
    match e
    case MaxDigits(n) => "Ensure that there are no more than " + NatToString(n) + " digits in total."
    case MaxDecimalPlaces(n) => "Ensure that there are no more than " + NatToString(n) + " decimal places."
    case MaxWholeDigits(n) => "Ensure that there are no more than " + NatToString(n) + " digits before the decimal point."
  }

  /**
   * `DecimalField(max_digits=maxDigits, decimal_places=places)` on a parsed
   * decimal: the total, the decimal places, then the whole digits, and the
   * value quantized to `places`.
   */
  function Quantize(maxDigits: nat, places: nat, d: Decimal): (r: Result<int, DigitsError>)
    requires maxDigits >= places
    ensures r.Success? ==> FitsPlaces(d, places) && r.value == Scaled(d, places)
    ensures r.Failure? ==> r.error in {MaxDigits(maxDigits), MaxDecimalPlaces(places), MaxWholeDigits(maxDigits - places)}
  {
    var p := PrecisionOf(d);
    if p.total > maxDigits then Failure(MaxDigits(maxDigits))
    else if p.places > places then Failure(MaxDecimalPlaces(places))
    else if p.whole > maxDigits - places then Failure(MaxWholeDigits(maxDigits - places))
    else Success(Scaled(d, places))
  }

  // ---------------------------------------------------------------------
  // Arithmetic facts
  // ---------------------------------------------------------------------

  lemma MulMono(a: nat, b: nat, c: nat)
    requires a <= b
    ensures a * c <= b * c
  {
  }

  lemma {:induction false} ScaleBound(c: nat, k: nat, m: nat)
    ensures c < Pow10(k) <==> c * Pow10(m) < Pow10(k + m)
  {
    Pow10Add(k, m);
    var p, q := Pow10(k), Pow10(m);
    if c < p {
      MulMono(c + 1, p, q);
      assert (c + 1) * q == c * q + q;
    } else {
      MulMono(p, c, q);
    }
  }

  lemma {:induction false} QuotientBound(n: nat, d: nat, k: nat)
    requires d > 0
    ensures n / d < k <==> n < k * d
  {
    var q, r := n / d, n % d;
    assert n == q * d + r && 0 <= r < d;
    if q < k {
      MulMono(q + 1, k, d);
      assert (q + 1) * d == q * d + d;
    } else {
      MulMono(k, q, d);
    }
  }

  lemma {:induction false} ScaledMagnitude(d: Decimal, places: nat)
    requires FitsPlaces(d, places)
    ensures Abs(Scaled(d, places)) == d.coefficient * Pow10((d.exponent + places) as nat)
  {
    var q := d.coefficient * Pow10((d.exponent + places) as nat);
    assert Scaled(d, places) == if d.negative then -q else q;
  }

  /**
   * The whole digits of a decimal bound its value; for a decimal written
   * without a positive exponent the bound is exact.
   */
  lemma {:induction false} WholeDigitsMagnitude(d: Decimal, w: nat, places: nat)
    requires FitsPlaces(d, places)
    ensures PrecisionOf(d).whole <= w ==> Abs(Scaled(d, places)) < Pow10(w + places)
    ensures w >= 1 && d.exponent <= 0 && Abs(Scaled(d, places)) < Pow10(w + places) ==> PrecisionOf(d).whole <= w
  {
    ScaledMagnitude(d, places);
    var c, e, n := d.coefficient, d.exponent, DigitCount(d);
    var m: nat := (e + places) as nat;
    if e >= 0 {
      assert PrecisionOf(d).whole == n + e && m == e + places;
      WholeDigitsWhole(c, e, w, places);
    } else if n > -e {
      var k: nat := -e;
      assert PrecisionOf(d).whole == n - k && m == places - k;
      WholeDigitsFraction(c, k, w, places);
    } else {
      var k: nat := -e;
      assert PrecisionOf(d).whole == 0 && m == places - k;
      WholeDigitsSmall(c, k, w, places);
    }
  }

  /** A fraction with more digits than places: `n - k` whole digits. */
  lemma {:induction false} WholeDigitsFraction(c: nat, k: nat, w: nat, places: nat)
    requires 0 < k <= places
    ensures |NatToString(c)| - k <= w <==> c * Pow10(places - k) < Pow10(w + places)
  {
    var m: nat := places - k;
    ScaledDigits(c, k, m, w);
    assert w + k + m == w + places;
  }

  /** `c` has at most `w + k` digits exactly when `c * 10^m` is below 10^(w + k + m). */
  lemma {:induction false} ScaledDigits(c: nat, k: nat, m: nat, w: nat)
    requires k > 0
    ensures |NatToString(c)| - k <= w <==> c * Pow10(m) < Pow10(w + k + m)
  {
    NatToStringShort(c, w + k);
    ScaleBound(c, w + k, m);
  }

  /** A fraction with no more digits than places: no whole digits, value below one. */
  lemma {:induction false} WholeDigitsSmall(c: nat, k: nat, w: nat, places: nat)
    requires 0 < k <= places && |NatToString(c)| <= k
    ensures c * Pow10(places - k) < Pow10(w + places)
  {
    NatToStringShort(c, k);
    var m: nat := places - k;
    BelowOne(c, k, m, w);
    assert w + (k + m) == w + places;
  }

  /** Below 10^k, scaled by 10^m: below 10^(k + m) and so below 10^(w + k + m). */
  lemma {:induction false} BelowOne(c: nat, k: nat, m: nat, w: nat)
    requires c < Pow10(k)
    ensures c * Pow10(m) < Pow10(w + (k + m))
  {
    ScaleBound(c, k, m);
    Pow10Add(w, k + m);
    BelowScaled(c * Pow10(m), Pow10(k + m), Pow10(w));
  }

  lemma BelowScaled(x: nat, p: nat, q: nat)
    requires x < p && q >= 1
    ensures x < q * p
  {
    MulMono(1, q, p);
  }

  /** The case of a decimal with a non-negative exponent: `n + e` whole digits. */
  lemma {:induction false} WholeDigitsWhole(c: nat, e: nat, w: nat, places: nat)
    ensures |NatToString(c)| + e <= w ==> c * Pow10(e + places) < Pow10(w + places)
    ensures w >= 1 && e == 0 && c * Pow10(places) < Pow10(w + places) ==> |NatToString(c)| <= w
  {
    if |NatToString(c)| + e <= w {
      WholeDigitsBound(c, e, w, places);
    }
    if w >= 1 && e == 0 && c * Pow10(places) < Pow10(w + places) {
      WholeDigitsExact(c, w, places);
    }
  }

  lemma {:induction false} WholeDigitsBound(c: nat, e: nat, w: nat, places: nat)
    requires |NatToString(c)| + e <= w
    ensures c * Pow10(e + places) < Pow10(w + places)
  {
    var k: nat := w - e;
    NatToStringShort(c, k);
    ScaleBound(c, k, e + places);
    assert k + (e + places) == w + places;
  }

  lemma {:induction false} WholeDigitsExact(c: nat, w: nat, places: nat)
    requires w >= 1 && c * Pow10(places) < Pow10(w + places)
    ensures |NatToString(c)| <= w
  {
    ScaleBound(c, w, places);
    NatToStringShort(c, w);
  }

  /**
   * A field with room for `maxDigits` digits, `places` of them decimal,
   * accepts only values below 10^(maxDigits - places) in magnitude, and, for a
   * decimal without a positive exponent and with at most `places` places,
   * every such value.
   */
  lemma {:induction false} QuantizeMagnitude(maxDigits: nat, places: nat, d: Decimal)
    requires maxDigits > places
    ensures Quantize(maxDigits, places, d).Success? ==> Abs(Scaled(d, places)) < Pow10(maxDigits)
    ensures FitsPlaces(d, places) && d.exponent <= 0 ==>
      (Quantize(maxDigits, places, d).Success? <==> Abs(Scaled(d, places)) < Pow10(maxDigits))
  {
    if FitsPlaces(d, places) {
      WholeDigitsMagnitude(d, maxDigits - places, places);
    }
  }

  /**
   * A decimal with more places than the field allows is refused for them,
   * unless it already has too many digits in total.
   */
  lemma {:induction false} TooManyPlacesRefused(maxDigits: nat, places: nat, d: Decimal)
    requires maxDigits >= places && !FitsPlaces(d, places)
    ensures Quantize(maxDigits, places, d) ==
      if PrecisionOf(d).total > maxDigits then Failure(MaxDigits(maxDigits)) else Failure(MaxDecimalPlaces(places))
  {
  }
}
