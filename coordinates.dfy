/**
 * The coordinates serializer of a property (PropertyLATandLONSerializer):
 * two DRF DecimalFields with max_digits=22 and decimal_places=20, a range and
 * digit check per axis (`validate_latitude`, `validate_longitude`), and a
 * check that the two are not both zero (`validate`).
 *
 * A decimal input is taken as `Decimal.as_tuple()` presents it: a sign, the
 * coefficient (its digits read as a number) and an exponent. A value that
 * passes the field is quantized to 20 decimal places, so from then on it is
 * held exactly as an integer count of 10^-20 ("units").
 *
 * Two versions of the per-axis checks are given: the code as written, and the
 * evidently intended one (the sign does not count as a digit; the longitude
 * field leaves room for three whole digits).
 */
module Coordinates {
  import opened Wrappers
  import opened Text
  import opened Decimals

  /** `decimal_places` of both fields. */
  const Places: nat := 20

  /** One whole unit of a coordinate, in 10^-20. */
  const One: nat := 100_000_000_000_000_000_000

  /** The value of a decimal with at most 20 places, in units of 10^-20. */
  function Units(d: Decimal): int
    requires FitsPlaces(d, Places)
  {
    Scaled(d, Places)
  }

  /** The error messages of the serializer. */
  datatype Message =
    | Required            // "This field is required."
    | Digits(e: DigitsError)  // one of the three digit checks of the field
    | LatitudeRange       // "Latitude must be between -90 and 90."
    | LatitudeDigits      // "Latitude cannot have more than 2 digits before the decimal point."
    | LongitudeRange      // "Longitude must be between -180 and 180."
    | LongitudeDigits     // "Longitude cannot have more than 3 digits before the decimal point."
    | BothZero            // "Latitude and longitude cannot both be 0."

  datatype Key = LatitudeKey | LongitudeKey | NonFieldKey

  datatype Problem = Problem(key: Key, message: Message)

  /** `int(value)` of a value in units: truncation toward zero. */
  function Trunc(u: int): int
  {
    if u >= 0 then u / One else -((-u) / One)
  }

  /** `validate_latitude` as written: `len(str(int(value)))` counts a minus sign. */
  function LatitudeAsWritten(u: int): Option<Message>
  {
    if !(-90 * One <= u <= 90 * One) then Some(LatitudeRange)
    else if |IntToString(Trunc(u))| > 2 then Some(LatitudeDigits)
    else None
  }

  /** `validate_longitude` as written. */
  function LongitudeAsWritten(u: int): Option<Message>
  {
    if !(-180 * One <= u <= 180 * One) then Some(LongitudeRange)
    else if |IntToString(Trunc(u))| > 3 then Some(LongitudeDigits)
    else None
  }

  /** `validate_latitude` counting only the digits of the whole part. */
  function LatitudeChecked(u: int): Option<Message>
  {
    if !(-90 * One <= u <= 90 * One) then Some(LatitudeRange)
    else if |NatToString(Abs(Trunc(u)))| > 2 then Some(LatitudeDigits)
    else None
  }

  /** `validate_longitude` counting only the digits of the whole part. */
  function LongitudeChecked(u: int): Option<Message>
  {
    if !(-180 * One <= u <= 180 * One) then Some(LongitudeRange)
    else if |NatToString(Abs(Trunc(u)))| > 3 then Some(LongitudeDigits)
    else None
  }

  /** One axis: the field (missing input, digit checks), then its `validate_<field>`. */
  function AxisValue(maxDigits: nat, d: Option<Decimal>, check: int -> Option<Message>): (r: Result<int, Message>)
    requires maxDigits >= Places
  {
    match d
    case None => Failure(Required)
    case Some(x) =>
      match Quantize(maxDigits, Places, x)
      case Failure(e) => Failure(Digits(e))
      case Success(u) => if check(u).Some? then Failure(check(u).value) else Success(u)
  }

  /**
   * The field errors of both axes, in field order; only when there are none
   * does `validate` run, which refuses two zeros.
   */
  function Combine(lat: Result<int, Message>, lon: Result<int, Message>): (r: Result<(int, int), seq<Problem>>)
  {
    var errors := (if lat.Failure? then [Problem(LatitudeKey, lat.error)] else [])
      + (if lon.Failure? then [Problem(LongitudeKey, lon.error)] else []);
    if errors != [] then Failure(errors)
    else if lat.value == 0 && lon.value == 0 then Failure([Problem(NonFieldKey, BothZero)])
    else Success((lat.value, lon.value))
  }

  /** The serializer as written. */
  function ValidateAsWritten(lat: Option<Decimal>, lon: Option<Decimal>): Result<(int, int), seq<Problem>>
  {
    Combine(AxisValue(22, lat, LatitudeAsWritten), AxisValue(22, lon, LongitudeAsWritten))
  }

  /** The serializer as evidently intended: signs not counted, longitude with 23 digits. */
  function Validate(lat: Option<Decimal>, lon: Option<Decimal>): Result<(int, int), seq<Problem>>
  {
    Combine(AxisValue(22, lat, LatitudeChecked), AxisValue(23, lon, LongitudeChecked))
  }

  // ---------------------------------------------------------------------
  // Arithmetic facts
  // ---------------------------------------------------------------------

  lemma OneIsPow10()
    ensures One == Pow10(Places)
  {
    assert Pow10(5) == 100_000 by {
      assert Pow10(1) == 10 && Pow10(2) == 100 && Pow10(3) == 1000 && Pow10(4) == 10_000;
    }
    Pow10Add(5, 5);
    Pow10Add(10, 10);
  }

  /** The whole part has at most `k` digits exactly when the value is below 10^k. */
  lemma {:induction false} TruncDigits(u: int, k: nat)
    requires k >= 1
    ensures Abs(Trunc(u)) == Abs(u) / One
    ensures |NatToString(Abs(Trunc(u)))| <= k <==> Abs(u) < Pow10(k) * One
  {
    NatToStringShort(Abs(u) / One, k);
    QuotientBound(Abs(u), One, Pow10(k));
  }

  // ---------------------------------------------------------------------
  // The per-axis checks
  // ---------------------------------------------------------------------

  lemma {:induction false} SignedLength(u: int)
    ensures Trunc(u) < 0 <==> u <= -(One as int)
    ensures |IntToString(Trunc(u))| == (if u <= -(One as int) then 1 else 0) + |NatToString(Abs(Trunc(u)))|
  {
    if u < 0 {
      QuotientBound(-u, One, 1);
    }
  }

  /** As written, a latitude passes exactly when -10 < v <= 90: the minus sign uses up a digit. */
  lemma {:induction false} LatitudeAsWrittenAccepts(u: int)
    ensures LatitudeAsWritten(u) == None <==> -10 * One < u <= 90 * One
  {
    SignedLength(u);
    TruncDigits(u, 1);
    TruncDigits(u, 2);
    assert Pow10(1) == 10 && Pow10(2) == 100;
  }

  /** As written, a longitude passes exactly when -100 < v <= 180. */
  lemma {:induction false} LongitudeAsWrittenAccepts(u: int)
    ensures LongitudeAsWritten(u) == None <==> -100 * One < u <= 180 * One
  {
    SignedLength(u);
    TruncDigits(u, 2);
    TruncDigits(u, 3);
    assert Pow10(2) == 100 && Pow10(3) == 1000;
  }

  /** Counting only digits, the latitude check is exactly the range -90 <= v <= 90. */
  lemma {:induction false} LatitudeCheckedAccepts(u: int)
    ensures LatitudeChecked(u) == None <==> -90 * One <= u <= 90 * One
  {
    TruncDigits(u, 2);
    assert Pow10(2) == 100;
  }

  /** Counting only digits, the longitude check is exactly the range -180 <= v <= 180. */
  lemma {:induction false} LongitudeCheckedAccepts(u: int)
    ensures LongitudeChecked(u) == None <==> -180 * One <= u <= 180 * One
  {
    TruncDigits(u, 3);
    assert Pow10(3) == 1000;
  }

  // ---------------------------------------------------------------------
  // The serializer
  // ---------------------------------------------------------------------

  /** `validate` reports two zeros only when both fields passed with the value 0. */
  lemma {:induction false} BothZeroOnlyAfterFields(lat: Result<int, Message>, lon: Result<int, Message>)
    ensures Combine(lat, lon) == Failure([Problem(NonFieldKey, BothZero)]) <==> lat == Success(0) && lon == Success(0)
    ensures Combine(lat, lon).Success? <==> lat.Success? && lon.Success? && !(lat.value == 0 && lon.value == 0)
    ensures Combine(lat, lon).Success? ==> Combine(lat, lon).value == (lat.value, lon.value)
  {
    if lat.Failure? || lon.Failure? {
      var errors := (if lat.Failure? then [Problem(LatitudeKey, lat.error)] else [])
        + (if lon.Failure? then [Problem(LongitudeKey, lon.error)] else []);
      assert errors[0].key != NonFieldKey;
    }
  }

  /** A missing coordinate is reported as required under its own key. */
  lemma {:induction false} MissingIsRequired(lat: Option<Decimal>, lon: Option<Decimal>)
    ensures lat == None ==> ValidateAsWritten(lat, lon).Failure? && ValidateAsWritten(lat, lon).error[0] == Problem(LatitudeKey, Required)
    ensures lon == None ==> ValidateAsWritten(lat, lon).Failure? && Problem(LongitudeKey, Required) in ValidateAsWritten(lat, lon).error
  {
  }

  /**
   * The serializer as written accepts, for decimals written with at most 20
   * places and no positive exponent, exactly the latitudes -10 < v <= 90 and
   * the longitudes -100 < v < 100 that are not both zero.
   */
  lemma {:induction false} AsWrittenAccepts(lat: Decimal, lon: Decimal)
    requires FitsPlaces(lat, Places) && lat.exponent <= 0 && FitsPlaces(lon, Places) && lon.exponent <= 0
    ensures ValidateAsWritten(Some(lat), Some(lon)).Success? <==>
      && -10 * One < Units(lat) <= 90 * One
      && -100 * One < Units(lon) < 100 * One
      && !(Units(lat) == 0 && Units(lon) == 0)
  {
    QuantizeMagnitude(22, Places, lat);
    QuantizeMagnitude(22, Places, lon);
    OneIsPow10();
    Pow10Add(2, Places);
    assert Pow10(22) == 100 * One;
    LatitudeAsWrittenAccepts(Units(lat));
    LongitudeAsWrittenAccepts(Units(lon));
    BothZeroOnlyAfterFields(AxisValue(22, Some(lat), LatitudeAsWritten), AxisValue(22, Some(lon), LongitudeAsWritten));
  }

  /**
   * The intended serializer accepts only latitudes in [-90, 90] and longitudes
   * in [-180, 180], not both zero, and returns them unchanged.
   */
  lemma {:induction false} ValidateSound(lat: Decimal, lon: Decimal)
    ensures var r := Validate(Some(lat), Some(lon));
      r.Success? ==>
        && FitsPlaces(lat, Places) && FitsPlaces(lon, Places)
        && r.value == (Units(lat), Units(lon))
        && -90 * One <= Units(lat) <= 90 * One
        && -180 * One <= Units(lon) <= 180 * One
        && !(Units(lat) == 0 && Units(lon) == 0)
  {
    QuantizeMagnitude(22, Places, lat);
    QuantizeMagnitude(23, Places, lon);
    BothZeroOnlyAfterFields(AxisValue(22, Some(lat), LatitudeChecked), AxisValue(23, Some(lon), LongitudeChecked));
    if Validate(Some(lat), Some(lon)).Success? {
      LatitudeCheckedAccepts(Units(lat));
      LongitudeCheckedAccepts(Units(lon));
    }
  }

  /**
   * The intended serializer accepts, for decimals written with at most 20
   * places and no positive exponent, every latitude in [-90, 90] and every
   * longitude in [-180, 180] that are not both zero.
   */
  lemma {:induction false} ValidateAccepts(lat: Decimal, lon: Decimal)
    requires FitsPlaces(lat, Places) && lat.exponent <= 0 && FitsPlaces(lon, Places) && lon.exponent <= 0
    ensures Validate(Some(lat), Some(lon)).Success? <==>
      && -90 * One <= Units(lat) <= 90 * One
      && -180 * One <= Units(lon) <= 180 * One
      && !(Units(lat) == 0 && Units(lon) == 0)
  {
    QuantizeMagnitude(22, Places, lat);
    QuantizeMagnitude(23, Places, lon);
    OneIsPow10();
    Pow10Add(2, Places);
    Pow10Add(3, Places);
    assert Pow10(22) == 100 * One && Pow10(23) == 1000 * One;
    LatitudeCheckedAccepts(Units(lat));
    LongitudeCheckedAccepts(Units(lon));
    BothZeroOnlyAfterFields(AxisValue(22, Some(lat), LatitudeChecked), AxisValue(23, Some(lon), LongitudeChecked));
  }

  /** The southern latitude -45.5 is refused by the code as written, and kept by the intended check. */
  lemma {:induction false} SouthernLatitudeRefused(lat: Decimal, lon: Decimal)
    requires lat == Decimal(true, 455, -1) && lon == Decimal(false, 77, 0)
    ensures ValidateAsWritten(Some(lat), Some(lon)) == Failure([Problem(LatitudeKey, LatitudeDigits)])
    ensures Validate(Some(lat), Some(lon)).Success?
  {
    SouthernAxes(lat, lon);
    assert [Problem(LatitudeKey, LatitudeDigits)] + [] == [Problem(LatitudeKey, LatitudeDigits)];
    SouthernInRange(lat, lon);
    ValidateAccepts(lat, lon);
  }

  /** The values of -45.5 and 77 in units of 10^-20. */
  lemma {:induction false} SouthernUnits(lat: Decimal, lon: Decimal)
    requires lat == Decimal(true, 455, -1) && lon == Decimal(false, 77, 0)
    ensures Units(lat) == -455 * Pow10(19) && Units(lon) == 77 * Pow10(20)
    ensures Pow10(20) == 10 * Pow10(19) && One == Pow10(20)
  {
    OneIsPow10();
  }

  /** Each axis of -45.5, 77 under the code as written. */
  lemma {:induction false} SouthernAxes(lat: Decimal, lon: Decimal)
    requires lat == Decimal(true, 455, -1) && lon == Decimal(false, 77, 0)
    ensures AxisValue(22, Some(lat), LatitudeAsWritten) == Failure(LatitudeDigits)
    ensures AxisValue(22, Some(lon), LongitudeAsWritten) == Success(Units(lon))
  {
    SouthernUnits(lat, lon);
    SouthernLatitudeAxis(lat);
    assert PrecisionOf(lon) == Precision(2, 2, 0);
    LongitudeAsWrittenAccepts(Units(lon));
  }

  lemma {:induction false} SouthernLatitudeAxis(lat: Decimal)
    requires lat == Decimal(true, 455, -1) && Units(lat) == -455 * Pow10(19)
    requires Pow10(20) == 10 * Pow10(19) && One == Pow10(20)
    ensures AxisValue(22, Some(lat), LatitudeAsWritten) == Failure(LatitudeDigits)
  {
    assert PrecisionOf(lat) == Precision(3, 2, 1);
    LatitudeAsWrittenAccepts(Units(lat));
  }

  /** -45.5, 77 lie within the intended ranges. */
  lemma {:induction false} SouthernInRange(lat: Decimal, lon: Decimal)
    requires lat == Decimal(true, 455, -1) && lon == Decimal(false, 77, 0)
    ensures -90 * One <= Units(lat) <= 90 * One && -180 * One <= Units(lon) <= 180 * One && Units(lon) != 0
  {
    SouthernUnits(lat, lon);
  }

  /** The eastern longitude 120.5 is refused by the 22-digit field, and kept by the intended one. */
  lemma {:induction false} EasternLongitudeRefused(lat: Decimal, lon: Decimal)
    requires lat == Decimal(false, 129, -1) && lon == Decimal(false, 1205, -1)
    ensures ValidateAsWritten(Some(lat), Some(lon)) == Failure([Problem(LongitudeKey, Digits(MaxWholeDigits(2)))])
    ensures Validate(Some(lat), Some(lon)).Success?
  {
    EasternAxes(lat, lon);
    assert [] + [Problem(LongitudeKey, Digits(MaxWholeDigits(2)))] == [Problem(LongitudeKey, Digits(MaxWholeDigits(2)))];
    EasternInRange(lat, lon);
    ValidateAccepts(lat, lon);
  }

  /** The values of 12.9 and 120.5 in units of 10^-20. */
  lemma {:induction false} EasternUnits(lat: Decimal, lon: Decimal)
    requires lat == Decimal(false, 129, -1) && lon == Decimal(false, 1205, -1)
    ensures Units(lat) == 129 * Pow10(19) && Units(lon) == 1205 * Pow10(19)
    ensures Pow10(20) == 10 * Pow10(19) && One == Pow10(20)
  {
    OneIsPow10();
  }

  /** Each axis of 12.9, 120.5 under the code as written. */
  lemma {:induction false} EasternAxes(lat: Decimal, lon: Decimal)
    requires lat == Decimal(false, 129, -1) && lon == Decimal(false, 1205, -1)
    ensures AxisValue(22, Some(lat), LatitudeAsWritten) == Success(Units(lat))
    ensures AxisValue(22, Some(lon), LongitudeAsWritten) == Failure(Digits(MaxWholeDigits(2)))
  {
    EasternUnits(lat, lon);
    assert PrecisionOf(lat) == Precision(3, 2, 1);
    LatitudeAsWrittenAccepts(Units(lat));
    assert PrecisionOf(lon) == Precision(4, 3, 1);
  }

  /** 12.9, 120.5 lie within the intended ranges. */
  lemma {:induction false} EasternInRange(lat: Decimal, lon: Decimal)
    requires lat == Decimal(false, 129, -1) && lon == Decimal(false, 1205, -1)
    ensures -90 * One <= Units(lat) <= 90 * One && -180 * One <= Units(lon) <= 180 * One && Units(lon) != 0
  {
    EasternUnits(lat, lon);
  }
}
