/**
 * `PhoneNumberSerializer`: the `phone_number` field of the OTP login
 * requests. DRF's `CharField(required=True)` turns the submitted value into a
 * string with surrounding whitespace removed, refuses a missing, null or
 * blank value and, through its validators, a value holding a null character;
 * `validate_phone_number` then requires exactly ten digits.
 */
module PhoneNumbers {
  import opened Wrappers
  import opened Text
  import opened JsonData

  /** The field error raised for the submitted value. */
  datatype PhoneError =
    | Required  // "This field is required."
    | NotNull  // "This field may not be null."
    | Blank  // "This field may not be blank."
    | NotString  // "Not a valid string."
    | NullCharacter  // "Null characters are not allowed."
    | NotTenDigits  // "Phone number must be exactly 10 digits."

  /** `validate_phone_number(value)`: exactly ten digits, returned unchanged. */
  function ValidatePhoneNumber(value: string): (r: Result<string, PhoneError>)
    ensures r.Success? <==> |value| == 10 && AllDigits(value)
    ensures r.Success? ==> r.value == value
    ensures r.Failure? ==> r.error == NotTenDigits
  {
    if !(|value| >= 1 && AllDigits(value)) || |value| != 10 then Failure(NotTenDigits) else Success(value)
  }

  /**
   * The whole field: presence, null, `CharField.to_internal_value` (a string
   * or a number, as text, stripped), the blank check, the null-character
   * validator, then `validate_phone_number`.
   */
  function PhoneNumberField(data: Option<Json>): (r: Result<string, PhoneError>)
  {
    if data.None? then Failure(Required)
    else
      var d := data.value;
      if d == JNull then Failure(NotNull)
      else if d.JStr? && Strip(d.s) == [] then Failure(Blank)
      else if !d.JStr? && !d.JInt? then Failure(NotString)
      else
        var v := Strip(PyStr(d));
        if '\0' in v then Failure(NullCharacter) else ValidatePhoneNumber(v)
  }

  /**
   * A submitted string is accepted exactly when, once stripped, it is ten
   * digits; the stripped string is what the serializer keeps.
   */
  lemma {:induction false} PhoneStringAccepted(s: string)
    ensures PhoneNumberField(Some(JStr(s))).Success? <==> |Strip(s)| == 10 && AllDigits(Strip(s))
    ensures PhoneNumberField(Some(JStr(s))).Success? ==> PhoneNumberField(Some(JStr(s))).value == Strip(s)
    ensures Strip(s) == [] ==> PhoneNumberField(Some(JStr(s))) == Failure(Blank)
  {
    var v := Strip(s);
    if '\0' in v {
      var i :| 0 <= i < |v| && v[i] == '\0';
      assert !IsDigit(v[i]);
    }
  }

  /** A non-blank string is judged by `validate_phone_number` on its stripped form. */
  lemma {:induction false} StringField(s: string)
    requires Strip(s) != []
    ensures PhoneNumberField(Some(JStr(s))) ==
      if '\0' in Strip(s) then Failure(NullCharacter) else ValidatePhoneNumber(Strip(s))
  {
  }

  /** A digit string of any length but ten (nine or eleven, say) is refused. */
  lemma {:induction false} WrongLengthRefused(s: string)
    requires |s| >= 1 && AllDigits(s) && |s| != 10
    ensures PhoneNumberField(Some(JStr(s))) == Failure(NotTenDigits)
  {
    assert IsDigit(s[0]) && IsDigit(s[|s| - 1]);
    StripUnchanged(s);
    StringField(s);
  }

  /** A leading `+`, an inner space or a letter makes a number fail. */
  lemma {:induction false} NonDigitRefused(s: string, k: nat)
    requires k < |s| && !IsDigit(s[k]) && !StrSpace(s[k])
    ensures PhoneNumberField(Some(JStr(s))) == Failure(if '\0' in Strip(s) then NullCharacter else NotTenDigits)
  {
    var t := TrimStart(s);
    var m := Strip(s);
    var a := |s| - |t|;
    assert a <= k;
    assert t[k - a] == s[k];
    assert k - a < |m|;
    assert m[k - a] == s[k];
  }

  /** A JSON number is read as its decimal text: ten-digit numbers pass, as strings. */
  lemma {:induction false} NumberAccepted(n: nat)
    requires 1_000_000_000 <= n < 10_000_000_000
    ensures PhoneNumberField(Some(JInt(n))) == Success(NatToString(n))
  {
    var s := NatToString(n);
    assert Pow10(9) == 1_000_000_000 && Pow10(10) == 10_000_000_000;
    NatToStringLength(n, 10);
    assert !StrSpace(s[0]) && !StrSpace(s[9]);
    StripUnchanged(s);
  }

  /** Information separator 0x1c is whitespace to `str.strip()`, so a number behind it passes. */
  lemma {:induction false} SeparatorStripped()
    ensures PhoneNumberField(Some(JStr([28 as char] + "9876543210"))) == Success("9876543210")
  {
    var s := [28 as char] + "9876543210";
    assert s[1..] == "9876543210";
    assert TrimStart(s[1..]) == "9876543210";
    assert TrimStart(s) == "9876543210";
    StripUnchanged("9876543210");
  }

  /** A null character inside the number is refused by CharField's validator, before the digit check. */
  lemma {:induction false} NullCharacterRefused()
    ensures PhoneNumberField(Some(JStr("98765\043210"))) == Failure(NullCharacter)
  {
    var s := "98765\043210";
    StripUnchanged(s);
    assert s[5] == '\0';
  }
}
