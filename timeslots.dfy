/**
 * Visit time slots: the write serializer reads each end of a slot with
 * `datetime.strptime(text, "%I:%M %p")`, the list serializer prints it with
 * `time.strftime("%I:%M %p")`.
 *
 * `strptime` matches the format as a regular expression anchored at the
 * start: `%I` is `1[0-2]|0[1-9]|[1-9]`, `%M` is `[0-5]\d|\d`, the space is
 * `\s+`, `%p` is `am|pm` ignoring case, and text left over after the match is
 * an error. 12 AM is hour 0 and 12 PM is hour 12.
 */
module TimeSlots {
  import opened Wrappers
  import opened Text

  /** `datetime.time` to the minute. */
  datatype Time = Time(hour: nat, minute: nat)

  predicate ValidTime(t: Time) { t.hour < 24 && t.minute < 60 }

  function TwoDigitValue(a: char, b: char): nat
    requires IsDigit(a) && IsDigit(b)
  {
    10 * DigitValue(a) + DigitValue(b)
  }

  /** `%I` followed by `:`: the hour (1 to 12) and the text after the colon. */
  function HourPart(s: string): (r: Option<(nat, string)>)
    ensures r.Some? ==> 1 <= r.value.0 <= 12 && |r.value.1| < |s|
  {
    if |s| >= 3 && IsDigit(s[0]) && IsDigit(s[1]) && s[2] == ':' && 1 <= TwoDigitValue(s[0], s[1]) <= 12 then
      Some((TwoDigitValue(s[0], s[1]), s[3..]))
    else if |s| >= 2 && '1' <= s[0] <= '9' && s[1] == ':' then
      Some((DigitValue(s[0]), s[2..]))
    else
      None
  }

  /** `%M` followed by whitespace: the minute (0 to 59) and the text from the whitespace on. */
  function MinutePart(s: string): (r: Option<(nat, string)>)
    ensures r.Some? ==> r.value.0 < 60 && r.value.1 != [] && StrSpace(r.value.1[0])
  {
    if |s| >= 3 && '0' <= s[0] <= '5' && IsDigit(s[1]) && StrSpace(s[2]) then
      Some((TwoDigitValue(s[0], s[1]), s[2..]))
    else if |s| >= 2 && IsDigit(s[0]) && StrSpace(s[1]) then
      Some((DigitValue(s[0]), s[1..]))
    else
      None
  }

  /** What is left after the leading whitespace. */
  function DropSpaces(s: string): (r: string)
    ensures |r| <= |s| && (r == [] || !StrSpace(r[0]))
  {
    if s != [] && StrSpace(s[0]) then DropSpaces(s[1..]) else s
  }

  /** The 24-hour clock hour of a 12-hour clock hour. */
  function ClockHour(h: nat, pm: bool): nat
  {
    if pm then (if h == 12 then 12 else h + 12) else (if h == 12 then 0 else h)
  }

  /** `datetime.strptime(s, "%I:%M %p").time()`; `None` where it raises `ValueError`. */
  function ParseTime(s: string): (r: Option<Time>)
    ensures r.Some? ==> ValidTime(r.value)
  {
    match HourPart(s)
    case None => None
    case Some((h, afterHour)) =>
      match MinutePart(afterHour)
      case None => None
      case Some((m, afterMinute)) =>
        var marker := LowerAll(DropSpaces(afterMinute));
        if marker == "am" then Some(Time(ClockHour(h, false), m))
        else if marker == "pm" then Some(Time(ClockHour(h, true), m))
        else None
  }

  /** A number below 100 as two digits, zero padded. */
  function TwoDigits(n: nat): (s: string)
    requires n < 100
    ensures |s| == 2 && IsDigit(s[0]) && IsDigit(s[1]) && TwoDigitValue(s[0], s[1]) == n
  {
    [DigitChar(n / 10), DigitChar(n % 10)]
  }

  /** The 12-hour clock hour of a 24-hour clock hour. */
  function DialHour(hour: nat): (h: nat)
    ensures 1 <= h <= 12
  {
    if hour % 12 == 0 then 12 else hour % 12
  }

  /** `time.strftime("%I:%M %p")`. */
  function FormatTime(t: Time): string
    requires ValidTime(t)
  {
    TwoDigits(DialHour(t.hour)) + ":" + TwoDigits(t.minute) + " " + (if t.hour < 12 then "AM" else "PM")
  }

  /** The shape `strftime` prints: `hh:mm AM` or `hh:mm PM`. */
  predicate Canonical(s: string)
  {
    && |s| == 8
    && IsDigit(s[0]) && IsDigit(s[1]) && s[2] == ':'
    && IsDigit(s[3]) && IsDigit(s[4]) && s[5] == ' '
    && (s[6..] == "AM" || s[6..] == "PM")
  }

  /** The 12-hour hour and the marker give back the 24-hour hour. */
  lemma {:induction false} ClockOfDial(hour: nat)
    requires hour < 24
    ensures ClockHour(DialHour(hour), hour >= 12) == hour
  {
  }

  /** `12 AM` is midnight and `12 PM` is noon. */
  lemma {:induction false} TwelveOClock()
    ensures ClockHour(12, false) == 0 && ClockHour(12, true) == 12
    ensures forall h :: 1 <= h < 12 ==> ClockHour(h, false) == h && ClockHour(h, true) == h + 12
  {
  }

  /** Printing then reading a time gives the time back. */
  lemma {:induction false} ParseFormat(t: Time)
    requires ValidTime(t)
    ensures ParseTime(FormatTime(t)) == Some(t)
  {
    var s := FormatTime(t);
    var h := DialHour(t.hour);
    var hh, mm := TwoDigits(h), TwoDigits(t.minute);
    var marker := if t.hour < 12 then "AM" else "PM";
    assert s == hh + ":" + mm + " " + marker;
    assert HourPart(s) == Some((h, s[3..]));
    assert s[3..] == mm + " " + marker;
    assert MinutePart(s[3..]) == Some((t.minute, s[5..]));
    assert DropSpaces(s[5..]) == marker by {
      assert s[5..][1..] == marker;
    }
    assert LowerAll(marker) == if t.hour < 12 then "am" else "pm";
    ClockOfDial(t.hour);
  }

  /** Looser spellings are read too: a one-digit hour and a lower-case marker. */
  lemma LooseHourAndMarker()
    ensures ParseTime("9:05 pm") == Some(Time(21, 5))
  {
    assert "9:05 pm"[2..] == "05 pm" && "05 pm"[2..] == " pm" && " pm"[1..] == "pm";
  }

  /** Looser spellings are read too: a one-digit minute and several spaces. */
  lemma LooseMinuteAndSpaces()
    ensures ParseTime("12:7   am") == Some(Time(0, 7))
  {
    assert "12:7   am"[3..] == "7   am" && "7   am"[1..] == "   am";
    assert "   am"[1..] == "  am" && "  am"[1..] == " am" && " am"[1..] == "am";
  }

  /** Separator 0x1c matches `\s+` in a `str` pattern, so it may stand for the space. */
  lemma SeparatorAsSpace()
    ensures ParseTime("09:05" + [28 as char] + "PM") == Some(Time(21, 5))
  {
    var s := "09:05" + [28 as char] + "PM";
    var rest := [28 as char] + "PM";
    assert s[3..] == "05" + rest;
    assert HourPart(s) == Some((9, "05" + rest));
    assert ("05" + rest)[2..] == rest;
    assert MinutePart("05" + rest) == Some((5, rest));
    assert rest[1..] == "PM";
    assert DropSpaces(rest) == "PM";
    assert LowerAll("PM") == "pm";
  }

  /** An hour past 12, a minute past 59 or text after the marker is refused. */
  lemma HourOutOfPattern()
    ensures ParseTime("13:00 PM") == None
  {
  }

  lemma MinuteOutOfPattern()
    ensures ParseTime("10:60 AM") == None
  {
    assert "10:60 AM"[3..] == "60 AM";
  }

  lemma TrailingSpaceOutOfPattern()
    ensures ParseTime("10:30 PM ") == None
  {
    assert "10:30 PM "[3..] == "30 PM " && "30 PM "[2..] == " PM " && " PM "[1..] == "PM ";
  }

  /** What `strftime` prints is in the canonical shape. */
  lemma {:induction false} FormatCanonical(t: Time)
    requires ValidTime(t)
    ensures Canonical(FormatTime(t))
  {
    var s := FormatTime(t);
    assert s[6..] == if t.hour < 12 then "AM" else "PM";
  }

  /** How `strptime` reads a canonical string: two-digit hour and minute, then the marker. */
  lemma {:induction false} CanonicalReads(s: string)
    requires Canonical(s) && ParseTime(s).Some?
    ensures var h, m := TwoDigitValue(s[0], s[1]), TwoDigitValue(s[3], s[4]);
      && 1 <= h <= 12 && m < 60
      && ParseTime(s) == Some(Time(ClockHour(h, s[6..] == "PM"), m))
  {
    var h := TwoDigitValue(s[0], s[1]);
    assert HourPart(s) == Some((h, s[3..]));
    var m := TwoDigitValue(s[3], s[4]);
    assert s[3..][2..] == s[5..];
    assert MinutePart(s[3..]) == Some((m, s[5..]));
    assert DropSpaces(s[5..]) == s[6..] by {
      assert s[5..][1..] == s[6..];
    }
    assert LowerAll(s[6..]) == if s[6..] == "PM" then "pm" else "am";
  }

  /** A canonical string is what `strftime` prints for the hour and minute written in it. */
  lemma {:induction false} CanonicalPrinted(s: string, h: nat, m: nat)
    requires Canonical(s) && h == TwoDigitValue(s[0], s[1]) && m == TwoDigitValue(s[3], s[4])
    requires 1 <= h <= 12 && m < 60
    ensures ValidTime(Time(ClockHour(h, s[6..] == "PM"), m))
    ensures FormatTime(Time(ClockHour(h, s[6..] == "PM"), m)) == s
  {
    var pm := s[6..] == "PM";
    var t := Time(ClockHour(h, pm), m);
    assert DialHour(t.hour) == h;
    assert TwoDigits(h) == s[..2] by {
      assert DigitChar(h / 10) == s[0] && DigitChar(h % 10) == s[1];
    }
    assert TwoDigits(m) == s[3..5] by {
      assert DigitChar(m / 10) == s[3] && DigitChar(m % 10) == s[4];
    }
    assert (if t.hour < 12 then "AM" else "PM") == s[6..];
    assert s == s[..2] + ":" + s[3..5] + " " + s[6..];
  }

  /**
   * A canonical string that `strptime` reads is printed back unchanged; other
   * accepted spellings (`9:05 pm`, several spaces) are normalised.
   */
  lemma {:induction false} CanonicalRoundTrip(s: string)
    requires Canonical(s) && ParseTime(s).Some?
    ensures ValidTime(ParseTime(s).value) && FormatTime(ParseTime(s).value) == s
  {
    CanonicalReads(s);
    CanonicalPrinted(s, TwoDigitValue(s[0], s[1]), TwoDigitValue(s[3], s[4]));
  }

  /** Two different times print differently. */
  lemma {:induction false} FormatInjective(t1: Time, t2: Time)
    requires ValidTime(t1) && ValidTime(t2)
    ensures FormatTime(t1) == FormatTime(t2) <==> t1 == t2
  {
    ParseFormat(t1);
    ParseFormat(t2);
  }

  /** A request key that is missing (`KeyError`) or unreadable (`ValueError`); neither is a validation error. */
  datatype SlotError = Missing(key: string) | Unreadable(key: string)

  /** `TimeSlotSerializer.to_internal_value`: start time first, then end time. */
  function ReadSlot(start: Option<string>, end: Option<string>): (r: Result<(Time, Time), SlotError>)
  {
    if start.None? then Failure(Missing("start_time"))
    else if ParseTime(start.value).None? then Failure(Unreadable("start_time"))
    else if end.None? then Failure(Missing("end_time"))
    else if ParseTime(end.value).None? then Failure(Unreadable("end_time"))
    else Success((ParseTime(start.value).value, ParseTime(end.value).value))
  }

  /** `TimeSlotListSerializer`: both ends printed with `strftime`. */
  function ShowSlot(start: Time, end: Time): (r: (string, string))
    requires ValidTime(start) && ValidTime(end)
  {
    (FormatTime(start), FormatTime(end))
  }

  /** A slot as the list serializer prints it is read back as the same slot. */
  lemma {:induction false} SlotRoundTrip(start: Time, end: Time)
    requires ValidTime(start) && ValidTime(end)
    ensures var shown := ShowSlot(start, end);
      ReadSlot(Some(shown.0), Some(shown.1)) == Success((start, end))
  {
    ParseFormat(start);
    ParseFormat(end);
  }

  /** A slot is read exactly when both ends are present and readable, and each end is read alone. */
  lemma {:induction false} ReadSlotAccepts(start: Option<string>, end: Option<string>)
    ensures ReadSlot(start, end).Success? <==>
      start.Some? && end.Some? && ParseTime(start.value).Some? && ParseTime(end.value).Some?
    ensures ReadSlot(start, end).Success? ==>
      && ValidTime(ReadSlot(start, end).value.0) && ValidTime(ReadSlot(start, end).value.1)
      && Some(ReadSlot(start, end).value.0) == ParseTime(start.value)
      && Some(ReadSlot(start, end).value.1) == ParseTime(end.value)
  {
  }
}
