/**
 * The small helpers of the common application: slug display names,
 * `custom_capitalize`, `get_first_of`, `flatten`, `is_any_or_list1_in_list2`,
 * `random_n_digits`, and the one-time-password cache kept by `generate_otp`
 * and `validate_otp`.
 */
module Helpers {
  import opened Wrappers
  import opened Text
  import opened JsonData

  // ---------------------------------------------------------------------
  // Display names
  // ---------------------------------------------------------------------

  /** How `str.title()` cases one character, given whether a letter precedes it. */
  function TitleChar(afterLetter: bool, c: char): char
  {
    if afterLetter then Lower(c) else Upper(c)
  }

  /** `str.title()` from a position whose previous character is (or is not) a letter. */
  function TitleFrom(s: string, afterLetter: bool): (r: string)
    ensures |r| == |s|
  {
    if s == [] then [] else [TitleChar(afterLetter, s[0])] + TitleFrom(s[1..], IsLetter(s[0]))
  }

  /** Python's `str.title()`: a letter is upper case when it follows a non-letter, lower case otherwise. */
  function Title(s: string): (r: string)
  {
    TitleFrom(s, false)
  }

  /** Each character of `TitleFrom` is decided by the character before it. */
  lemma {:induction false} TitleFromSpec(s: string, afterLetter: bool)
    ensures |s| > 0 ==> TitleFrom(s, afterLetter)[0] == TitleChar(afterLetter, s[0])
    ensures forall i :: 0 < i < |s| ==> TitleFrom(s, afterLetter)[i] == TitleChar(IsLetter(s[i - 1]), s[i])
  {
    if s != [] {
      var tail := TitleFrom(s[1..], IsLetter(s[0]));
      assert TitleFrom(s, afterLetter) == [TitleChar(afterLetter, s[0])] + tail;
      TitleFromSpec(s[1..], IsLetter(s[0]));
      forall i | 0 < i < |s|
        ensures TitleFrom(s, afterLetter)[i] == TitleChar(IsLetter(s[i - 1]), s[i])
      {
        assert TitleFrom(s, afterLetter)[i] == tail[i - 1];
        if i > 1 {
          assert s[1..][i - 2] == s[i - 1];
        }
      }
    }
  }

  /**
   * `get_display_name_for_slug`: underscores become spaces and the result is
   * title-cased; a value that is not a string comes back unchanged (the
   * `AttributeError` is swallowed).
   */
  function DisplayName(slug: Json): (r: Json)
  {
    if slug.JStr? then JStr(Title(Replace(slug.s, '_', ' '))) else slug
  }

  /** What a slug character becomes in the display name, given the character before it (if any). */
  function DisplayChar(first: bool, previous: char, c: char): char
  {
    if c == '_' then ' ' else if first || !IsLetter(previous) then Upper(c) else Lower(c)
  }

  /**
   * A display name has the slug's length, a space for every underscore, an
   * upper-case letter at the start of every word and lower case elsewhere.
   */
  lemma {:induction false} DisplayNameSpec(slug: Json)
    ensures !slug.JStr? ==> DisplayName(slug) == slug
    ensures slug.JStr? ==> DisplayName(slug).JStr? && |DisplayName(slug).s| == |slug.s|
    ensures slug.JStr? && |slug.s| > 0 ==> DisplayName(slug).s[0] == DisplayChar(true, ' ', slug.s[0])
    ensures slug.JStr? ==> forall i :: 0 < i < |slug.s| ==>
      DisplayName(slug).s[i] == DisplayChar(false, slug.s[i - 1], slug.s[i])
    ensures slug.JStr? ==> '_' !in DisplayName(slug).s
  {
    if slug.JStr? {
      var s := slug.s;
      var spaced := Replace(s, '_', ' ');
      TitleFromSpec(spaced, false);
      var r := DisplayName(slug).s;
      assert r == TitleFrom(spaced, false);
      forall i | 0 < i < |s|
        ensures r[i] == DisplayChar(false, s[i - 1], s[i])
      {
        assert r[i] == TitleChar(IsLetter(spaced[i - 1]), spaced[i]);
      }
      forall i | 0 <= i < |r|
        ensures r[i] != '_'
      {
        assert spaced[i] != '_';
        if i == 0 {
          assert r[i] == Upper(spaced[i]);
        } else {
          assert r[i] == TitleChar(IsLetter(spaced[i - 1]), spaced[i]);
        }
      }
    }
  }

  // ---------------------------------------------------------------------
  // custom_capitalize
  // ---------------------------------------------------------------------

  function CapitalizeAll(pieces: seq<string>): (r: seq<string>)
    ensures |r| == |pieces|
    ensures forall i :: 0 <= i < |pieces| ==> r[i] == Capitalize(pieces[i])
  {
    if pieces == [] then [] else [Capitalize(pieces[0])] + CapitalizeAll(pieces[1..])
  }

  /** `custom_capitalize`: split on `_`, capitalise every piece, join with single spaces. */
  function CustomCapitalize(s: string): (r: string)
  {
    Join(CapitalizeAll(Split(s, '_')), " ")
  }

  /** What `custom_capitalize` makes of one character, given whether it starts a piece. */
  function CapChar(atStart: bool, c: char): char
  {
    if c == '_' then ' ' else if atStart then Upper(c) else Lower(c)
  }

  /**
   * The same text, character by character: an underscore becomes a space, the
   * first character of a piece is upper-cased and the rest lower-cased.
   */
  function CapitalizedFrom(s: string, atStart: bool): (r: string)
    ensures |r| == |s|
  {
    if s == [] then [] else [CapChar(atStart, s[0])] + CapitalizedFrom(s[1..], s[0] == '_')
  }

  /** Capitalising the concatenation: the second part starts where the first left off. */
  lemma {:induction false} CapitalizedFromAppend(a: string, b: string, atStart: bool)
    ensures CapitalizedFrom(a + b, atStart) ==
      CapitalizedFrom(a, atStart) + CapitalizedFrom(b, if a == [] then atStart else a[|a| - 1] == '_')
  {
    if a == [] {
      assert a + b == b;
    } else {
      assert (a + b)[0] == a[0];
      assert (a + b)[1..] == a[1..] + b;
      CapitalizedFromAppend(a[1..], b, a[0] == '_');
      if |a| > 1 {
        assert a[1..][|a| - 2] == a[|a| - 1];
      }
    }
  }

  /** Inside a piece (no underscore) every character after the first is lower-cased. */
  lemma {:induction false} LowerPiece(p: string)
    requires '_' !in p
    ensures CapitalizedFrom(p, false) == LowerAll(p)
  {
    if p != [] {
      assert '_' !in p[1..];
      LowerPiece(p[1..]);
    }
  }

  /** A piece capitalised from its start is `str.capitalize` of the piece. */
  lemma {:induction false} CapitalizedPiece(p: string)
    requires '_' !in p
    ensures CapitalizedFrom(p, true) == Capitalize(p)
  {
    if p != [] {
      assert '_' !in p[1..];
      LowerPiece(p[1..]);
    }
  }

  /** Capitalising a piece, an underscore and the rest. */
  lemma {:induction false} UnderscoreStep(p: string, tail: string)
    requires '_' !in p
    ensures CapitalizedFrom(p + ("_" + tail), true) == Capitalize(p) + " " + CapitalizedFrom(tail, true)
  {
    CapitalizedPiece(p);
    CapitalizedFromAppend(p, "_" + tail, true);
    var after := if p == [] then true else p[|p| - 1] == '_';
    assert ("_" + tail)[0] == '_' && ("_" + tail)[1..] == tail;
    assert CapitalizedFrom("_" + tail, after) == " " + CapitalizedFrom(tail, true);
  }

  /**
   * Capitalising pieces and joining them with spaces is capitalising the
   * pieces joined with underscores.
   */
  lemma {:induction false} JoinedPieces(ps: seq<string>)
    requires |ps| >= 1 && forall i :: 0 <= i < |ps| ==> '_' !in ps[i]
    ensures Join(CapitalizeAll(ps), " ") == CapitalizedFrom(Join(ps, "_"), true)
  {
    if |ps| == 1 {
      CapitalizedPiece(ps[0]);
    } else {
      JoinedPieces(ps[1..]);
      JoinedPiecesStep(ps);
    }
  }

  /** One step of `JoinedPieces`: from the pieces after the first to all of them. */
  lemma {:induction false} JoinedPiecesStep(ps: seq<string>)
    requires |ps| >= 2 && forall i :: 0 <= i < |ps| ==> '_' !in ps[i]
    requires Join(CapitalizeAll(ps[1..]), " ") == CapitalizedFrom(Join(ps[1..], "_"), true)
    ensures Join(CapitalizeAll(ps), " ") == CapitalizedFrom(Join(ps, "_"), true)
  {
    var rest := ps[1..];
    var caps := CapitalizeAll(ps);
    assert caps[1..] == CapitalizeAll(rest);
    assert Join(caps, " ") == Capitalize(ps[0]) + " " + Join(CapitalizeAll(rest), " ");
    var tail := Join(rest, "_");
    assert Join(ps, "_") == ps[0] + ("_" + tail);
    assert '_' !in ps[0];
    UnderscoreStep(ps[0], tail);
  }

  /**
   * `custom_capitalize` is the character-by-character capitalisation: it keeps
   * the length, turns every underscore into a space and capitalises the start
   * of every piece.
   */
  lemma {:induction false} CustomCapitalizeSpec(s: string)
    ensures CustomCapitalize(s) == CapitalizedFrom(s, true)
  {
    var ps := Split(s, '_');
    JoinedPieces(ps);
    SplitJoin(s, '_');
  }

  /** The character-by-character form: what becomes of each character of `s`. */
  lemma {:induction false} CapitalizedFromSpec(s: string, atStart: bool)
    ensures |s| > 0 ==> CapitalizedFrom(s, atStart)[0] == CapChar(atStart, s[0])
    ensures forall i :: 0 < i < |s| ==> CapitalizedFrom(s, atStart)[i] == CapChar(s[i - 1] == '_', s[i])
  {
    if s != [] {
      var tail := CapitalizedFrom(s[1..], s[0] == '_');
      assert CapitalizedFrom(s, atStart) == [CapChar(atStart, s[0])] + tail;
      CapitalizedFromSpec(s[1..], s[0] == '_');
      forall i | 0 < i < |s|
        ensures CapitalizedFrom(s, atStart)[i] == CapChar(s[i - 1] == '_', s[i])
      {
        assert CapitalizedFrom(s, atStart)[i] == tail[i - 1];
        if i > 1 {
          assert s[1..][i - 2] == s[i - 1];
        }
      }
    }
  }

  // ---------------------------------------------------------------------
  // get_first_of, flatten, is_any_or_list1_in_list2
  // ---------------------------------------------------------------------

  /** `get_first_of(*args)`: the first truthy argument, or `None` (`JNull`). */
  method FirstOf(args: seq<Json>) returns (r: Json)
    ensures r == JNull <==> forall i :: 0 <= i < |args| ==> !Truthy(args[i])
    ensures r != JNull ==>
      exists i :: 0 <= i < |args| && args[i] == r && Truthy(r) && forall j :: 0 <= j < i ==> !Truthy(args[j])
  {
    for i := 0 to |args|
      invariant forall j :: 0 <= j < i ==> !Truthy(args[j])
    {
      if Truthy(args[i]) {
        return args[i];
      }
    }
    return JNull;
  }

  /** `flatten`: the sublists' items, in order. */
  function Flatten<T>(value: seq<seq<T>>): (r: seq<T>)
  {
    if value == [] then [] else value[0] + Flatten(value[1..])
  }

  /** Flattening distributes over concatenation of the outer list. */
  lemma {:induction false} FlattenAppend<T>(a: seq<seq<T>>, b: seq<seq<T>>)
    ensures Flatten(a + b) == Flatten(a) + Flatten(b)
  {
    if a == [] {
      assert a + b == b;
    } else {
      assert (a + b)[0] == a[0];
      assert (a + b)[1..] == a[1..] + b;
      FlattenAppend(a[1..], b);
    }
  }

  /** An item is in the flattened list exactly when it is in one of the sublists. */
  lemma {:induction false} FlattenMembers<T>(value: seq<seq<T>>, x: T)
    ensures x in Flatten(value) <==> exists i :: 0 <= i < |value| && x in value[i]
  {
    if value != [] {
      FlattenMembers(value[1..], x);
      if x in Flatten(value[1..]) {
        var i :| 0 <= i < |value[1..]| && x in value[1..][i];
        assert x in value[i + 1];
      }
      if exists i :: 0 <= i < |value| && x in value[i] {
        var i :| 0 <= i < |value| && x in value[i];
        if i > 0 {
          assert x in value[1..][i - 1];
        }
      }
    }
  }

  /** `is_any_or_list1_in_list2`: some element of `l1` is in `l2`. */
  function AnyIn<T(==)>(l1: seq<T>, l2: seq<T>): (b: bool)
    ensures b <==> exists i :: 0 <= i < |l1| && l1[i] in l2
  {
    if l1 == [] then false
    else if l1[0] in l2 then true
    else
      var rest := AnyIn(l1[1..], l2);
      assert rest <==> exists i :: 1 <= i < |l1| && l1[i] in l2 by {
        if exists i :: 1 <= i < |l1| && l1[i] in l2 {
          var i :| 1 <= i < |l1| && l1[i] in l2;
          assert l1[1..][i - 1] == l1[i];
        }
      }
      rest
  }

  /** The two lists share an element whichever way round they are asked. */
  lemma {:induction false} AnyInSymmetric<T>(l1: seq<T>, l2: seq<T>)
    ensures AnyIn(l1, l2) == AnyIn(l2, l1)
  {
    if AnyIn(l1, l2) {
      var i :| 0 <= i < |l1| && l1[i] in l2;
      var j :| 0 <= j < |l2| && l2[j] == l1[i];
      assert l2[j] in l1 && 0 <= j < |l2|;
      assert AnyIn(l2, l1);
    }
    if AnyIn(l2, l1) {
      var j :| 0 <= j < |l2| && l2[j] in l1;
      var i :| 0 <= i < |l1| && l1[i] == l2[j];
      assert l1[i] in l2 && 0 <= i < |l1|;
      assert AnyIn(l1, l2);
    }
  }

  // ---------------------------------------------------------------------
  // random_n_digits and the OTP cache
  // ---------------------------------------------------------------------

  /**
   * `random_n_digits(n)`: the decimal form of `random.randint(10^(n-1), 10^n - 1)`;
   * the draw is a parameter.
   */
  function RandomNDigits(n: nat, draw: nat): (r: string)
    requires n >= 1 && Pow10(n - 1) <= draw <= Pow10(n) - 1
    ensures |r| == n && AllDigits(r) && r[0] != '0' && DigitsValue(r) == draw
  {
    NatToStringLength(draw, n);
    NatToStringRoundTrip(draw);
    NatToString(draw)
  }

  /** The one phone number whose OTP is kept, compared as an integer. */
  const MasterPhone: int := 6380488587

  /** The OTP that always passes for that number. */
  const MasterOtp: int := 112244

  /** The cache key of the master phone: Django's cache builds keys from the text of the number. */
  const MasterKey: string := "6380488587"


  predicate IsMasterPhone(phone: Json) { PyEq(phone, JInt(MasterPhone)) }

  /** The cache after `generate_otp(phone)` produced `otp`. */
  function Generated(entries: map<string, string>, phone: Json, otp: string): (r: map<string, string>)
  {
    if IsMasterPhone(phone) then entries[MasterKey := otp] else entries
  }

  /** What `validate_otp(phone, otp)` answers for the cache `entries`. */
  predicate OtpAccepted(entries: map<string, string>, phone: Json, otp: Json)
  {
    !IsMasterPhone(phone) || (MasterKey in entries && PyStr(otp) == entries[MasterKey]) || PyEq(otp, JInt(MasterOtp))
  }

  /** The cache after `validate_otp(phone, otp)`: a successful check of the master phone deletes its entry. */
  function AfterValidation(entries: map<string, string>, phone: Json, otp: Json): (r: map<string, string>)
  {
    if IsMasterPhone(phone) && OtpAccepted(entries, phone, otp) then entries - {MasterKey} else entries
  }

  /** Django's cache, as far as the OTP helpers use it (expiry is not modelled). */
  class OtpCache {
    var entries: map<string, string>

    constructor()
      ensures entries == map[]
    {
      entries := map[];
    }

    /** `generate_otp(phone, length)`; the random draw is a parameter. */
    method GenerateOtp(phone: Json, length: nat, draw: nat) returns (otp: string)
      requires length >= 1 && Pow10(length - 1) <= draw <= Pow10(length) - 1
      modifies this
      ensures otp == RandomNDigits(length, draw)
      ensures entries == Generated(old(entries), phone, otp)
    {
      otp := RandomNDigits(length, draw);
      if IsMasterPhone(phone) {
        entries := entries[MasterKey := otp];
      }
    }

    /** `validate_otp(phone, otp)`. */
    method ValidateOtp(phone: Json, otp: Json) returns (ok: bool)
      modifies this
      ensures ok == OtpAccepted(old(entries), phone, otp)
      ensures entries == AfterValidation(old(entries), phone, otp)
    {
      if IsMasterPhone(phone) {
        var cached: Option<string> := if MasterKey in entries then Some(entries[MasterKey]) else None;
        if (cached.None? || PyStr(otp) != cached.value) && !PyEq(otp, JInt(MasterOtp)) {
          return false;
        }
        entries := entries - {MasterKey};
        return true;
      }
      return true;
    }
  }

  /** Any phone other than the master number passes every check and leaves the cache alone. */
  lemma {:induction false} OtherPhonesUnchecked(entries: map<string, string>, phone: Json, otp: Json, code: string)
    requires !IsMasterPhone(phone)
    ensures OtpAccepted(entries, phone, otp)
    ensures AfterValidation(entries, phone, otp) == entries && Generated(entries, phone, code) == entries
  {
  }

  /** The master number written as a string is not the master number: nothing is cached and nothing is checked. */
  lemma TextMasterPhoneUnchecked(entries: map<string, string>, otp: Json, code: string)
    ensures !IsMasterPhone(JStr(MasterKey))
    ensures Generated(entries, JStr(MasterKey), code) == entries && OtpAccepted(entries, JStr(MasterKey), otp)
  {
  }

  /**
   * After `generate_otp` for the master number, the code it returned is
   * accepted, sent as a string or as a JSON number (it has no leading zero).
   */
  lemma {:induction false} GeneratedOtpAccepted(entries: map<string, string>, length: nat, draw: nat)
    requires length >= 1 && Pow10(length - 1) <= draw <= Pow10(length) - 1
    ensures var code := RandomNDigits(length, draw);
      var cache := Generated(entries, JInt(MasterPhone), code);
      && OtpAccepted(cache, JInt(MasterPhone), JStr(code))
      && OtpAccepted(cache, JInt(MasterPhone), JInt(draw))
  {
    var code := RandomNDigits(length, draw);
    DigitsValueRoundTrip(code);
  }

  /** A code other than the master OTP passes once: the successful check deletes it. */
  lemma {:induction false} OtpSingleUse(entries: map<string, string>, otp: Json)
    requires OtpAccepted(entries, JInt(MasterPhone), otp) && !PyEq(otp, JInt(MasterOtp))
    ensures !OtpAccepted(AfterValidation(entries, JInt(MasterPhone), otp), JInt(MasterPhone), otp)
  {
  }
}
