/**
 * The capacity of each room type and the numbering scheme of beds: a bed is
 * numbered "R", then its room number formatted with `" 03d"` (a space and
 * at least two digits), then "-", then a suffix taken from a per-room-type
 * list. Growing a room group creates beds room by room, bed by bed.
 */
module BedNumbers {
  import opened Wrappers
  import opened Text
  import opened Choices

  /** The capacity `RoomTypeSerializer.create` gives a room type of this name. */
  function CapacityFor(n: RoomTypeName): (c: nat)
    ensures 1 <= c <= 6
    ensures c == 1 <==> n == SingleOccupancy
  {
    match n
    case SingleOccupancy => 1
    case DoubleOccupancy => 2
    case TripleOccupancy => 3
    case QuadrupleOccupancy => 4
    case QuintupleOccupancy => 5
    case SixtupleOccupancy => 6
  }

  /** Different room-type names get different capacities. */
  lemma {:induction false} CapacityDeterminesName(a: RoomTypeName, b: RoomTypeName)
    ensures CapacityFor(a) == CapacityFor(b) <==> a == b
  {
  }

  const Letters: string := "ABCDEFGHIJKLMNOPQRSTUVWXYZ"

  /** The first letter of the two-letter suffixes of a shared room type. */
  function SuffixLead(n: RoomTypeName): char
  {
    match n
    case SingleOccupancy => 'A'
    case DoubleOccupancy => 'A'
    case TripleOccupancy => 'B'
    case QuadrupleOccupancy => 'C'
    case QuintupleOccupancy => 'D'
    case SixtupleOccupancy => 'E'
  }

  /** Number of code points `chr(65 + i)` can produce below the surrogate range. */
  const SuffixCodeLimit: nat := 0xD800 - 65

  /** `chr(65 + i)`. */
  function SuffixChar(i: nat): (c: char)
    ensures c != '-' && c != ' ' && !IsDigit(c)
    ensures i < 26 ==> c == Letters[i]
  {
    if i < SuffixCodeLimit then (65 + i) as char else '?'
  }

  /**
   * The suffixes of one room: the 26 capital letters for single occupancy,
   * otherwise `capacity` two-letter suffixes with a fixed first letter.
   */
  function SuffixList(n: RoomTypeName, capacity: nat): (s: seq<string>)
    ensures n == SingleOccupancy ==> |s| == 26
    ensures n != SingleOccupancy ==> |s| == capacity
    ensures forall i :: 0 <= i < |s| ==> |s[i]| >= 1
    ensures forall i, j :: 0 <= i < j < |s| && j < SuffixCodeLimit ==> s[i] != s[j]
  {
    if n == SingleOccupancy then seq(26, i requires 0 <= i < 26 => [Letters[i]])
    else seq(capacity, (i: int) requires 0 <= i => [SuffixLead(n), SuffixChar(i)])
  }

  /** The suffixes of every room type created with its own capacity. */
  lemma {:induction false} SuffixesOfEachRoomType()
    ensures SuffixList(SingleOccupancy, 1)[0] == "A"
    ensures SuffixList(DoubleOccupancy, 2) == ["AA", "AB"]
    ensures SuffixList(TripleOccupancy, 3) == ["BA", "BB", "BC"]
    ensures SuffixList(QuadrupleOccupancy, 4) == ["CA", "CB", "CC", "CD"]
    ensures SuffixList(QuintupleOccupancy, 5) == ["DA", "DB", "DC", "DD", "DE"]
    ensures SuffixList(SixtupleOccupancy, 6) == ["EA", "EB", "EC", "ED", "EE", "EF"]
  {
  }

  /** A room type created with its own capacity has a suffix for every bed of a room. */
  lemma {:induction false} EnoughSuffixes(n: RoomTypeName)
    ensures CapacityFor(n) <= |SuffixList(n, CapacityFor(n))|
  {
  }

  /** `f"{room: 03d}"`: a space, then the room number padded with zeros to two digits. */
  function RoomLabel(room: nat): (s: string)
    ensures |s| >= 3 && s[0] == ' ' && AllDigits(s[1..])
    ensures room < 100 ==> |s| == 3
  {
    " " + (if room < 10 then "0" else "") + NatToString(room)
  }

  /** The digits of a room label read back as the room number. */
  lemma {:induction false} RoomLabelValue(room: nat)
    ensures DigitsValue(RoomLabel(room)[1..]) == room
  {
    var digits := RoomLabel(room)[1..];
    if room < 10 {
      assert digits == ['0', DigitChar(room)];
      assert digits[..1] == ['0'];
      assert ['0'][..0] == [];
      assert DigitsValue(['0']) == 0;
    } else {
      assert digits == NatToString(room);
      NatToStringRoundTrip(room);
    }
  }

  /** `f"R{room: 03d}-{suffix}"`. */
  function BedNumber(room: nat, suffix: string): string
  {
    "R" + RoomLabel(room) + "-" + suffix
  }

  /** The "-" after a room label cannot sit inside a longer label. */
  lemma {:induction false} LabelsAlign(l1: string, s1: string, l2: string, s2: string)
    requires |l1| >= 1 && |l2| >= 1 && AllDigits(l2[1..])
    requires "R" + l1 + "-" + s1 == "R" + l2 + "-" + s2
    ensures |l1| >= |l2|
  {
    var x := "R" + l1 + "-" + s1;
    assert x[1 + |l1|] == '-';
    forall j | 2 <= j <= |l2|
      ensures IsDigit(x[j])
    {
      assert x[j] == l2[1..][j - 2];
    }
  }

  /** A bed number names its room and its suffix: the scheme is injective. */
  lemma {:induction false} BedNumberInjective(r1: nat, s1: string, r2: nat, s2: string)
    ensures BedNumber(r1, s1) == BedNumber(r2, s2) <==> r1 == r2 && s1 == s2
  {
    if BedNumber(r1, s1) == BedNumber(r2, s2) {
      var x := BedNumber(r1, s1);
      var l1, l2 := RoomLabel(r1), RoomLabel(r2);
      assert x == "R" + l1 + "-" + s1 && x == "R" + l2 + "-" + s2;
      LabelsAlign(l1, s1, l2, s2);
      LabelsAlign(l2, s2, l1, s1);
      assert l1 == x[1..1 + |l1|] == l2;
      assert s1 == x[2 + |l1|..] == s2;
      RoomLabelValue(r1);
      RoomLabelValue(r2);
    }
  }

  /** The number of bed `bedNo` (counted from 1) of room `room`; None when the suffix list has no entry for it. */
  function BedName(room: nat, bedNo: nat, suffixes: seq<string>): (r: Option<string>)
    ensures r.Some? <==> 1 <= bedNo <= |suffixes|
  {
    if 1 <= bedNo <= |suffixes| then Some(BedNumber(room, suffixes[bedNo - 1])) else None
  }

  predicate Distinct(suffixes: seq<string>)
  {
    forall k, l :: 0 <= k < l < |suffixes| ==> suffixes[k] != suffixes[l]
  }

  /** The suffix list of a room type has no repeated entry. */
  lemma {:induction false} SuffixesDistinct(n: RoomTypeName, capacity: nat)
    requires capacity <= SuffixCodeLimit
    ensures Distinct(SuffixList(n, capacity))
  {
  }

  /** With distinct suffixes, different beds get different numbers. */
  lemma {:induction false} BedNamesDistinct(r1: nat, b1: nat, r2: nat, b2: nat, suffixes: seq<string>)
    requires Distinct(suffixes)
    requires BedName(r1, b1, suffixes).Some? && BedName(r2, b2, suffixes).Some?
    ensures BedName(r1, b1, suffixes) == BedName(r2, b2, suffixes) <==> r1 == r2 && b1 == b2
  {
    BedNumberInjective(r1, suffixes[b1 - 1], r2, suffixes[b2 - 1]);
  }
}
