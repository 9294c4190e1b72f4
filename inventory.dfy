/**
 * Keeping a room group's beds in line with its number of rooms
 * (`PropertyRoomTypeSerializer._update_beds`): the total capacity becomes
 * rooms × capacity; surplus beds are deleted newest first; missing beds are
 * created room by room from the first room not yet fully counted.
 *
 * A failed insert still draws its id from the sequence, so a failure reports
 * the counter it leaves behind. The caller's transaction rolls the tables back.
 */
module Inventory {
  import opened Wrappers
  import opened Models
  import opened Database
  import opened BedNumbers
  import opened Choices

  predicate InGroup(beds: map<Id, Bed>, b: Id, g: Id)
  {
    b in beds && beds[b].group == Some(g)
  }

  /** The beds of group `g` among ids below `n`, newest first (`order_by("-id")`). */
  function GroupBeds(beds: map<Id, Bed>, g: Id, n: nat): seq<Id>
  {
    if n == 0 then []
    else if InGroup(beds, n - 1, g) then [n - 1] + GroupBeds(beds, g, n - 1)
    else GroupBeds(beds, g, n - 1)
  }

  /** The listing holds exactly the group's beds below `n`, each once, newest first. */
  lemma {:induction false} GroupBedsMembers(beds: map<Id, Bed>, g: Id, n: nat)
    ensures forall i :: 0 <= i < |GroupBeds(beds, g, n)| ==> GroupBeds(beds, g, n)[i] < n && InGroup(beds, GroupBeds(beds, g, n)[i], g)
    ensures forall b: nat :: b < n && InGroup(beds, b, g) ==> b in GroupBeds(beds, g, n)
    ensures forall i, j :: 0 <= i < j < |GroupBeds(beds, g, n)| ==> GroupBeds(beds, g, n)[i] > GroupBeds(beds, g, n)[j]
  {
    if n > 0 {
      GroupBedsMembers(beds, g, n - 1);
    }
  }

  lemma {:induction false} SameGroupBeds(beds1: map<Id, Bed>, beds2: map<Id, Bed>, g: Id, n: nat)
    requires forall x: nat :: x < n ==> (InGroup(beds1, x, g) <==> InGroup(beds2, x, g))
    ensures GroupBeds(beds1, g, n) == GroupBeds(beds2, g, n)
  {
    if n > 0 {
      SameGroupBeds(beds1, beds2, g, n - 1);
    }
  }

  /** Removing one member of the group lowers its count by one. */
  lemma {:induction false} GroupBedsWithout(beds1: map<Id, Bed>, beds2: map<Id, Bed>, g: Id, n: nat, d: Id)
    requires forall x: nat :: x < n ==> (InGroup(beds2, x, g) <==> InGroup(beds1, x, g) && x != d)
    requires InGroup(beds1, d, g) && d < n
    ensures |GroupBeds(beds2, g, n)| == |GroupBeds(beds1, g, n)| - 1
  {
    if n - 1 == d {
      SameGroupBeds(beds1, beds2, g, n - 1);
    } else {
      GroupBedsWithout(beds1, beds2, g, n - 1, d);
    }
  }

  /** Bookings that pointed at a deleted bed lose it (`on_delete=SET_NULL`). */
  function Unlink(k: Booking, d: Id): Booking
  {
    if k.bed == Some(d) then k.(bed := None) else k
  }

  function DeleteBed(t: Tables, d: Id): Tables
  {
    t.(beds := t.beds - {d}, bookings := map k | k in t.bookings :: Unlink(t.bookings[k], d))
  }

  /** Deleting the beds of `s` one after the other. */
  function DeleteBeds(t: Tables, s: seq<Id>): (r: Tables)
    ensures r.groups == t.groups
  {
    if s == [] then t else DeleteBed(DeleteBeds(t, s[..|s| - 1]), s[|s| - 1])
  }

  /**
   * Deleting the beds of `s` removes exactly those beds, leaves every other
   * bed and every other table as it was, and clears the bed of each booking that held one of them
   * (`on_delete=SET_NULL`).
   */
  lemma {:induction false} DeleteBedsEffect(t: Tables, s: seq<Id>)
    ensures var r := DeleteBeds(t, s);
      && r.properties == t.properties && r.roomTypes == t.roomTypes && r.groups == t.groups
      && r.users == t.users && r.payments == t.payments
      && r.bookings.Keys == t.bookings.Keys
      && (forall b :: b in r.beds <==> b in t.beds && b !in s)
      && (forall b :: b in r.beds ==> r.beds[b] == t.beds[b])
      && (forall k :: k in r.bookings ==>
            r.bookings[k] == if t.bookings[k].bed.Some? && t.bookings[k].bed.value in s then t.bookings[k].(bed := None) else t.bookings[k])
  {
    if s != [] {
      DeleteBedsEffect(t, s[..|s| - 1]);
      assert forall b :: b in s <==> b in s[..|s| - 1] || b == s[|s| - 1];
    }
  }

  lemma {:induction false} DeleteBedKeepsWellFormed(t: Tables, next: nat, d: Id)
    requires WellFormed(t, next)
    ensures WellFormed(DeleteBed(t, d), next)
  {
  }

  lemma {:induction false} DeleteBedsKeepsWellFormed(t: Tables, next: nat, s: seq<Id>)
    requires WellFormed(t, next)
    ensures WellFormed(DeleteBeds(t, s), next)
  {
    if s != [] {
      DeleteBedsKeepsWellFormed(t, next, s[..|s| - 1]);
      DeleteBedKeepsWellFormed(DeleteBeds(t, s[..|s| - 1]), next, s[|s| - 1]);
    }
  }

  /** Deleting distinct members of a group lowers its count by their number. */
  lemma {:induction false} DeleteBedsCount(t: Tables, g: Id, n: nat, s: seq<Id>)
    requires forall i :: 0 <= i < |s| ==> s[i] < n && InGroup(t.beds, s[i], g)
    requires forall i, j :: 0 <= i < j < |s| ==> s[i] != s[j]
    ensures |GroupBeds(DeleteBeds(t, s).beds, g, n)| == |GroupBeds(t.beds, g, n)| - |s|
  {
    if s != [] {
      var p, d := s[..|s| - 1], s[|s| - 1];
      DeleteBedsCount(t, g, n, p);
      var tp := DeleteBeds(t, p);
      DeleteBedsEffect(t, p);
      assert d !in p;
      GroupBedsWithout(tp.beds, DeleteBed(tp, d).beds, g, n, d);
    }
  }

  function WithTotal(t: Tables, g: Id, total: nat): Tables
    requires g in t.groups
  {
    t.(groups := t.groups[g := t.groups[g].(totalCapacity := Some(total))])
  }

  datatype InventoryError =
    | CapacityMissing     // rooms × None raises TypeError
    | SuffixOutOfRange    // suffix_list[bed_no - 1] raises IndexError
    | DuplicateBedNumber  // the unique (property_room_type, bed_number) constraint

  /** Either the new tables and counter, or the error and the counter it leaves. */
  datatype Outcome = Ok(tables: Tables, next: nat) | Err(error: InventoryError, next: nat)

  /** What the creation loops leave: the bed table and the counter, or where they stopped. */
  datatype Growth = Grown(beds: map<Id, Bed>, next: nat) | Halted(error: InventoryError, next: nat)

  predicate NumberTaken(beds: map<Id, Bed>, g: Id, number: string)
  {
    exists b :: b in beds && beds[b].group == Some(g) && beds[b].bedNumber == Some(number)
  }

  /** Creating one bed; None stands for a position the suffix list has no entry for. */
  function PlaceBed(beds: map<Id, Bed>, next: nat, g: Id, rt: Id, name: Option<string>): Growth
  {
    match name
    case None => Halted(SuffixOutOfRange, next)
    case Some(number) =>
      if NumberTaken(beds, g, number) then Halted(DuplicateBedNumber, next + 1)
      else Grown(beds[next := NewBed(g, rt, number)], next + 1)
  }

  /** The inner creation loop: beds 1 to `count` of room `room`, stopping at the first error. */
  function FillRoom(beds: map<Id, Bed>, next: nat, g: Id, rt: Id, suffixes: seq<string>, room: nat, count: nat): (o: Growth)
    ensures o.next >= next
    ensures o.Grown? ==> o.next == next + count
  {
    if count == 0 then Grown(beds, next)
    else
      match FillRoom(beds, next, g, rt, suffixes, room, count - 1)
      case Halted(e, n) => Halted(e, n)
      case Grown(b1, n1) => PlaceBed(b1, n1, g, rt, BedName(room, count, suffixes))
  }

  /** The outer creation loop: rooms `done + 1` to `rooms`, `cap` beds each. */
  function FillRooms(beds: map<Id, Bed>, next: nat, g: Id, rt: Id, suffixes: seq<string>, done: nat, rooms: nat, cap: nat): (o: Growth)
    ensures o.next >= next
    decreases rooms
  {
    if rooms <= done then Grown(beds, next)
    else
      match FillRooms(beds, next, g, rt, suffixes, done, rooms - 1, cap)
      case Halted(e, n) => Halted(e, n)
      case Grown(b1, n1) => FillRoom(b1, n1, g, rt, suffixes, rooms, cap)
  }

  /** `current_bed_count // capacity`: the rooms whose beds are all counted. */
  function FullRooms(current: nat, cap: nat): (r: nat)
    ensures cap > 0 ==> r * cap <= current < (r + 1) * cap
  {
    if cap == 0 then 0 else current / cap
  }

  /** The shrinking branch: the newest beds beyond `required` are deleted. */
  function Shrink(t: Tables, g: Id, existing: seq<Id>, required: nat, total: nat): Tables
    requires g in t.groups && required <= |existing|
  {
    WithTotal(DeleteBeds(t, existing[..|existing| - required]), g, total)
  }

  /** The growing branch: the creation loops, then the new total. */
  function Grow(t: Tables, next: nat, g: Id, suffixes: seq<string>, done: nat, rooms: nat, cap: nat, total: nat): Outcome
    requires g in t.groups
  {
    match FillRooms(t.beds, next, g, t.groups[g].roomType, suffixes, done, rooms, cap)
    case Halted(e, n) => Err(e, n)
    case Grown(b1, n1) => Ok(WithTotal(t.(beds := b1), g, total), n1)
  }

  /** `_update_beds` on the room group `g`. */
  function UpdateBedsSpec(t: Tables, next: nat, g: Id): Outcome
    requires g in t.groups && t.groups[g].roomType in t.roomTypes
  {
    var grp := t.groups[g];
    var rt := t.roomTypes[grp.roomType];
    if rt.capacity.None? then Err(CapacityMissing, next)
    else
      var cap := rt.capacity.value;
      var existing := GroupBeds(t.beds, g, next);
      var required := cap * grp.numberOfRooms;
      if required < |existing| then Ok(Shrink(t, g, existing, required, grp.numberOfRooms * cap), next)
      else if required > |existing| then
        Grow(t, next, g, SuffixList(rt.name, cap), FullRooms(|existing|, cap), grp.numberOfRooms, cap, grp.numberOfRooms * cap)
      else Ok(WithTotal(t, g, grp.numberOfRooms * cap), next)
  }

  lemma {:induction false} PlaceBedKeepsWellFormed(t: Tables, next: nat, g: Id, number: string)
    requires WellFormed(t, next) && g in t.groups
    requires !NumberTaken(t.beds, g, number)
    ensures WellFormed(t.(beds := t.beds[next := NewBed(g, t.groups[g].roomType, number)]), next + 1)
  {
  }

  lemma {:induction false} FillRoomKeepsWellFormed(t: Tables, next: nat, g: Id, suffixes: seq<string>, room: nat, count: nat)
    requires WellFormed(t, next) && g in t.groups
    ensures FillRoom(t.beds, next, g, t.groups[g].roomType, suffixes, room, count).Grown? ==>
      WellFormed(t.(beds := FillRoom(t.beds, next, g, t.groups[g].roomType, suffixes, room, count).beds), next + count)
  {
    if count > 0 {
      var rt := t.groups[g].roomType;
      FillRoomKeepsWellFormed(t, next, g, suffixes, room, count - 1);
      var o := FillRoom(t.beds, next, g, rt, suffixes, room, count - 1);
      var name := BedName(room, count, suffixes);
      if o.Grown? && name.Some? && !NumberTaken(o.beds, g, name.value) {
        PlaceBedKeepsWellFormed(t.(beds := o.beds), o.next, g, name.value);
      }
    }
  }

  lemma {:induction false} FillRoomsKeepsWellFormed(t: Tables, next: nat, g: Id, suffixes: seq<string>, done: nat, rooms: nat, cap: nat)
    requires WellFormed(t, next) && g in t.groups
    ensures FillRooms(t.beds, next, g, t.groups[g].roomType, suffixes, done, rooms, cap).Grown? ==>
      WellFormed(t.(beds := FillRooms(t.beds, next, g, t.groups[g].roomType, suffixes, done, rooms, cap).beds),
                 FillRooms(t.beds, next, g, t.groups[g].roomType, suffixes, done, rooms, cap).next)
    decreases rooms
  {
    if rooms > done {
      var rt := t.groups[g].roomType;
      FillRoomsKeepsWellFormed(t, next, g, suffixes, done, rooms - 1, cap);
      var o := FillRooms(t.beds, next, g, rt, suffixes, done, rooms - 1, cap);
      if o.Grown? {
        var mid := t.(beds := o.beds);
        FillRoomKeepsWellFormed(mid, o.next, g, suffixes, rooms, cap);
        var r := FillRoom(o.beds, o.next, g, rt, suffixes, rooms, cap);
        if r.Grown? {
          assert mid.(beds := r.beds) == t.(beds := r.beds);
        }
      }
    }
  }

  /** A created bed joins the group. */
  lemma {:induction false} PlaceBedCount(beds: map<Id, Bed>, next: nat, g: Id, rt: Id, name: Option<string>)
    requires forall b :: b in beds ==> b < next
    ensures PlaceBed(beds, next, g, rt, name).Grown? ==>
      |GroupBeds(PlaceBed(beds, next, g, rt, name).beds, g, next + 1)| == |GroupBeds(beds, g, next)| + 1
  {
    var r := PlaceBed(beds, next, g, rt, name);
    if r.Grown? {
      SameGroupBeds(beds, r.beds, g, next);
    }
  }

  /** Every bed of a filled room joins the group. */
  lemma {:induction false} FillRoomCount(beds: map<Id, Bed>, next: nat, g: Id, rt: Id, suffixes: seq<string>, room: nat, count: nat)
    requires forall b :: b in beds ==> b < next
    ensures FillRoom(beds, next, g, rt, suffixes, room, count).Grown? ==>
      && (forall b :: b in FillRoom(beds, next, g, rt, suffixes, room, count).beds ==> b < next + count)
      && |GroupBeds(FillRoom(beds, next, g, rt, suffixes, room, count).beds, g, next + count)|
         == |GroupBeds(beds, g, next)| + count
  {
    if count > 0 {
      FillRoomCount(beds, next, g, rt, suffixes, room, count - 1);
      var o := FillRoom(beds, next, g, rt, suffixes, room, count - 1);
      var r := FillRoom(beds, next, g, rt, suffixes, room, count);
      if r.Grown? {
        var name := BedName(room, count, suffixes);
        assert o.Grown? && r == PlaceBed(o.beds, o.next, g, rt, name);
        var n1 := o.next;
        assert n1 == next + (count - 1);
        assert |GroupBeds(o.beds, g, n1)| == |GroupBeds(beds, g, next)| + (count - 1);
        PlaceBedCount(o.beds, n1, g, rt, name);
        assert |GroupBeds(r.beds, g, n1 + 1)| == |GroupBeds(o.beds, g, n1)| + 1;
        assert n1 + 1 == next + count;
      }
    }
  }

  /** Every bed the loops create joins the group. */
  lemma {:induction false} FillRoomsCount(beds: map<Id, Bed>, next: nat, g: Id, rt: Id, suffixes: seq<string>, done: nat, rooms: nat, cap: nat)
    requires forall b :: b in beds ==> b < next
    ensures FillRooms(beds, next, g, rt, suffixes, done, rooms, cap).Grown? ==>
      && (forall b :: b in FillRooms(beds, next, g, rt, suffixes, done, rooms, cap).beds ==> b < FillRooms(beds, next, g, rt, suffixes, done, rooms, cap).next)
      && |GroupBeds(FillRooms(beds, next, g, rt, suffixes, done, rooms, cap).beds, g, FillRooms(beds, next, g, rt, suffixes, done, rooms, cap).next)|
         == |GroupBeds(beds, g, next)| + (FillRooms(beds, next, g, rt, suffixes, done, rooms, cap).next - next)
    decreases rooms
  {
    if rooms > done {
      FillRoomsCount(beds, next, g, rt, suffixes, done, rooms - 1, cap);
      var o := FillRooms(beds, next, g, rt, suffixes, done, rooms - 1, cap);
      var r := FillRooms(beds, next, g, rt, suffixes, done, rooms, cap);
      if r.Grown? {
        assert o.Grown? && r == FillRoom(o.beds, o.next, g, rt, suffixes, rooms, cap);
        FillRoomCount(o.beds, o.next, g, rt, suffixes, rooms, cap);
      }
    }
  }

  lemma {:induction false} OneMoreRoom(m: nat, cap: nat)
    ensures m * cap + cap == (m + 1) * cap
  {
  }

  /** The loops draw `cap` ids per room. */
  lemma {:induction false} FillRoomsNext(beds: map<Id, Bed>, next: nat, g: Id, rt: Id, suffixes: seq<string>, done: nat, rooms: nat, cap: nat)
    ensures FillRooms(beds, next, g, rt, suffixes, done, rooms, cap).Grown? ==>
      FillRooms(beds, next, g, rt, suffixes, done, rooms, cap).next == next + (if rooms <= done then 0 else (rooms - done) * cap)
    decreases rooms
  {
    if rooms > done {
      FillRoomsNext(beds, next, g, rt, suffixes, done, rooms - 1, cap);
      OneMoreRoom(rooms - 1 - done, cap);
    }
  }

  /** Once a bed of a room fails, the later beds of that room change nothing. */
  lemma {:induction false} RoomHaltSticks(beds: map<Id, Bed>, next: nat, g: Id, rt: Id, suffixes: seq<string>, room: nat, k: nat, m: nat)
    requires k <= m && FillRoom(beds, next, g, rt, suffixes, room, k).Halted?
    ensures FillRoom(beds, next, g, rt, suffixes, room, m) == FillRoom(beds, next, g, rt, suffixes, room, k)
  {
    if k < m {
      RoomHaltSticks(beds, next, g, rt, suffixes, room, k, m - 1);
    }
  }

  /** Once a room fails, the later rooms change nothing. */
  lemma {:induction false} RoomsHaltSticks(beds: map<Id, Bed>, next: nat, g: Id, rt: Id, suffixes: seq<string>, done: nat, k: nat, m: nat, cap: nat)
    requires k <= m && FillRooms(beds, next, g, rt, suffixes, done, k, cap).Halted?
    ensures FillRooms(beds, next, g, rt, suffixes, done, m, cap) == FillRooms(beds, next, g, rt, suffixes, done, k, cap)
    decreases m
  {
    if k < m {
      RoomsHaltSticks(beds, next, g, rt, suffixes, done, k, m - 1, cap);
    }
  }

  /**
   * No bed of group `g` carries a number the loops would hand out from
   * suffix index `from` of room `room` onwards.
   */
  ghost predicate FreeFrom(beds: map<Id, Bed>, g: Id, suffixes: seq<string>, room: nat, from: nat, cap: nat)
  {
    forall r: nat, j: nat :: (r > room || (r == room && j >= from)) && j < cap && j < |suffixes| ==>
      !NumberTaken(beds, g, BedNumber(r, suffixes[j]))
  }

  /** With distinct suffixes and no clashing number in place, a room fills completely. */
  lemma {:induction false} FillRoomFresh(beds: map<Id, Bed>, next: nat, g: Id, rt: Id, suffixes: seq<string>, room: nat, count: nat, cap: nat)
    requires Distinct(suffixes) && count <= cap <= |suffixes|
    requires FreeFrom(beds, g, suffixes, room, 0, cap)
    ensures FillRoom(beds, next, g, rt, suffixes, room, count).Grown?
    ensures FreeFrom(FillRoom(beds, next, g, rt, suffixes, room, count).beds, g, suffixes, room, count, cap)
  {
    if count > 0 {
      FillRoomFresh(beds, next, g, rt, suffixes, room, count - 1, cap);
      var o := FillRoom(beds, next, g, rt, suffixes, room, count - 1);
      var number := BedNumber(room, suffixes[count - 1]);
      assert !NumberTaken(o.beds, g, number);
      var b1 := o.beds[o.next := NewBed(g, rt, number)];
      assert FillRoom(beds, next, g, rt, suffixes, room, count) == Grown(b1, o.next + 1);
      forall r: nat, j: nat | (r > room || (r == room && j >= count)) && j < cap && j < |suffixes|
        ensures !NumberTaken(b1, g, BedNumber(r, suffixes[j]))
      {
        BedNumberInjective(r, suffixes[j], room, suffixes[count - 1]);
        assert !NumberTaken(o.beds, g, BedNumber(r, suffixes[j]));
      }
    }
  }

  /** With distinct suffixes and no clashing number in place, every room fills completely. */
  lemma {:induction false} FillRoomsFresh(beds: map<Id, Bed>, next: nat, g: Id, rt: Id, suffixes: seq<string>, done: nat, rooms: nat, cap: nat)
    requires Distinct(suffixes) && cap <= |suffixes|
    requires FreeFrom(beds, g, suffixes, done + 1, 0, cap)
    ensures FillRooms(beds, next, g, rt, suffixes, done, rooms, cap).Grown?
    ensures FreeFrom(FillRooms(beds, next, g, rt, suffixes, done, rooms, cap).beds, g, suffixes, if rooms <= done then done + 1 else rooms + 1, 0, cap)
    decreases rooms
  {
    if rooms > done {
      FillRoomsFresh(beds, next, g, rt, suffixes, done, rooms - 1, cap);
      var o := FillRooms(beds, next, g, rt, suffixes, done, rooms - 1, cap);
      FillRoomFresh(o.beds, o.next, g, rt, suffixes, rooms, cap, cap);
    }
  }

  lemma {:induction false} WithTotalKeepsWellFormed(t: Tables, next: nat, g: Id, total: nat)
    requires WellFormed(t, next) && g in t.groups
    ensures WellFormed(WithTotal(t, g, total), next)
  {
  }

  lemma {:induction false} ShrinkKeepsWellFormed(t: Tables, next: nat, g: Id, existing: seq<Id>, required: nat, total: nat)
    requires WellFormed(t, next) && g in t.groups && required <= |existing|
    ensures WellFormed(Shrink(t, g, existing, required, total), next)
  {
    DeleteBedsKeepsWellFormed(t, next, existing[..|existing| - required]);
    WithTotalKeepsWellFormed(DeleteBeds(t, existing[..|existing| - required]), next, g, total);
  }

  lemma {:induction false} GrowKeepsWellFormed(t: Tables, next: nat, g: Id, suffixes: seq<string>, done: nat, rooms: nat, cap: nat, total: nat)
    requires WellFormed(t, next) && g in t.groups
    ensures Grow(t, next, g, suffixes, done, rooms, cap, total).Ok? ==>
      WellFormed(Grow(t, next, g, suffixes, done, rooms, cap, total).tables, Grow(t, next, g, suffixes, done, rooms, cap, total).next)
  {
    var o := FillRooms(t.beds, next, g, t.groups[g].roomType, suffixes, done, rooms, cap);
    FillRoomsKeepsWellFormed(t, next, g, suffixes, done, rooms, cap);
    if o.Grown? {
      WithTotalKeepsWellFormed(t.(beds := o.beds), o.next, g, total);
    }
  }

  /** A successful `_update_beds` leaves the tables well formed. */
  lemma {:induction false} UpdateBedsKeepsWellFormed(t: Tables, next: nat, g: Id)
    requires WellFormed(t, next) && g in t.groups
    ensures UpdateBedsSpec(t, next, g).next >= next
    ensures UpdateBedsSpec(t, next, g).Ok? ==> WellFormed(UpdateBedsSpec(t, next, g).tables, UpdateBedsSpec(t, next, g).next)
  {
    var grp := t.groups[g];
    var rt := t.roomTypes[grp.roomType];
    var out := UpdateBedsSpec(t, next, g);
    if rt.capacity.Some? {
      var cap := rt.capacity.value;
      var existing := GroupBeds(t.beds, g, next);
      var required := cap * grp.numberOfRooms;
      var total := grp.numberOfRooms * cap;
      if required < |existing| {
        assert out == Ok(Shrink(t, g, existing, required, total), next);
        ShrinkKeepsWellFormed(t, next, g, existing, required, total);
      } else if required > |existing| {
        var suffixes := SuffixList(rt.name, cap);
        assert out == Grow(t, next, g, suffixes, FullRooms(|existing|, cap), grp.numberOfRooms, cap, total);
        GrowKeepsWellFormed(t, next, g, suffixes, FullRooms(|existing|, cap), grp.numberOfRooms, cap, total);
      } else {
        assert out == Ok(WithTotal(t, g, total), next);
        WithTotalKeepsWellFormed(t, next, g, total);
      }
    }
  }

  /** `_update_beds` writes only the group's total capacity, the beds and the bookings' bed links. */
  lemma {:induction false} UpdateBedsFrame(t: Tables, next: nat, g: Id)
    requires g in t.groups && t.groups[g].roomType in t.roomTypes
    ensures UpdateBedsSpec(t, next, g).Ok? ==>
      && UpdateBedsSpec(t, next, g).tables.properties == t.properties
      && UpdateBedsSpec(t, next, g).tables.roomTypes == t.roomTypes
      && UpdateBedsSpec(t, next, g).tables.users == t.users
      && UpdateBedsSpec(t, next, g).tables.payments == t.payments
      && UpdateBedsSpec(t, next, g).tables.bookings.Keys == t.bookings.Keys
      && UpdateBedsSpec(t, next, g).tables.groups
         == t.groups[g := t.groups[g].(totalCapacity := Some(t.groups[g].numberOfRooms * t.roomTypes[t.groups[g].roomType].capacity.value))]
  {
    var rt := t.roomTypes[t.groups[g].roomType];
    if rt.capacity.Some? {
      var existing := GroupBeds(t.beds, g, next);
      var required := rt.capacity.value * t.groups[g].numberOfRooms;
      if required < |existing| {
        DeleteBedsEffect(t, existing[..|existing| - required]);
      }
    }
  }

  /**
   * The creation loops keep every bed below `next` as it was, and every bed
   * they leave is either an old one or a bed of group `g` with room type `rt`.
   */
  ghost predicate OnlyAdds(before: map<Id, Bed>, after: map<Id, Bed>, next: nat, g: Id, rt: Id)
  {
    && (forall b :: b in before && b < next ==> b in after && after[b] == before[b])
    && (forall b :: b in after ==> (b in before && after[b] == before[b]) || (after[b].group == Some(g) && after[b].roomType == Some(rt)))
  }

  lemma {:induction false} FillRoomOnlyAdds(beds: map<Id, Bed>, next: nat, g: Id, rt: Id, suffixes: seq<string>, room: nat, count: nat)
    ensures FillRoom(beds, next, g, rt, suffixes, room, count).Grown? ==>
      OnlyAdds(beds, FillRoom(beds, next, g, rt, suffixes, room, count).beds, next, g, rt)
  {
    if count > 0 {
      FillRoomOnlyAdds(beds, next, g, rt, suffixes, room, count - 1);
    }
  }

  lemma {:induction false} FillRoomsOnlyAdds(beds: map<Id, Bed>, next: nat, g: Id, rt: Id, suffixes: seq<string>, done: nat, rooms: nat, cap: nat)
    ensures FillRooms(beds, next, g, rt, suffixes, done, rooms, cap).Grown? ==>
      OnlyAdds(beds, FillRooms(beds, next, g, rt, suffixes, done, rooms, cap).beds, next, g, rt)
    decreases rooms
  {
    if rooms > done {
      FillRoomsOnlyAdds(beds, next, g, rt, suffixes, done, rooms - 1, cap);
      var o := FillRooms(beds, next, g, rt, suffixes, done, rooms - 1, cap);
      if o.Grown? {
        FillRoomOnlyAdds(o.beds, o.next, g, rt, suffixes, rooms, cap);
      }
    }
  }

  /**
   * Every bed `_update_beds` creates carries the group's room type, and it
   * writes no other bed: beds and groups that matched still match.
   */
  lemma {:induction false} UpdateBedsKeepsBedTypes(t: Tables, next: nat, g: Id)
    requires g in t.groups && t.groups[g].roomType in t.roomTypes && BedTypesMatchGroups(t)
    ensures UpdateBedsSpec(t, next, g).Ok? ==> BedTypesMatchGroups(UpdateBedsSpec(t, next, g).tables)
  {
    var grp := t.groups[g];
    var rt := t.roomTypes[grp.roomType];
    UpdateBedsFrame(t, next, g);
    if rt.capacity.Some? {
      var cap := rt.capacity.value;
      var existing := GroupBeds(t.beds, g, next);
      var required := cap * grp.numberOfRooms;
      if required < |existing| {
        DeleteBedsEffect(t, existing[..|existing| - required]);
      } else if required > |existing| {
        FillRoomsOnlyAdds(t.beds, next, g, grp.roomType, SuffixList(rt.name, cap), FullRooms(|existing|, cap), grp.numberOfRooms, cap);
      }
    }
  }

  /**
   * When `_update_beds` does not shrink the group, every bed below the
   * counter is left as it was.
   */
  lemma {:induction false} UpdateBedsKeepsOldBeds(t: Tables, next: nat, g: Id, cap: nat)
    requires g in t.groups && t.groups[g].roomType in t.roomTypes
    requires t.roomTypes[t.groups[g].roomType].capacity == Some(cap)
    requires |GroupBeds(t.beds, g, next)| <= cap * t.groups[g].numberOfRooms
    ensures UpdateBedsSpec(t, next, g).Ok? ==>
      forall b :: b in t.beds && b < next ==> b in UpdateBedsSpec(t, next, g).tables.beds && UpdateBedsSpec(t, next, g).tables.beds[b] == t.beds[b]
  {
    var grp := t.groups[g];
    var rt := t.roomTypes[grp.roomType];
    var existing := GroupBeds(t.beds, g, next);
    if cap * grp.numberOfRooms > |existing| {
      FillRoomsOnlyAdds(t.beds, next, g, grp.roomType, SuffixList(rt.name, cap), FullRooms(|existing|, cap), grp.numberOfRooms, cap);
    }
  }

  /** All bed ids lie below the counter. */
  predicate BedIdsBelow(beds: map<Id, Bed>, next: nat)
  {
    forall b :: b in beds ==> b < next
  }

  /**
   * Shrinking keeps exactly the `required` oldest beds of the group: the
   * newest are deleted, whether or not someone occupies them.
   */
  lemma {:induction false} ShrinkKeepsOldest(t: Tables, next: nat, g: Id, cap: nat)
    requires g in t.groups && t.groups[g].roomType in t.roomTypes && BedIdsBelow(t.beds, next)
    requires t.roomTypes[t.groups[g].roomType].capacity == Some(cap)
    requires cap * t.groups[g].numberOfRooms < |GroupBeds(t.beds, g, next)|
    ensures UpdateBedsSpec(t, next, g).Ok? && UpdateBedsSpec(t, next, g).next == next
    ensures forall b :: InGroup(UpdateBedsSpec(t, next, g).tables.beds, b, g) <==>
      b in GroupBeds(t.beds, g, next)[|GroupBeds(t.beds, g, next)| - cap * t.groups[g].numberOfRooms..]
    ensures |GroupBeds(UpdateBedsSpec(t, next, g).tables.beds, g, next)| == cap * t.groups[g].numberOfRooms
  {
    var existing := GroupBeds(t.beds, g, next);
    var required := cap * t.groups[g].numberOfRooms;
    var out := UpdateBedsSpec(t, next, g);
    assert out.Ok? && out.next == next && out.tables.beds == DeleteBeds(t, existing[..|existing| - required]).beds;
    DeleteNewest(t, g, next, |existing| - required);
    DeleteNewestCount(t, g, next, |existing| - required);
  }

  /** Deleting the `k` newest beds of a group leaves the others. */
  lemma {:induction false} DeleteNewest(t: Tables, g: Id, next: nat, k: nat)
    requires BedIdsBelow(t.beds, next) && k <= |GroupBeds(t.beds, g, next)|
    ensures forall b :: InGroup(DeleteBeds(t, GroupBeds(t.beds, g, next)[..k]).beds, b, g) <==> b in GroupBeds(t.beds, g, next)[k..]
  {
    var existing := GroupBeds(t.beds, g, next);
    var doomed := existing[..k];
    assert forall b: Id :: InGroup(t.beds, b, g) <==> b in existing by {
      GroupBedsMembers(t.beds, g, next);
      forall b: Id | InGroup(t.beds, b, g)
        ensures b in existing
      {
        assert b < next;
      }
    }
    GroupBedsMembers(t.beds, g, next);
    DescendingSplit(existing, k);
    DeleteBedsEffect(t, doomed);
  }

  /** Deleting the `k` newest beds of a group lowers its count by `k`. */
  lemma {:induction false} DeleteNewestCount(t: Tables, g: Id, next: nat, k: nat)
    requires k <= |GroupBeds(t.beds, g, next)|
    ensures |GroupBeds(DeleteBeds(t, GroupBeds(t.beds, g, next)[..k]).beds, g, next)| == |GroupBeds(t.beds, g, next)| - k
  {
    var existing := GroupBeds(t.beds, g, next);
    GroupBedsMembers(t.beds, g, next);
    DescendingSplit(existing, k);
    DeleteBedsCount(t, g, next, existing[..k]);
  }

  /** In a strictly descending sequence, what is not in the first `k` is in the rest. */
  lemma {:induction false} DescendingSplit(s: seq<Id>, k: nat)
    requires k <= |s| && forall i, j :: 0 <= i < j < |s| ==> s[i] > s[j]
    ensures forall b :: b in s && b !in s[..k] <==> b in s[k..]
    ensures forall i, j :: 0 <= i < j < |s[..k]| ==> s[..k][i] != s[..k][j]
  {
    assert s == s[..k] + s[k..];
    forall b | b in s[k..]
      ensures b !in s[..k]
    {
      var j :| 0 <= j < |s[k..]| && s[k..][j] == b;
      assert s[k + j] == b;
    }
  }

  /** No bed of the group, so nothing to list. */
  lemma {:induction false} NoGroupBeds(beds: map<Id, Bed>, g: Id, n: nat)
    requires forall b :: b in beds ==> beds[b].group != Some(g)
    ensures GroupBeds(beds, g, n) == []
  {
    if n > 0 {
      NoGroupBeds(beds, g, n - 1);
    }
  }

  /** A positive capacity gives at least one bed per room. */
  lemma {:induction false} MoreRoomsMoreBeds(cap: nat, rooms: nat)
    requires cap >= 1
    ensures cap * rooms >= rooms
  {
  }

  /** The arithmetic of the growing branch. */
  lemma {:induction false} GrowthArithmetic(current: nat, cap: nat, rooms: nat)
    requires cap * rooms > current
    ensures cap > 0 && FullRooms(current, cap) < rooms
    ensures current + (rooms - FullRooms(current, cap)) * cap == cap * rooms + current % cap
  {
    var q := FullRooms(current, cap);
    assert current == q * cap + current % cap;
    assert (rooms - q) * cap == rooms * cap - q * cap;
  }

  /**
   * Growing starts at the first room that is not fully counted and fills
   * every room up to the last: the group ends with the required beds plus
   * the beds of a partly counted room, so exactly the required number when
   * the current count is a whole number of rooms.
   */
  lemma {:induction false} GrowthCount(t: Tables, next: nat, g: Id, cap: nat)
    requires g in t.groups && t.groups[g].roomType in t.roomTypes && BedIdsBelow(t.beds, next)
    requires t.roomTypes[t.groups[g].roomType].capacity == Some(cap)
    requires cap * t.groups[g].numberOfRooms > |GroupBeds(t.beds, g, next)|
    ensures UpdateBedsSpec(t, next, g).Ok? ==>
      && BedIdsBelow(UpdateBedsSpec(t, next, g).tables.beds, UpdateBedsSpec(t, next, g).next)
      && |GroupBeds(UpdateBedsSpec(t, next, g).tables.beds, g, UpdateBedsSpec(t, next, g).next)|
         == cap * t.groups[g].numberOfRooms + |GroupBeds(t.beds, g, next)| % cap
  {
    var grp := t.groups[g];
    var rt := t.roomTypes[grp.roomType];
    var current := |GroupBeds(t.beds, g, next)|;
    var suffixes := SuffixList(rt.name, cap);
    var done := FullRooms(current, cap);
    var total := grp.numberOfRooms * cap;
    var out := UpdateBedsSpec(t, next, g);
    assert out == Grow(t, next, g, suffixes, done, grp.numberOfRooms, cap, total);
    FillRoomsGrowth(t.beds, next, g, grp.roomType, suffixes, current, cap, grp.numberOfRooms);
  }

  /** Filling from the first incomplete room up to room `rooms` adds the missing beds plus the surplus of that room. */
  lemma {:induction false} FillRoomsGrowth(beds: map<Id, Bed>, next: nat, g: Id, rt: Id, suffixes: seq<string>, current: nat, cap: nat, rooms: nat)
    requires BedIdsBelow(beds, next) && current == |GroupBeds(beds, g, next)| && cap * rooms > current
    ensures var o := FillRooms(beds, next, g, rt, suffixes, FullRooms(current, cap), rooms, cap);
      o.Grown? ==> BedIdsBelow(o.beds, o.next) && |GroupBeds(o.beds, g, o.next)| == cap * rooms + current % cap
  {
    var done := FullRooms(current, cap);
    var o := FillRooms(beds, next, g, rt, suffixes, done, rooms, cap);
    if o.Grown? {
      FillRoomsCount(beds, next, g, rt, suffixes, done, rooms, cap);
      FillRoomsNext(beds, next, g, rt, suffixes, done, rooms, cap);
      GrowthArithmetic(current, cap, rooms);
      assert |GroupBeds(o.beds, g, o.next)| == current + (o.next - next);
      assert o.next - next == (rooms - done) * cap;
    }
  }

  /** A group without beds gets exactly rooms × capacity beds, and no error. */
  lemma {:induction false} FreshGroupGetsAllBeds(t: Tables, next: nat, g: Id, cap: nat)
    requires g in t.groups && t.groups[g].roomType in t.roomTypes && BedIdsBelow(t.beds, next)
    requires t.roomTypes[t.groups[g].roomType].capacity == Some(cap)
    requires cap <= SuffixCodeLimit
    requires t.roomTypes[t.groups[g].roomType].name == SingleOccupancy ==> cap <= 26
    requires forall b :: b in t.beds ==> t.beds[b].group != Some(g)
    ensures UpdateBedsSpec(t, next, g).Ok?
    ensures |GroupBeds(UpdateBedsSpec(t, next, g).tables.beds, g, UpdateBedsSpec(t, next, g).next)| == cap * t.groups[g].numberOfRooms
  {
    var grp := t.groups[g];
    var rt := t.roomTypes[grp.roomType];
    NoGroupBeds(t.beds, g, next);
    var out := UpdateBedsSpec(t, next, g);
    if cap == 0 || grp.numberOfRooms == 0 {
    } else {
      MoreRoomsMoreBeds(cap, grp.numberOfRooms);
      var suffixes := SuffixList(rt.name, cap);
      SuffixesDistinct(rt.name, cap);
      assert FullRooms(0, cap) == 0;
      assert FreeFrom(t.beds, g, suffixes, 1, 0, cap);
      FillRoomsFresh(t.beds, next, g, grp.roomType, suffixes, 0, grp.numberOfRooms, cap);
      GrowthCount(t, next, g, cap);
    }
  }

  /**
   * The bed count `_update_beds` leaves: exactly rooms × capacity when it
   * shrinks or keeps the group, and that plus the beds of the last
   * incomplete room when it grows.
   */
  lemma {:induction false} UpdateBedsCount(t: Tables, next: nat, g: Id, cap: nat)
    requires g in t.groups && t.groups[g].roomType in t.roomTypes && BedIdsBelow(t.beds, next)
    requires t.roomTypes[t.groups[g].roomType].capacity == Some(cap)
    ensures var out := UpdateBedsSpec(t, next, g);
      var current := |GroupBeds(t.beds, g, next)|;
      var required := cap * t.groups[g].numberOfRooms;
      out.Ok? ==>
        |GroupBeds(out.tables.beds, g, out.next)| == if required <= current then required else required + current % cap
  {
    var current := |GroupBeds(t.beds, g, next)|;
    var required := cap * t.groups[g].numberOfRooms;
    if required < current {
      ShrinkKeepsOldest(t, next, g, cap);
    } else if required > current {
      GrowthCount(t, next, g, cap);
    } else {
      assert UpdateBedsSpec(t, next, g) == Ok(WithTotal(t, g, t.groups[g].numberOfRooms * cap), next);
    }
  }

  /** Once the group holds rooms × capacity beds, running `_update_beds` again changes nothing. */
  lemma {:induction false} UpdateBedsSettles(t: Tables, next: nat, g: Id, cap: nat)
    requires g in t.groups && t.groups[g].roomType in t.roomTypes
    requires t.roomTypes[t.groups[g].roomType].capacity == Some(cap)
    requires UpdateBedsSpec(t, next, g).Ok?
    requires |GroupBeds(UpdateBedsSpec(t, next, g).tables.beds, g, UpdateBedsSpec(t, next, g).next)| == cap * t.groups[g].numberOfRooms
    ensures var out := UpdateBedsSpec(t, next, g);
      && g in out.tables.groups && out.tables.groups[g].roomType in out.tables.roomTypes
      && UpdateBedsSpec(out.tables, out.next, g) == out
  {
    UpdateBedsFrame(t, next, g);
    var out := UpdateBedsSpec(t, next, g);
    assert WithTotal(out.tables, g, t.groups[g].numberOfRooms * cap) == out.tables;
  }

  /** The deletion loop: deletes the beds of `doomed` in order. */
  method RemoveBeds(db: Db, doomed: seq<Id>)
    requires db.Valid()
    modifies db
    ensures db.Valid()
    ensures db.State() == DeleteBeds(old(db.State()), doomed) && db.nextId == old(db.nextId)
  {
    ghost var t0 := db.State();
    var i := 0;
    while i < |doomed|
      invariant 0 <= i <= |doomed|
      invariant db.State() == DeleteBeds(t0, doomed[..i]) && db.nextId == old(db.nextId)
      invariant db.Valid()
    {
      var d := doomed[i];
      DeleteBedKeepsWellFormed(db.State(), db.nextId, d);
      var after := DeleteBed(db.State(), d);
      db.beds, db.bookings := after.beds, after.bookings;
      assert db.State() == after;
      assert doomed[..i + 1][..i] == doomed[..i];
      i := i + 1;
    }
    assert doomed[..i] == doomed;
  }

  /** One pass of the inner creation loop, and where each exit leaves the room. */
  lemma {:induction false} RoomStep(b0: map<Id, Bed>, n0: nat, g: Id, rt: Id, suffixes: seq<string>, room: nat, cap: nat, bedNo: nat, before: map<Id, Bed>, next: nat)
    requires 1 <= bedNo <= cap
    requires FillRoom(b0, n0, g, rt, suffixes, room, bedNo - 1) == Grown(before, next)
    ensures bedNo > |suffixes| ==>
      FillRoom(b0, n0, g, rt, suffixes, room, cap) == Halted(SuffixOutOfRange, next)
    ensures bedNo <= |suffixes| && NumberTaken(before, g, BedNumber(room, suffixes[bedNo - 1])) ==>
      FillRoom(b0, n0, g, rt, suffixes, room, cap) == Halted(DuplicateBedNumber, next + 1)
    ensures bedNo <= |suffixes| && !NumberTaken(before, g, BedNumber(room, suffixes[bedNo - 1])) ==>
      FillRoom(b0, n0, g, rt, suffixes, room, bedNo)
        == Grown(before[next := NewBed(g, rt, BedNumber(room, suffixes[bedNo - 1]))], next + 1)
  {
    if FillRoom(b0, n0, g, rt, suffixes, room, bedNo).Halted? {
      RoomHaltSticks(b0, n0, g, rt, suffixes, room, bedNo, cap);
    }
  }

  /** The inner creation loop: beds 1 to `cap` of room `room`. */
  method AddRoom(db: Db, g: Id, rt: Id, suffixes: seq<string>, room: nat, cap: nat) returns (err: Option<InventoryError>)
    modifies db`beds, db`nextId
    ensures err.None? ==> FillRoom(old(db.beds), old(db.nextId), g, rt, suffixes, room, cap) == Grown(db.beds, db.nextId)
    ensures err.Some? ==> FillRoom(old(db.beds), old(db.nextId), g, rt, suffixes, room, cap) == Halted(err.value, db.nextId)
  {
    err := None;
    ghost var b0, n0 := db.beds, db.nextId;
    var bedNo := 1;
    while bedNo <= cap
      invariant 1 <= bedNo <= cap + 1
      invariant FillRoom(b0, n0, g, rt, suffixes, room, bedNo - 1) == Grown(db.beds, db.nextId)
    {
      RoomStep(b0, n0, g, rt, suffixes, room, cap, bedNo, db.beds, db.nextId);
      if bedNo - 1 >= |suffixes| {
        return Some(SuffixOutOfRange);
      }
      var number := BedNumber(room, suffixes[bedNo - 1]);
      var id := db.FreshId();
      if NumberTaken(db.beds, g, number) {
        return Some(DuplicateBedNumber);
      }
      db.beds := db.beds[id := NewBed(g, rt, number)];
      bedNo := bedNo + 1;
    }
  }

  /** One pass of the outer creation loop: a filled room extends the rooms before it. */
  lemma {:induction false} RoomsStep(b0: map<Id, Bed>, n0: nat, g: Id, rt: Id, suffixes: seq<string>, done: nat, rooms: nat, cap: nat, room: nat, before: map<Id, Bed>, next: nat)
    requires done < room <= rooms
    requires FillRooms(b0, n0, g, rt, suffixes, done, room - 1, cap) == Grown(before, next)
    ensures FillRoom(before, next, g, rt, suffixes, room, cap).Grown? ==>
      FillRooms(b0, n0, g, rt, suffixes, done, room, cap) == FillRoom(before, next, g, rt, suffixes, room, cap)
    ensures FillRoom(before, next, g, rt, suffixes, room, cap).Halted? ==>
      FillRooms(b0, n0, g, rt, suffixes, done, rooms, cap) == FillRoom(before, next, g, rt, suffixes, room, cap)
  {
    if FillRoom(before, next, g, rt, suffixes, room, cap).Halted? {
      RoomsHaltSticks(b0, n0, g, rt, suffixes, done, room, rooms, cap);
    }
  }

  /** The outer creation loop: rooms `done + 1` to `rooms`. */
  method AddBeds(db: Db, g: Id, rt: Id, suffixes: seq<string>, done: nat, rooms: nat, cap: nat) returns (err: Option<InventoryError>)
    modifies db`beds, db`nextId
    ensures err.None? ==> FillRooms(old(db.beds), old(db.nextId), g, rt, suffixes, done, rooms, cap) == Grown(db.beds, db.nextId)
    ensures err.Some? ==> FillRooms(old(db.beds), old(db.nextId), g, rt, suffixes, done, rooms, cap) == Halted(err.value, db.nextId)
  {
    err := None;
    ghost var b0, n0 := db.beds, db.nextId;
    var room := done + 1;
    while room <= rooms
      invariant done + 1 <= room && (room <= rooms + 1 || room == done + 1)
      invariant err.None?
      invariant FillRooms(b0, n0, g, rt, suffixes, done, room - 1, cap) == Grown(db.beds, db.nextId)
      decreases rooms + 1 - room
    {
      RoomsStep(b0, n0, g, rt, suffixes, done, rooms, cap, room, db.beds, db.nextId);
      err := AddRoom(db, g, rt, suffixes, room, cap);
      if err.Some? {
        return;
      }
      room := room + 1;
    }
  }

  /** `_update_beds` on a stored room group. */
  method UpdateBeds(db: Db, g: Id) returns (err: Option<InventoryError>)
    requires db.Valid() && g in db.groups
    modifies db
    ensures err.None? ==> db.Valid()
    ensures db.nextId >= old(db.nextId)
    ensures err.None? ==> UpdateBedsSpec(old(db.State()), old(db.nextId), g) == Ok(db.State(), db.nextId)
    ensures err.Some? ==> UpdateBedsSpec(old(db.State()), old(db.nextId), g) == Err(err.value, db.nextId)
  {
    err := None;
    ghost var t0, n0 := db.State(), db.nextId;
    var grp := db.groups[g];
    var rt := db.roomTypes[grp.roomType];
    if rt.capacity.None? {
      return Some(CapacityMissing);
    }
    var cap := rt.capacity.value;
    var total := grp.numberOfRooms * cap;
    var existing := GroupBeds(db.beds, g, db.nextId);
    var required := cap * grp.numberOfRooms;
    if required < |existing| {
      RemoveBeds(db, existing[..|existing| - required]);
      assert UpdateBedsSpec(t0, n0, g) == Ok(Shrink(t0, g, existing, required, total), n0);
    } else if required > |existing| {
      ghost var suffixes := SuffixList(rt.name, cap);
      assert UpdateBedsSpec(t0, n0, g) == Grow(t0, n0, g, suffixes, FullRooms(|existing|, cap), grp.numberOfRooms, cap, total);
      err := AddBeds(db, g, grp.roomType, SuffixList(rt.name, cap), FullRooms(|existing|, cap), grp.numberOfRooms, cap);
      if err.Some? {
        return;
      }
      assert db.State() == t0.(beds := db.beds);
    } else {
      assert UpdateBedsSpec(t0, n0, g) == Ok(WithTotal(t0, g, total), n0);
    }
    ghost var mid := db.State();
    assert UpdateBedsSpec(t0, n0, g) == Ok(WithTotal(mid, g, total), db.nextId);
    UpdateBedsKeepsWellFormed(t0, n0, g);
    var after := WithTotal(db.State(), g, total);
    db.groups := after.groups;
    assert db.State() == after;
  }
}
