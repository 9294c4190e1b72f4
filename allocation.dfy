/**
 * Bed allocation (`allocate_bed`): choose one free bed of the booking's
 * property and room type, bind it to the user, and mark the booking allotted.
 *
 * The candidate beds are read newest first (the default ordering of beds);
 * each candidate is paired with the room group it belongs to, which is what
 * the selection rule groups by.
 */
module Allocation {
  import opened Wrappers
  import opened Choices
  import opened Models
  import opened Database

  /** An exception the database raises while the allocation block runs. */
  datatype DbFault = DatabaseFault | IntegrityFault | ObjectMissing | OtherFault(message: string)

  const NoBedsMessage: string := "No available beds in this property and room type."
  const NoSuitableBedMessage: string := "Bed allocation failed. No suitable bed found."
  const DatabaseErrorMessage: string := "Database error during bed allocation."
  const MissingObjectMessage: string := "Required object not found."

  /** The message of the exception that leaves `allocate_bed` for a database fault. */
  function ReraisedMessage(f: DbFault): string
  {
    match f
    case DatabaseFault => DatabaseErrorMessage
    case IntegrityFault => DatabaseErrorMessage
    case ObjectMissing => MissingObjectMessage
    case OtherFault(m) => m
  }

  /** A free bed, of the given room type, in a room group of the given property. */
  predicate IsCandidate(t: Tables, b: Id, property: Id, roomType: Id)
  {
    && b in t.beds
    && t.beds[b].isAvailable
    && t.beds[b].roomType == Some(roomType)
    && t.beds[b].group.Some?
    && t.beds[b].group.value in t.groups
    && t.groups[t.beds[b].group.value].property == property
  }

  datatype Candidate = Candidate(bed: Id, group: Id)

  /** The candidate beds with id below `n`, newest (largest id) first. */
  function CandidatesBelow(t: Tables, property: Id, roomType: Id, n: nat): (c: seq<Candidate>)
    ensures forall i :: 0 <= i < |c| ==>
      c[i].bed < n && IsCandidate(t, c[i].bed, property, roomType) && t.beds[c[i].bed].group == Some(c[i].group)
    ensures forall b :: 0 <= b < n && IsCandidate(t, b, property, roomType) ==>
      Candidate(b, t.beds[b].group.value) in c
    ensures forall i, j :: 0 <= i < j < |c| ==> c[i].bed > c[j].bed
  {
    if n == 0 then []
    else
      var rest := CandidatesBelow(t, property, roomType, n - 1);
      if IsCandidate(t, n - 1, property, roomType)
      then [Candidate(n - 1, t.beds[n - 1].group.value)] + rest
      else rest
  }

  /** The room groups that hold at least one candidate. */
  function GroupsOf(c: seq<Candidate>): set<Id>
  {
    set i | 0 <= i < |c| :: c[i].group
  }

  /** How many candidates lie in group `g`. */
  function CountIn(c: seq<Candidate>, g: Id): nat
  {
    if c == [] then 0 else (if c[0].group == g then 1 else 0) + CountIn(c[1..], g)
  }

  /** The largest per-group count over the groups of `rest`. */
  function MaxCount(c: seq<Candidate>, rest: seq<Candidate>): (m: nat)
    ensures forall i :: 0 <= i < |rest| ==> CountIn(c, rest[i].group) <= m
    ensures |rest| > 0 ==> exists i :: 0 <= i < |rest| && CountIn(c, rest[i].group) == m
  {
    if rest == [] then 0
    else
      var m := MaxCount(c, rest[1..]);
      var here := CountIn(c, rest[0].group);
      if here >= m then here else m
  }

  /** The index of the first (newest) candidate whose group has count `m`. */
  function FirstWithCount(c: seq<Candidate>, m: nat, from: nat): (k: nat)
    requires from <= |c|
    requires exists i :: from <= i < |c| && CountIn(c, c[i].group) == m
    ensures from <= k < |c| && CountIn(c, c[k].group) == m
    ensures forall i :: from <= i < k ==> CountIn(c, c[i].group) != m
    decreases |c| - from
  {
    if CountIn(c, c[from].group) == m then from else FirstWithCount(c, m, from + 1)
  }

  /** `random.choice` among several candidates, otherwise `.first()`. */
  function RandomOrFirst(c: seq<Candidate>, pick: nat): (r: Option<Candidate>)
    ensures r.Some? <==> |c| > 0
    ensures r.Some? ==> r.value in c
  {
    if |c| > 1 then Some(c[pick % |c|])
    else if |c| == 1 then Some(c[0])
    else None
  }

  /**
   * The selection rule. When every room group of the property and room type
   * holds a candidate, the newest candidate is taken. Otherwise the newest
   * bed of a group with the largest number of candidates is taken (among
   * several such groups the database leaves the order open; here the group
   * whose newest bed is newest wins). The random pick and the single-bed
   * fallback are reached only when no group holds a candidate.
   */
  function SelectBed(c: seq<Candidate>, totalRooms: nat, pick: nat): (r: Option<Candidate>)
    ensures r.Some? ==> r.value in c
    ensures |c| > 0 ==> r.Some?
    ensures |c| > 0 && |GroupsOf(c)| == totalRooms ==> r == Some(c[0])
    ensures |c| > 0 && |GroupsOf(c)| != totalRooms && GroupsOf(c) != {} ==>
      forall i :: 0 <= i < |c| ==> CountIn(c, c[i].group) <= CountIn(c, r.value.group)
    ensures |c| > 0 && |GroupsOf(c)| != totalRooms ==>
      exists k :: 0 <= k < |c| && r == Some(c[k]) && forall i :: 0 <= i < k ==> c[i].group != c[k].group
  {
    assert |c| > 0 ==> c[0].group in GroupsOf(c);
    if |GroupsOf(c)| == totalRooms then
      if |c| > 0 then Some(c[0]) else None
    else if GroupsOf(c) != {} then
      var m := MaxCount(c, c);
      var k := FirstWithCount(c, m, 0);
      assert forall i :: 0 <= i < k ==> c[i].group != c[k].group by {
        forall i | 0 <= i < k ensures c[i].group != c[k].group {
          assert CountIn(c, c[i].group) != m;
        }
      }
      Some(c[k])
    else
      RandomOrFirst(c, pick)
  }

  /** The random pick never decides: some group always holds a candidate. */
  lemma {:induction false} SelectionIgnoresPick(c: seq<Candidate>, totalRooms: nat, p1: nat, p2: nat)
    ensures SelectBed(c, totalRooms, p1) == SelectBed(c, totalRooms, p2)
  {
    if |c| > 0 {
      assert c[0].group in GroupsOf(c);
    }
  }

  /** The number of room groups of `property` offering `roomType`. */
  function TotalRooms(t: Tables, property: Id, roomType: Id): nat
  {
    |set g | g in t.groups && t.groups[g].property == property && t.groups[g].roomType == roomType|
  }

  datatype AllocOutcome = AllocOutcome(result: Result<Id, string>, tables: Tables)

  /** The tables after `user` is given bed `b` for booking `k`. */
  function Bind(t: Tables, k: Id, user: Id, b: Id): Tables
    requires k in t.bookings && b in t.beds
  {
    t.(beds := t.beds[b := Occupied(t.beds[b], user)],
       bookings := t.bookings[k := t.bookings[k].(bed := Some(b), status := Allotted)])
  }

  /** What `allocate_bed(booking, user)` returns and leaves behind. */
  function Allocate(t: Tables, next: nat, k: Id, user: Id, fault: Option<DbFault>, pick: nat): (o: AllocOutcome)
    requires k in t.bookings
    ensures o.result.Failure? ==> o.tables == t
    ensures fault.Some? ==> o.result == Failure(ReraisedMessage(fault.value))
    ensures o.result.Success? ==>
      && IsCandidate(t, o.result.value, t.bookings[k].property, t.bookings[k].roomType)
      && o.tables == Bind(t, k, user, o.result.value)
    ensures fault.None? ==>
      (o.result.Success? <==> |CandidatesBelow(t, t.bookings[k].property, t.bookings[k].roomType, next)| > 0)
    ensures fault.None? && CandidatesBelow(t, t.bookings[k].property, t.bookings[k].roomType, next) == [] ==>
      o.result == Failure(NoBedsMessage)
  {
    var booking := t.bookings[k];
    if fault.Some? then AllocOutcome(Failure(ReraisedMessage(fault.value)), t)
    else
      var c := CandidatesBelow(t, booking.property, booking.roomType, next);
      if c == [] then AllocOutcome(Failure(NoBedsMessage), t)
      else
        match SelectBed(c, TotalRooms(t, booking.property, booking.roomType), pick)
        case None => AllocOutcome(Failure(NoSuitableBedMessage), t)
        case Some(chosen) => AllocOutcome(Success(chosen.bed), Bind(t, k, user, chosen.bed))
  }

  /**
   * In well-formed tables whose beds carry their groups' room types, every
   * candidate of (property, room type) lies in the one room group for that
   * pair, so the "all groups hold a candidate" branch fires.
   */
  lemma {:induction false} SingleGroupForCandidates(t: Tables, next: nat, property: Id, roomType: Id)
    requires WellFormed(t, next) && BedTypesMatchGroups(t)
    requires CandidatesBelow(t, property, roomType, next) != []
    ensures |GroupsOf(CandidatesBelow(t, property, roomType, next))| == TotalRooms(t, property, roomType) == 1
  {
    var c := CandidatesBelow(t, property, roomType, next);
    var all := set g | g in t.groups && t.groups[g].property == property && t.groups[g].roomType == roomType;
    var g0 := c[0].group;
    assert IsCandidate(t, c[0].bed, property, roomType);
    assert g0 in all;
    assert all == {g0} by {
      forall g | g in all ensures g == g0 { }
    }
    assert GroupsOf(c) == {g0} by {
      forall i | 0 <= i < |c| ensures c[i].group == g0 {
        assert IsCandidate(t, c[i].bed, property, roomType);
        assert c[i].group in all;
      }
    }
  }

  /** While beds carry their groups' room types, allocation takes the newest free matching bed. */
  lemma {:induction false} AllocatesNewestCandidate(t: Tables, next: nat, k: Id, user: Id, pick: nat)
    requires WellFormed(t, next) && BedTypesMatchGroups(t) && k in t.bookings
    requires Allocate(t, next, k, user, None, pick).result.Success?
    ensures var b := Allocate(t, next, k, user, None, pick).result.value;
      forall b' :: b' in t.beds && IsCandidate(t, b', t.bookings[k].property, t.bookings[k].roomType) ==> b' <= b
  {
    var booking := t.bookings[k];
    var c := CandidatesBelow(t, booking.property, booking.roomType, next);
    SingleGroupForCandidates(t, next, booking.property, booking.roomType);
    var b := Allocate(t, next, k, user, None, pick).result.value;
    assert b == c[0].bed;
    forall b' | b' in t.beds && IsCandidate(t, b', booking.property, booking.roomType) ensures b' <= b {
      var i :| 0 <= i < |c| && c[i].bed == b';
      assert i == 0 || c[0].bed > c[i].bed;
    }
  }

  /**
   * Candidates spread over more groups than the pair has (beds left with an
   * old room type by a room-group update): the newest candidate, in group 2,
   * is passed over for the newest bed of group 1, which holds more of them.
   */
  lemma {:induction false} MixedGroupsSkipNewest(pick: nat)
    ensures SelectBed([Candidate(21, 2), Candidate(12, 1), Candidate(11, 1)], 1, pick) == Some(Candidate(12, 1))
  {
    var c := [Candidate(21, 2), Candidate(12, 1), Candidate(11, 1)];
    assert GroupsOf(c) == {1, 2} by {
      assert c[0].group == 2 && c[1].group == 1;
    }
    assert CountIn(c, 2) == 1 && CountIn(c, 1) == 2 by {
      assert c[1..] == [Candidate(12, 1), Candidate(11, 1)];
      assert c[1..][1..] == [Candidate(11, 1)];
    }
    assert MaxCount(c, c) == 2;
  }

  lemma {:induction false} CandidatesStep(t: Tables, property: Id, roomType: Id, n: nat)
    requires n > 0
    ensures |CandidatesBelow(t, property, roomType, n)|
         == |CandidatesBelow(t, property, roomType, n - 1)| + (if IsCandidate(t, n - 1, property, roomType) then 1 else 0)
  {
  }

  /** After binding bed `b`, the candidates are the old ones except `b`. */
  lemma {:induction false} CandidateAfterBind(t: Tables, k: Id, user: Id, b: Id, property: Id, roomType: Id, x: Id)
    requires k in t.bookings && b in t.beds
    ensures IsCandidate(Bind(t, k, user, b), x, property, roomType) <==> IsCandidate(t, x, property, roomType) && x != b
  {
  }

  /** Binding a bed changes the candidate list only by removing that bed. */
  lemma {:induction false} CandidatesAfterBind(t: Tables, k: Id, user: Id, b: Id, property: Id, roomType: Id, n: nat)
    requires k in t.bookings && IsCandidate(t, b, property, roomType)
    ensures |CandidatesBelow(Bind(t, k, user, b), property, roomType, n)|
         == |CandidatesBelow(t, property, roomType, n)| - (if b < n then 1 else 0)
  {
    if n > 0 {
      var t' := Bind(t, k, user, b);
      CandidatesAfterBind(t, k, user, b, property, roomType, n - 1);
      CandidateAfterBind(t, k, user, b, property, roomType, n - 1);
      CandidatesStep(t, property, roomType, n);
      CandidatesStep(t', property, roomType, n);
      var before, after := |CandidatesBelow(t, property, roomType, n - 1)|, |CandidatesBelow(t', property, roomType, n - 1)|;
      if b == n - 1 {
        assert after == before && !IsCandidate(t', n - 1, property, roomType);
      } else if b < n - 1 {
        assert after == before - 1;
      } else {
        assert after == before;
      }
    }
  }

  /** A successful allocation lowers the number of free matching beds by exactly one. */
  lemma {:induction false} AllocationUsesOneBed(t: Tables, next: nat, k: Id, user: Id, fault: Option<DbFault>, pick: nat)
    requires WellFormed(t, next) && k in t.bookings
    requires Allocate(t, next, k, user, fault, pick).result.Success?
    ensures var o := Allocate(t, next, k, user, fault, pick);
      |CandidatesBelow(o.tables, t.bookings[k].property, t.bookings[k].roomType, next)|
        == |CandidatesBelow(t, t.bookings[k].property, t.bookings[k].roomType, next)| - 1
  {
    var o := Allocate(t, next, k, user, fault, pick);
    var b := o.result.value;
    CandidatesAfterBind(t, k, user, b, t.bookings[k].property, t.bookings[k].roomType, next);
  }

  /** Binding a free bed to an existing user keeps the tables well formed. */
  lemma {:induction false} BindKeepsWellFormed(t: Tables, next: nat, k: Id, user: Id, b: Id)
    requires WellFormed(t, next) && k in t.bookings && b in t.beds && user in t.users
    ensures WellFormed(Bind(t, k, user, b), next)
  {
    var t' := Bind(t, k, user, b);
    assert UniqueBedNumbers(t'.beds) by {
      forall b1, b2 | b1 in t'.beds && b2 in t'.beds && t'.beds[b1].group.Some? && t'.beds[b1].bedNumber.Some? &&
        t'.beds[b1].group == t'.beds[b2].group && t'.beds[b1].bedNumber == t'.beds[b2].bedNumber
        ensures b1 == b2
      {
        assert t.beds[b1].group == t'.beds[b1].group && t.beds[b1].bedNumber == t'.beds[b1].bedNumber;
        assert t.beds[b2].group == t'.beds[b2].group && t.beds[b2].bedNumber == t'.beds[b2].bedNumber;
      }
    }
  }

  /** Binding a bed changes neither its group nor its room type. */
  lemma {:induction false} BindKeepsBedTypes(t: Tables, k: Id, user: Id, b: Id)
    requires BedTypesMatchGroups(t) && k in t.bookings && b in t.beds
    ensures BedTypesMatchGroups(Bind(t, k, user, b))
  {
    var t' := Bind(t, k, user, b);
    forall x | x in t'.beds && t'.beds[x].group.Some? && t'.beds[x].group.value in t'.groups
      ensures t'.beds[x].roomType == Some(t'.groups[t'.beds[x].group.value].roomType)
    {
      assert t'.beds[x].group == t.beds[x].group && t'.beds[x].roomType == t.beds[x].roomType;
    }
  }

  /** `allocate_bed` on the store. */
  method AllocateBed(db: Db, k: Id, user: Id, fault: Option<DbFault>, pick: nat) returns (r: Result<Id, string>)
    requires db.Valid() && k in db.bookings && user in db.users
    modifies db
    ensures db.Valid() && db.nextId == old(db.nextId)
    ensures AllocOutcome(r, db.State()) == Allocate(old(db.State()), old(db.nextId), k, user, fault, pick)
  {
    if fault.Some? {
      return Failure(ReraisedMessage(fault.value));
    }
    var booking := db.bookings[k];
    var c := CandidatesBelow(db.State(), booking.property, booking.roomType, db.nextId);
    if c == [] {
      return Failure(NoBedsMessage);
    }
    var total := TotalRooms(db.State(), booking.property, booking.roomType);
    var choice := SelectBed(c, total, pick);
    if choice.None? {
      return Failure(NoSuitableBedMessage);
    }
    var b := choice.value.bed;
    BindKeepsWellFormed(db.State(), db.nextId, k, user, b);
    db.beds := db.beds[b := Occupied(db.beds[b], user)];
    db.bookings := db.bookings[k := booking.(bed := Some(b), status := Allotted)];
    r := Success(b);
  }
}
