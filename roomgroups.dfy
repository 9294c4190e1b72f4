/**
 * The admin endpoints over room types and room groups: creating a room type
 * (`RoomTypeSerializer.create`), creating and updating a property's room
 * group (`PropertyRoomTypeSerializer.create` and `update`, each followed by
 * `_update_beds`), and deleting a room group, whose beds go with it.
 *
 * Requests are atomic (ATOMIC_REQUESTS): an exception anywhere in the request
 * rolls every table back, while the id sequence keeps its advance.
 */
module RoomGroups {
  import opened Wrappers
  import opened Text
  import opened Decimals
  import opened Choices
  import opened Models
  import opened Database
  import opened BedNumbers
  import opened Inventory

  /** The largest value a PositiveIntegerField column holds. */
  const MaxPositiveInt: int := 2147483647

  /** `price_per_month`: `DecimalField(max_digits=19, decimal_places=2)`; prices are then counted in hundredths. */
  const PriceDigits: nat := 19
  const PricePlaces: nat := 2

  /** The request fields errors are reported under; `NonField` is "non_field_errors". */
  datatype Field = NameField | PropertyField | RoomTypeField | RoomsField | PriceField | NonField

  function FieldKey(f: Field): string
  {
    match f
    case NameField => "name"
    case PropertyField => "property"
    case RoomTypeField => "room_type"
    case RoomsField => "number_of_rooms"
    case PriceField => "price_per_month"
    case NonField => "non_field_errors"
  }

  /** The validation errors the endpoints report, one per validator. */
  datatype Message =
    | Required
    | InvalidChoice(value: string)
    | NameInUse
    | DoesNotExist(pk: Id)
    | BelowMinimum
    | AboveMaximum
    | Digits(e: DigitsError)
    | PairInUse

  /** DRF's text for each error. */
  function MessageText(m: Message): string
  {
    match m
    case Required => "This field is required."
    case InvalidChoice(v) => "\"" + v + "\" is not a valid choice."
    case NameInUse => "room type with this name already exists."
    case DoesNotExist(pk) => "Invalid pk \"" + NatToString(pk) + "\" - object does not exist."
    case BelowMinimum => "Ensure this value is greater than or equal to 0."
    case AboveMaximum => "Ensure this value is less than or equal to 2147483647."
    case Digits(e) => DigitsMessage(e)
    case PairInUse => "The fields property, room_type must make a unique set."
  }

  datatype Problem = Problem(field: Field, message: Message)

  /**
   * The texts the room-group serializer reports on its two foreign-key
   * fields for a missing value and for an unknown id. Its error-message
   * mixin replaces DRF's texts there with those of the application's
   * configuration, which is not part of this model.
   */
  datatype RelatedTexts = RelatedTexts(required: string, doesNotExist: Id -> string)

  predicate IsRelatedField(f: Field) { f == PropertyField || f == RoomTypeField }

  /** The text a room-group response carries for a problem. */
  function ProblemText(p: Problem, related: RelatedTexts): (s: string)
    ensures IsRelatedField(p.field) && p.message == Required ==> s == related.required
    ensures IsRelatedField(p.field) && p.message.DoesNotExist? ==> s == related.doesNotExist(p.message.pk)
    ensures !IsRelatedField(p.field) ==> s == MessageText(p.message)
  {
    if IsRelatedField(p.field) && p.message == Required then related.required
    else if IsRelatedField(p.field) && p.message.DoesNotExist? then related.doesNotExist(p.message.pk)
    else MessageText(p.message)
  }

  datatype Reply =
    | Saved(id: Id)
    | Deleted
    | Rejected(problems: seq<Problem>)
    | NotFound
    | ServerError

  datatype RequestOutcome = RequestOutcome(reply: Reply, tables: Tables, next: nat)

  // ---------------------------------------------------------------- room types

  predicate NameTaken(roomTypes: map<Id, RoomType>, n: RoomTypeName)
  {
    exists r :: r in roomTypes && roomTypes[r].name == n
  }

  /** The `name` field: a choice value (checked first), then the unique validator. */
  function RoomTypeProblems(roomTypes: map<Id, RoomType>, name: Option<string>): (r: seq<Problem>)
    ensures |r| <= 1
    ensures r == [] <==>
      name.Some? && ParseRoomTypeName(name.value).Some? && !NameTaken(roomTypes, ParseRoomTypeName(name.value).value)
  {
    if name.None? then [Problem(NameField, Required)]
    else
      match ParseRoomTypeName(name.value)
      case None => [Problem(NameField, InvalidChoice(name.value))]
      case Some(n) => if NameTaken(roomTypes, n) then [Problem(NameField, NameInUse)] else []
  }

  /** `RoomTypeSerializer.create`: the row is written, then its capacity is set from its name. */
  function CreateRoomType(t: Tables, next: nat, name: Option<string>): (o: RequestOutcome)
    ensures !o.reply.Saved? ==> o.tables == t && o.next == next
  {
    var problems := RoomTypeProblems(t.roomTypes, name);
    if problems != [] then RequestOutcome(Rejected(problems), t, next)
    else
      var n := ParseRoomTypeName(name.value).value;
      RequestOutcome(Saved(next), t.(roomTypes := t.roomTypes[next := RoomType(n, Some(CapacityFor(n)))]), next + 1)
  }

  /** Every room type of a name holds the capacity that name gets on creation. */
  ghost predicate CapacitiesFromNames(roomTypes: map<Id, RoomType>)
  {
    forall r :: r in roomTypes ==> roomTypes[r].capacity == Some(CapacityFor(roomTypes[r].name))
  }

  /**
   * A created room type is stored under a fresh id with the name the request
   * spelled and the capacity of that name; the names stay unique and the
   * tables stay well formed.
   */
  lemma {:induction false} CreatedRoomType(t: Tables, next: nat, name: Option<string>)
    requires WellFormed(t, next) && UniqueRoomTypeNames(t.roomTypes)
    requires CreateRoomType(t, next, name).reply.Saved?
    ensures var o := CreateRoomType(t, next, name);
      && name.Some? && o.reply.id == next && next !in t.roomTypes && o.next == next + 1
      && next in o.tables.roomTypes && RoomTypeValue(o.tables.roomTypes[next].name) == name.value
      && o.tables.roomTypes[next].capacity == Some(CapacityFor(o.tables.roomTypes[next].name))
      && o.tables == t.(roomTypes := o.tables.roomTypes)
      && o.tables.roomTypes == t.roomTypes[next := o.tables.roomTypes[next]]
      && UniqueRoomTypeNames(o.tables.roomTypes)
      && WellFormed(o.tables, o.next)
  {
    var o := CreateRoomType(t, next, name);
    var n := ParseRoomTypeName(name.value).value;
    assert !NameTaken(t.roomTypes, n);
  }

  /** A room-type value is accepted exactly when no room type has that name yet; the second request for it is refused. */
  lemma {:induction false} EachNameOnce(t: Tables, next: nat, n: RoomTypeName)
    ensures CreateRoomType(t, next, Some(RoomTypeValue(n))).reply.Saved? <==> !NameTaken(t.roomTypes, n)
    ensures var o := CreateRoomType(t, next, Some(RoomTypeValue(n)));
      CreateRoomType(o.tables, o.next, Some(RoomTypeValue(n))).reply == Rejected([Problem(NameField, NameInUse)])
  {
    RoomTypeRoundTrip(n);
    var o := CreateRoomType(t, next, Some(RoomTypeValue(n)));
    if o.reply.Saved? {
      assert o.tables.roomTypes[next].name == n;
    }
    assert NameTaken(o.tables.roomTypes, n);
  }

  /** Room types created through the endpoint carry the capacity of their name. */
  lemma {:induction false} CreateRoomTypeKeepsCapacities(t: Tables, next: nat, name: Option<string>)
    requires CapacitiesFromNames(t.roomTypes)
    ensures CapacitiesFromNames(CreateRoomType(t, next, name).tables.roomTypes)
  {
  }

  lemma {:induction false} NewRoomTypeKeepsWellFormed(t: Tables, next: nat, rt: RoomType)
    requires WellFormed(t, next)
    ensures WellFormed(t.(roomTypes := t.roomTypes[next := rt]), next + 1)
  {
  }

  /** The room-type create endpoint on the store. */
  method CreateRoomTypeOn(db: Db, name: Option<string>) returns (reply: Reply)
    requires db.Valid()
    modifies db`roomTypes, db`nextId
    ensures db.Valid()
    ensures RequestOutcome(reply, db.State(), db.nextId) == CreateRoomType(old(db.State()), old(db.nextId), name)
  {
    var problems := RoomTypeProblems(db.roomTypes, name);
    if problems != [] {
      return Rejected(problems);
    }
    var n := ParseRoomTypeName(name.value).value;
    NewRoomTypeKeepsWellFormed(db.State(), db.nextId, RoomType(n, Some(CapacityFor(n))));
    var id := db.FreshId();
    db.roomTypes := db.roomTypes[id := RoomType(n, None)];
    db.roomTypes := db.roomTypes[id := db.roomTypes[id].(capacity := Some(CapacityFor(n)))];
    assert db.State() == old(db.State()).(roomTypes := old(db.roomTypes)[id := RoomType(n, Some(CapacityFor(n)))]);
    reply := Saved(id);
  }

  // --------------------------------------------------------------- room groups

  /**
   * The fields of a room-group request as they arrive; `None` when absent.
   * A create or a full update (PUT) requires every field; a partial update
   * (PATCH) may leave any out.
   */
  datatype GroupRequest = GroupRequest(property: Option<Id>, roomType: Option<Id>, rooms: Option<int>, price: Option<Decimal>)

  /** A foreign-key field; an absent value is an error only when the field is required. */
  function KeyProblems(field: Field, v: Option<Id>, existing: set<Id>, required: bool): (r: seq<Problem>)
    ensures r == [] <==> (v.None? && !required) || (v.Some? && v.value in existing)
    ensures v.Some? && v.value !in existing ==> r == [Problem(field, DoesNotExist(v.value))]
  {
    if v.None? then (if required then [Problem(field, Required)] else [])
    else if v.value !in existing then [Problem(field, DoesNotExist(v.value))]
    else []
  }

  /** `number_of_rooms`; an absent value is an error only when the field is required. */
  function RoomsProblems(v: Option<int>, required: bool): (r: seq<Problem>)
    ensures r == [] <==> (v.None? && !required) || (v.Some? && 0 <= v.value <= MaxPositiveInt)
  {
    if v.None? then (if required then [Problem(RoomsField, Required)] else [])
    else if v.value < 0 then [Problem(RoomsField, BelowMinimum)]
    else if v.value > MaxPositiveInt then [Problem(RoomsField, AboveMaximum)]
    else []
  }

  /** `price_per_month`: the digit checks of the field; an absent value is an error only when the field is required. */
  function PriceProblems(v: Option<Decimal>, required: bool): (r: seq<Problem>)
    ensures r == [] <==> (v.None? && !required) || (v.Some? && Quantize(PriceDigits, PricePlaces, v.value).Success?)
    ensures v.Some? && Quantize(PriceDigits, PricePlaces, v.value).Failure? ==>
      r == [Problem(PriceField, Digits(Quantize(PriceDigits, PricePlaces, v.value).error))]
  {
    if v.None? then (if required then [Problem(PriceField, Required)] else [])
    else
      match Quantize(PriceDigits, PricePlaces, v.value)
      case Failure(e) => [Problem(PriceField, Digits(e))]
      case Success(_) => []
  }

  /** The field errors of a request, in field order. */
  function FieldProblems(t: Tables, req: GroupRequest, required: bool): (r: seq<Problem>)
    ensures r == [] <==>
      && KeyProblems(PropertyField, req.property, t.properties, required) == []
      && KeyProblems(RoomTypeField, req.roomType, t.roomTypes.Keys, required) == []
      && RoomsProblems(req.rooms, required) == []
      && PriceProblems(req.price, required) == []
  {
    KeyProblems(PropertyField, req.property, t.properties, required)
      + KeyProblems(RoomTypeField, req.roomType, t.roomTypes.Keys, required)
      + RoomsProblems(req.rooms, required)
      + PriceProblems(req.price, required)
  }

  /** A price that passed its field, in hundredths. */
  function PriceValue(d: Decimal): (p: int)
    requires Quantize(PriceDigits, PricePlaces, d).Success?
    ensures FitsPlaces(d, PricePlaces) && p == Scaled(d, PricePlaces)
  {
    Quantize(PriceDigits, PricePlaces, d).value
  }

  /** 10^17 has eighteen digits, within the total of nineteen, but seventeen whole digits fit. */
  lemma {:induction false} PriceWholeDigitsRefused(d: Decimal)
    requires d == Decimal(false, 1, 17)
    ensures PriceProblems(Some(d), true) == [Problem(PriceField, Digits(MaxWholeDigits(17)))]
  {
  }

  /** The (property, room type) pairs the room groups already use. */
  function GroupPairs(groups: map<Id, RoomGroup>): set<(Id, Id)>
  {
    set g | g in groups :: (groups[g].property, groups[g].roomType)
  }

  /** Another room group already pairs this property with this room type. */
  predicate GroupClash(groups: map<Id, RoomGroup>, property: Id, roomType: Id)
  {
    (property, roomType) in GroupPairs(groups)
  }

  /** The field errors of a create in field order; the unique-together check runs only when every field is valid. */
  function GroupProblems(t: Tables, req: GroupRequest): (r: seq<Problem>)
    ensures r == [] <==>
      && req.property.Some? && req.property.value in t.properties
      && req.roomType.Some? && req.roomType.value in t.roomTypes
      && req.rooms.Some? && 0 <= req.rooms.value <= MaxPositiveInt
      && req.price.Some? && Quantize(PriceDigits, PricePlaces, req.price.value).Success?
      && !GroupClash(t.groups, req.property.value, req.roomType.value)
    ensures FieldProblems(t, req, true) != [] ==> r == FieldProblems(t, req, true)
  {
    var fields := FieldProblems(t, req, true);
    if fields != [] then fields
    else if GroupClash(t.groups, req.property.value, req.roomType.value) then [Problem(NonField, PairInUse)]
    else []
  }

  /**
   * The reply once `_update_beds` for group `g` has ended with `out`: the
   * request is saved with the new beds, or, when the beds cannot be created,
   * it fails and every table is back to `t` while the counter keeps its advance.
   */
  function Settle(t: Tables, out: Outcome, g: Id): (o: RequestOutcome)
    ensures o.next == out.next
    ensures o.reply == Saved(g) <==> out.Ok?
    ensures out.Ok? ==> o.tables == out.tables
    ensures out.Err? ==> o.reply == ServerError && o.tables == t
  {
    match out
    case Err(_, n) => RequestOutcome(ServerError, t, n)
    case Ok(t2, n) => RequestOutcome(Saved(g), t2, n)
  }

  /** Whichever way `_update_beds` ends, the tables the request leaves are well formed. */
  lemma {:induction false} SettleKeepsWellFormed(t: Tables, base: nat, out: Outcome, g: Id)
    requires WellFormed(t, base) && base <= out.next
    requires out.Ok? ==> WellFormed(out.tables, out.next)
    ensures WellFormed(Settle(t, out, g).tables, Settle(t, out, g).next)
  {
    if out.Err? {
      WellFormedUpTo(t, base, out.next);
    }
  }

  /** `_update_beds` on well-formed tables `t1`, rolled back to `t` on failure, leaves well-formed tables. */
  lemma {:induction false} SettledUpdateKeepsWellFormed(t: Tables, base: nat, t1: Tables, next: nat, g: Id)
    requires WellFormed(t, base) && base <= next
    requires WellFormed(t1, next) && g in t1.groups
    ensures var o := Settle(t, UpdateBedsSpec(t1, next, g), g);
      WellFormed(o.tables, o.next)
  {
    UpdateBedsKeepsWellFormed(t1, next, g);
    SettleKeepsWellFormed(t, base, UpdateBedsSpec(t1, next, g), g);
  }

  /** `PropertyRoomTypeSerializer.create`: the group is written, then its beds. */
  function CreateRoomGroup(t: Tables, next: nat, req: GroupRequest): (o: RequestOutcome)
    ensures o.next >= next
    ensures !o.reply.Saved? ==> o.tables == t
    ensures o.reply.Rejected? ==> o.next == next
  {
    var problems := GroupProblems(t, req);
    if problems != [] then RequestOutcome(Rejected(problems), t, next)
    else
      AddGroup(t, next, NewRoomGroup(req.property.value, req.roomType.value, req.rooms.value as nat, PriceValue(req.price.value)))
  }

  /** Writing room group `grp` under id `next`, then its beds. */
  function AddGroup(t: Tables, next: nat, grp: RoomGroup): (o: RequestOutcome)
    requires grp.roomType in t.roomTypes
    ensures o.next >= next + 1
    ensures o.reply == Saved(next) || (o.reply == ServerError && o.tables == t)
  {
    Settle(t, UpdateBedsSpec(t.(groups := t.groups[next := grp]), next + 1, next), next)
  }

  lemma {:induction false} AddGroupKeepsWellFormed(t: Tables, next: nat, grp: RoomGroup)
    requires WellFormed(t, next)
    requires grp.property in t.properties && grp.roomType in t.roomTypes
    requires !GroupClash(t.groups, grp.property, grp.roomType)
    ensures var o := AddGroup(t, next, grp);
      WellFormed(o.tables, o.next)
  {
    var t1 := t.(groups := t.groups[next := grp]);
    NewGroupKeepsWellFormed(t, next, grp);
    SettledUpdateKeepsWellFormed(t, next, t1, next + 1, next);
    var o := Settle(t, UpdateBedsSpec(t1, next + 1, next), next);
    assert WellFormed(o.tables, o.next);
  }

  lemma {:induction false} NewGroupKeepsWellFormed(t: Tables, next: nat, grp: RoomGroup)
    requires WellFormed(t, next)
    requires grp.property in t.properties && grp.roomType in t.roomTypes
    requires !GroupClash(t.groups, grp.property, grp.roomType)
    ensures WellFormed(t.(groups := t.groups[next := grp]), next + 1)
  {
    forall g | g in t.groups
      ensures (t.groups[g].property, t.groups[g].roomType) != (grp.property, grp.roomType)
    {
      assert (t.groups[g].property, t.groups[g].roomType) in GroupPairs(t.groups);
    }
  }

  /** Creating a room group keeps the tables well formed. */
  lemma {:induction false} CreateRoomGroupKeepsWellFormed(t: Tables, next: nat, req: GroupRequest)
    requires WellFormed(t, next)
    ensures var o := CreateRoomGroup(t, next, req);
      WellFormed(o.tables, o.next)
  {
    if GroupProblems(t, req) == [] {
      AddGroupKeepsWellFormed(t, next, NewRoomGroup(req.property.value, req.roomType.value, req.rooms.value as nat, PriceValue(req.price.value)));
    }
  }

  /** A new group and the beds `_update_beds` gives it carry the same room type. */
  lemma {:induction false} CreateRoomGroupKeepsBedTypes(t: Tables, next: nat, req: GroupRequest)
    requires WellFormed(t, next) && BedTypesMatchGroups(t)
    ensures BedTypesMatchGroups(CreateRoomGroup(t, next, req).tables)
  {
    if GroupProblems(t, req) == [] {
      var grp := NewRoomGroup(req.property.value, req.roomType.value, req.rooms.value as nat, PriceValue(req.price.value));
      var t1 := t.(groups := t.groups[next := grp]);
      assert BedTypesMatchGroups(t1) by {
        forall b | b in t1.beds && t1.beds[b].group.Some? && t1.beds[b].group.value in t1.groups
          ensures t1.beds[b].roomType == Some(t1.groups[t1.beds[b].group.value].roomType)
        {
          assert t.beds[b].group.value in t.groups;
        }
      }
      UpdateBedsKeepsBedTypes(t1, next + 1, next);
    }
  }

  /**
   * A valid request for a room type whose capacity is that of its name is
   * saved under a fresh id, and the new group holds exactly rooms × capacity
   * beds with that total capacity recorded.
   */
  lemma {:induction false} NewGroupGetsAllBeds(t: Tables, next: nat, req: GroupRequest)
    requires WellFormed(t, next) && GroupProblems(t, req) == []
    requires t.roomTypes[req.roomType.value].capacity == Some(CapacityFor(t.roomTypes[req.roomType.value].name))
    ensures var o := CreateRoomGroup(t, next, req);
      var cap := CapacityFor(t.roomTypes[req.roomType.value].name);
      && o.reply == Saved(next) && next in o.tables.groups
      && o.tables.groups[next].property == req.property.value && o.tables.groups[next].roomType == req.roomType.value
      && o.tables.groups[next].totalCapacity == Some(req.rooms.value * cap)
      && |GroupBeds(o.tables.beds, next, o.next)| == cap * req.rooms.value
  {
    assert forall b :: b in t.beds ==> t.beds[b].group != Some(next) by {
      forall b | b in t.beds ensures t.beds[b].group != Some(next) {
        if t.beds[b].group.Some? {
          assert t.beds[b].group.value in t.groups;
        }
      }
    }
    var grp := NewRoomGroup(req.property.value, req.roomType.value, req.rooms.value as nat, PriceValue(req.price.value));
    AddGroupGetsAllBeds(t, next, grp);
  }

  /** A group written under a fresh id gets all its beds when its room type has the capacity of its name. */
  lemma {:induction false} AddGroupGetsAllBeds(t: Tables, next: nat, grp: RoomGroup)
    requires grp.roomType in t.roomTypes && BedIdsBelow(t.beds, next)
    requires t.roomTypes[grp.roomType].capacity == Some(CapacityFor(t.roomTypes[grp.roomType].name))
    requires forall b :: b in t.beds ==> t.beds[b].group != Some(next)
    ensures var o := AddGroup(t, next, grp);
      var cap := CapacityFor(t.roomTypes[grp.roomType].name);
      && o.reply == Saved(next) && next in o.tables.groups
      && o.tables.groups[next].property == grp.property && o.tables.groups[next].roomType == grp.roomType
      && o.tables.groups[next].totalCapacity == Some(grp.numberOfRooms * cap)
      && |GroupBeds(o.tables.beds, next, o.next)| == cap * grp.numberOfRooms
  {
    var cap := CapacityFor(t.roomTypes[grp.roomType].name);
    var t1 := t.(groups := t.groups[next := grp]);
    FreshGroupGetsAllBeds(t1, next + 1, next, cap);
    UpdateBedsFrame(t1, next + 1, next);
  }

  /** Once a group pairs a property with a room type, a second request for the same pair is refused. */
  lemma {:induction false} SecondGroupRefused(t: Tables, next: nat, req: GroupRequest, again: GroupRequest)
    requires CreateRoomGroup(t, next, req).reply.Saved?
    requires again.property == req.property && again.roomType == req.roomType
    ensures var o := CreateRoomGroup(t, next, req);
      CreateRoomGroup(o.tables, o.next, again).reply.Rejected?
  {
    var grp := NewRoomGroup(req.property.value, req.roomType.value, req.rooms.value as nat, PriceValue(req.price.value));
    var t1 := t.(groups := t.groups[next := grp]);
    UpdateBedsFrame(t1, next + 1, next);
    var o := CreateRoomGroup(t, next, req);
    assert next in o.tables.groups && o.tables.groups[next].property == grp.property && o.tables.groups[next].roomType == grp.roomType;
    assert GroupProblems(o.tables, again) != [];
  }

  /** The (property, room type) pair the group has once the request's fields are written. */
  function PairAfter(grp: RoomGroup, req: GroupRequest): (Id, Id)
  {
    (if req.property.Some? then req.property.value else grp.property,
     if req.roomType.Some? then req.roomType.value else grp.roomType)
  }

  /** The request gives the property or the room type a value other than the group's own. */
  predicate PairChanged(grp: RoomGroup, req: GroupRequest)
  {
    (req.property.Some? && req.property.value != grp.property) || (req.roomType.Some? && req.roomType.value != grp.roomType)
  }

  /**
   * The unique-together check of an update: absent fields take the group's
   * own values, the group itself is left out of the search, and the check is
   * skipped when no field the request carries differs from the group.
   */
  predicate UpdateClash(groups: map<Id, RoomGroup>, g: Id, req: GroupRequest)
    requires g in groups
  {
    PairChanged(groups[g], req) && GroupClash(groups - {g}, PairAfter(groups[g], req).0, PairAfter(groups[g], req).1)
  }

  /**
   * The problems of an update of group `g`, in field order: a full update
   * requires every field, a partial one checks the fields it carries; the
   * unique-together check runs only when every field is valid.
   */
  function ChangeProblems(t: Tables, g: Id, req: GroupRequest, partial: bool): (r: seq<Problem>)
    requires g in t.groups
    ensures r == [] <==> FieldProblems(t, req, !partial) == [] && !UpdateClash(t.groups, g, req)
    ensures FieldProblems(t, req, !partial) != [] ==> r == FieldProblems(t, req, !partial)
    ensures FieldProblems(t, req, !partial) == [] && UpdateClash(t.groups, g, req) ==> r == [Problem(NonField, PairInUse)]
  {
    var fields := FieldProblems(t, req, !partial);
    if fields != [] then fields
    else if UpdateClash(t.groups, g, req) then [Problem(NonField, PairInUse)]
    else []
  }

  /**
   * With the fields it carries valid, an update leaves the pair it ends
   * with either the group's own, or a pair no other group has.
   */
  lemma {:induction false} ValidChangeKeepsPairsUnique(t: Tables, next: nat, g: Id, req: GroupRequest, partial: bool)
    requires WellFormed(t, next) && g in t.groups && ChangeProblems(t, g, req, partial) == []
    ensures forall h :: h in t.groups && h != g ==> (t.groups[h].property, t.groups[h].roomType) != PairAfter(t.groups[g], req)
  {
    forall h | h in t.groups && h != g
      ensures (t.groups[h].property, t.groups[h].roomType) != PairAfter(t.groups[g], req)
    {
      if PairChanged(t.groups[g], req) {
        assert h in t.groups - {g};
        assert (t.groups[h].property, t.groups[h].roomType) in GroupPairs(t.groups - {g});
      }
    }
  }

  /** The group after a valid update: the fields the request carries are written, the rest kept. */
  function Changed(grp: RoomGroup, req: GroupRequest): (r: RoomGroup)
    requires req.rooms.Some? ==> req.rooms.value >= 0
    requires req.price.Some? ==> Quantize(PriceDigits, PricePlaces, req.price.value).Success?
    ensures (r.property, r.roomType) == PairAfter(grp, req)
    ensures r.totalCapacity == grp.totalCapacity && r.isBedAvailable == grp.isBedAvailable
    ensures r.numberOfRooms == if req.rooms.Some? then req.rooms.value else grp.numberOfRooms
    ensures r.pricePerMonth == if req.price.Some? then Scaled(req.price.value, PricePlaces) else grp.pricePerMonth
  {
    grp.(property := PairAfter(grp, req).0,
         roomType := PairAfter(grp, req).1,
         numberOfRooms := if req.rooms.Some? then req.rooms.value as nat else grp.numberOfRooms,
         pricePerMonth := if req.price.Some? then PriceValue(req.price.value) else grp.pricePerMonth)
  }

  /**
   * `PropertyRoomTypeSerializer.update` for group `g` (a partial update when
   * `partial`): find the group, validate, write the fields, then `_update_beds`.
   */
  function UpdateRoomGroup(t: Tables, next: nat, g: Id, req: GroupRequest, partial: bool): (o: RequestOutcome)
    requires g in t.groups ==> t.groups[g].roomType in t.roomTypes
    ensures o.next >= next
    ensures !o.reply.Saved? ==> o.tables == t
    ensures o.reply.NotFound? <==> g !in t.groups
    ensures g in t.groups ==> (o.reply.Rejected? <==> ChangeProblems(t, g, req, partial) != [])
    ensures o.reply.Saved? ==> o.reply.id == g && g in t.groups && ChangeProblems(t, g, req, partial) == []
  {
    if g !in t.groups then RequestOutcome(NotFound, t, next)
    else
      var problems := ChangeProblems(t, g, req, partial);
      if problems != [] then RequestOutcome(Rejected(problems), t, next)
      else
        Settle(t, UpdateBedsSpec(t.(groups := t.groups[g := Changed(t.groups[g], req)]), next, g), g)
  }

  lemma {:induction false} ChangedGroupKeepsWellFormed(t: Tables, next: nat, g: Id, req: GroupRequest, partial: bool)
    requires WellFormed(t, next) && g in t.groups && ChangeProblems(t, g, req, partial) == []
    ensures WellFormed(t.(groups := t.groups[g := Changed(t.groups[g], req)]), next)
  {
    ValidChangeKeepsPairsUnique(t, next, g, req, partial);
  }

  /** Updating a room group keeps the tables well formed. */
  lemma {:induction false} UpdateRoomGroupKeepsWellFormed(t: Tables, next: nat, g: Id, req: GroupRequest, partial: bool)
    requires WellFormed(t, next)
    ensures WellFormed(UpdateRoomGroup(t, next, g, req, partial).tables, UpdateRoomGroup(t, next, g, req, partial).next)
  {
    if g in t.groups && ChangeProblems(t, g, req, partial) == [] {
      ChangedGroupKeepsWellFormed(t, next, g, req, partial);
      SettledUpdateKeepsWellFormed(t, next, t.(groups := t.groups[g := Changed(t.groups[g], req)]), next, g);
    }
  }

  /**
   * After a saved update the group holds rooms × capacity beds when it
   * shrank or kept its size, and that plus the beds of its last incomplete
   * room when it grew; its total capacity is rooms × capacity either way.
   * Capacity is that of the room type the group has after the update.
   */
  lemma {:induction false} UpdatedGroupBeds(t: Tables, next: nat, g: Id, req: GroupRequest, partial: bool)
    requires WellFormed(t, next)
    requires UpdateRoomGroup(t, next, g, req, partial).reply.Saved?
    ensures var o := UpdateRoomGroup(t, next, g, req, partial);
      var grp := Changed(t.groups[g], req);
      var cap := t.roomTypes[grp.roomType].capacity.value;
      var current := |GroupBeds(t.beds, g, next)|;
      && t.roomTypes[grp.roomType].capacity.Some?
      && g in o.tables.groups && o.tables.groups[g].totalCapacity == Some(grp.numberOfRooms * cap)
      && (o.tables.groups[g].property, o.tables.groups[g].roomType) == PairAfter(t.groups[g], req)
      && |GroupBeds(o.tables.beds, g, o.next)|
         == if cap * grp.numberOfRooms <= current then cap * grp.numberOfRooms else cap * grp.numberOfRooms + current % cap
  {
    var grp := Changed(t.groups[g], req);
    var t1 := t.(groups := t.groups[g := grp]);
    assert t1.beds == t.beds;
    UpdateBedsFrame(t1, next, g);
    UpdateBedsCount(t1, next, g, t.roomTypes[grp.roomType].capacity.value);
  }

  /**
   * An update that keeps the group's room type keeps every bed of a group
   * carrying that group's room type.
   */
  lemma {:induction false} UpdateRoomGroupKeepsBedTypes(t: Tables, next: nat, g: Id, req: GroupRequest, partial: bool)
    requires WellFormed(t, next) && BedTypesMatchGroups(t)
    requires g in t.groups && req.roomType.Some? ==> req.roomType.value == t.groups[g].roomType
    ensures BedTypesMatchGroups(UpdateRoomGroup(t, next, g, req, partial).tables)
  {
    if g in t.groups && ChangeProblems(t, g, req, partial) == [] {
      var t1 := t.(groups := t.groups[g := Changed(t.groups[g], req)]);
      assert BedTypesMatchGroups(t1);
      UpdateBedsKeepsBedTypes(t1, next, g);
    }
  }

  /**
   * An update that moves a group to another room type without shrinking it
   * leaves the group's existing beds as they were, still carrying the old
   * room type: beds and groups no longer match.
   */
  lemma {:induction false} RetypeLeavesOldBeds(t: Tables, next: nat, g: Id, req: GroupRequest, partial: bool, b: Id)
    requires WellFormed(t, next) && BedTypesMatchGroups(t)
    requires g in t.groups && b in t.beds && t.beds[b].group == Some(g)
    requires req.roomType.Some? && req.roomType.value != t.groups[g].roomType && req.rooms.Some?
    requires UpdateRoomGroup(t, next, g, req, partial).reply.Saved?
    requires t.roomTypes[req.roomType.value].capacity.Some?
    requires |GroupBeds(t.beds, g, next)| <= t.roomTypes[req.roomType.value].capacity.value * req.rooms.value
    ensures var o := UpdateRoomGroup(t, next, g, req, partial);
      && g in o.tables.groups && o.tables.groups[g].roomType == req.roomType.value
      && b in o.tables.beds && o.tables.beds[b] == t.beds[b]
      && o.tables.beds[b].roomType == Some(t.groups[g].roomType)
      && !BedTypesMatchGroups(o.tables)
  {
    var grp := Changed(t.groups[g], req);
    var t1 := t.(groups := t.groups[g := grp]);
    UpdateBedsFrame(t1, next, g);
    UpdateBedsKeepsOldBeds(t1, next, g, t.roomTypes[req.roomType.value].capacity.value);
    assert b < next;
  }

  /** The room-group update endpoint on the store. */
  method UpdateRoomGroupOn(db: Db, g: Id, req: GroupRequest, partial: bool) returns (reply: Reply)
    requires db.Valid()
    modifies db
    ensures db.Valid()
    ensures RequestOutcome(reply, db.State(), db.nextId) == UpdateRoomGroup(old(db.State()), old(db.nextId), g, req, partial)
  {
    if g !in db.groups {
      return NotFound;
    }
    var problems := ChangeProblems(db.State(), g, req, partial);
    if problems != [] {
      return Rejected(problems);
    }
    var saved := db.State();
    ChangedGroupKeepsWellFormed(saved, db.nextId, g, req, partial);
    db.groups := db.groups[g := Changed(db.groups[g], req)];
    reply := PlaceBedsOn(db, saved, g);
  }

  /** The room-group create endpoint on the store. */
  method CreateRoomGroupOn(db: Db, req: GroupRequest) returns (reply: Reply)
    requires db.Valid()
    modifies db
    ensures db.Valid()
    ensures RequestOutcome(reply, db.State(), db.nextId) == CreateRoomGroup(old(db.State()), old(db.nextId), req)
  {
    var problems := GroupProblems(db.State(), req);
    if problems != [] {
      return Rejected(problems);
    }
    reply := AddGroupOn(db, NewRoomGroup(req.property.value, req.roomType.value, req.rooms.value as nat, PriceValue(req.price.value)));
  }

  /** Writing a validated room group under a fresh id, then its beds. */
  method AddGroupOn(db: Db, grp: RoomGroup) returns (reply: Reply)
    requires db.Valid()
    requires grp.property in db.properties && grp.roomType in db.roomTypes
    requires !GroupClash(db.groups, grp.property, grp.roomType)
    modifies db
    ensures db.Valid()
    ensures RequestOutcome(reply, db.State(), db.nextId) == AddGroup(old(db.State()), old(db.nextId), grp)
  {
    var saved := db.State();
    WellFormedLater(saved, db.nextId);
    var g := WriteGroupOn(db, grp);
    reply := PlaceBedsOn(db, saved, g);
  }

  /** The INSERT of a validated room group. */
  method WriteGroupOn(db: Db, grp: RoomGroup) returns (g: Id)
    requires db.Valid()
    requires grp.property in db.properties && grp.roomType in db.roomTypes
    requires !GroupClash(db.groups, grp.property, grp.roomType)
    modifies db`groups, db`nextId
    ensures db.Valid() && g == old(db.nextId) && db.nextId == g + 1
    ensures db.State() == old(db.State()).(groups := old(db.groups)[g := grp])
  {
    NewGroupKeepsWellFormed(db.State(), db.nextId, grp);
    g := db.FreshId();
    db.groups := db.groups[g := grp];
  }

  /** `_update_beds` on the store for group `g` just written over `saved`; a failure rolls back to `saved`. */
  method PlaceBedsOn(db: Db, saved: Tables, g: Id) returns (reply: Reply)
    requires db.Valid() && WellFormed(saved, db.nextId) && g in db.groups
    modifies db
    ensures db.Valid()
    ensures RequestOutcome(reply, db.State(), db.nextId) == Settle(saved, UpdateBedsSpec(old(db.State()), old(db.nextId), g), g)
  {
    var err := UpdateBeds(db, g);
    if err.Some? {
      WellFormedUpTo(saved, old(db.nextId), db.nextId);
      db.Restore(saved);
      return ServerError;
    }
    reply := Saved(g);
  }

  // ----------------------------------------------------------- group deletion

  /** Deleting room group `g`: its beds are deleted with it (CASCADE), and bookings lose those beds (SET_NULL). */
  function DeleteRoomGroup(t: Tables, next: nat, g: Id): (o: RequestOutcome)
    ensures o.next == next
    ensures o.reply.NotFound? <==> g !in t.groups
    ensures o.reply.NotFound? ==> o.tables == t
  {
    if g !in t.groups then RequestOutcome(NotFound, t, next)
    else
      var t1 := DeleteBeds(t, GroupBeds(t.beds, g, next));
      RequestOutcome(Deleted, t1.(groups := t1.groups - {g}), next)
  }

  /**
   * After deleting a group no bed belongs to it, every other bed is kept as
   * it was, bookings that held one of its beds hold none, and the tables stay
   * well formed.
   */
  lemma {:induction false} DeleteRoomGroupCascades(t: Tables, next: nat, g: Id)
    requires WellFormed(t, next) && g in t.groups
    ensures var o := DeleteRoomGroup(t, next, g);
      && o.reply == Deleted && g !in o.tables.groups
      && (forall b :: b in o.tables.beds ==> o.tables.beds[b].group != Some(g))
      && (forall b :: b in t.beds && t.beds[b].group != Some(g) ==> b in o.tables.beds && o.tables.beds[b] == t.beds[b])
      && (forall k :: k in t.bookings && t.bookings[k].bed.Some? && t.bookings[k].bed.value in t.beds
            && t.beds[t.bookings[k].bed.value].group == Some(g)
            ==> k in o.tables.bookings && o.tables.bookings[k].bed == None)
      && WellFormed(o.tables, o.next)
  {
    var doomed := GroupBeds(t.beds, g, next);
    GroupBedsMembers(t.beds, g, next);
    var t1 := DeleteBeds(t, doomed);
    DeleteBedsKeepsWellFormed(t, next, doomed);
    DeleteBedsEffect(t, doomed);
    assert forall b :: b in t1.beds ==> t1.beds[b].group != Some(g) by {
      forall b | b in t1.beds ensures t1.beds[b].group != Some(g) {
        assert b < next;
      }
    }
    forall k | k in t.bookings && t.bookings[k].bed.Some? && t.bookings[k].bed.value in t.beds
      && t.beds[t.bookings[k].bed.value].group == Some(g)
      ensures k in t1.bookings && t1.bookings[k].bed == None
    {
      var b := t.bookings[k].bed.value;
      assert b < next && InGroup(t.beds, b, g);
    }
    GroupRemovalKeepsWellFormed(t1, next, g);
  }

  /** Deleting a group deletes its beds and writes no other bed. */
  lemma {:induction false} DeleteRoomGroupKeepsBedTypes(t: Tables, next: nat, g: Id)
    requires BedTypesMatchGroups(t)
    ensures BedTypesMatchGroups(DeleteRoomGroup(t, next, g).tables)
  {
    if g in t.groups {
      DeleteBedsEffect(t, GroupBeds(t.beds, g, next));
    }
  }

  lemma {:induction false} GroupRemovalKeepsWellFormed(t: Tables, next: nat, g: Id)
    requires WellFormed(t, next)
    requires forall b :: b in t.beds ==> t.beds[b].group != Some(g)
    ensures WellFormed(t.(groups := t.groups - {g}), next)
  {
  }

  /** The room-group delete endpoint on the store. */
  method DeleteRoomGroupOn(db: Db, g: Id) returns (reply: Reply)
    requires db.Valid()
    modifies db
    ensures db.Valid()
    ensures RequestOutcome(reply, db.State(), db.nextId) == DeleteRoomGroup(old(db.State()), old(db.nextId), g)
  {
    if g !in db.groups {
      return NotFound;
    }
    DeleteRoomGroupCascades(db.State(), db.nextId, g);
    RemoveBeds(db, GroupBeds(db.beds, g, db.nextId));
    db.groups := db.groups - {g};
    reply := Deleted;
  }
}
