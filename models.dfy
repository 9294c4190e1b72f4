/**
 * The rows of the booking pipeline: room types, a property's room groups
 * (PropertyRoomType), beds, users, bookings and payments, with the defaults
 * the schema gives a new row and the constraints the schema enforces.
 *
 * Every table is a map from row id to record. Ids come from one increasing
 * counter, so a larger id means a row created later; the default ordering of
 * beds and payments (newest `created_at` first) is therefore descending id.
 * Money is counted in hundredths of a rupee (the DecimalFields have two
 * decimal places).
 */
module Models {
  import opened Wrappers
  import opened Choices

  type Id = nat

  datatype RoomType = RoomType(name: RoomTypeName, capacity: Option<nat>)

  /** A property's offering of one room type (PropertyRoomType). */
  datatype RoomGroup = RoomGroup(
    property: Id,
    roomType: Id,
    numberOfRooms: nat,
    pricePerMonth: int,
    totalCapacity: Option<nat>,
    isBedAvailable: bool)

  datatype Bed = Bed(
    group: Option<Id>,
    roomType: Option<Id>,
    user: Option<Id>,
    isAvailable: bool,
    bedNumber: Option<string>)

  datatype User = User(role: Role, phoneNumber: string, email: string)

  datatype Booking = Booking(
    user: Id,
    property: Id,
    roomType: Id,
    joiningDate: nat,
    status: BookingStatus,
    bed: Option<Id>,
    isPaidAdvance: bool)

  datatype Payment = Payment(
    booking: Id,
    orderId: string,
    paymentId: Option<string>,
    signature: Option<string>,
    linkOrderId: Option<string>,
    amount: int,
    isPaid: bool)

  /** A new room group: total capacity not yet computed, beds marked available. */
  function NewRoomGroup(property: Id, roomType: Id, rooms: nat, price: int): (g: RoomGroup)
    ensures g.property == property && g.roomType == roomType && g.numberOfRooms == rooms
    ensures g.totalCapacity == None && g.isBedAvailable
  {
    RoomGroup(property, roomType, rooms, price, None, true)
  }

  /** A new bed is available and bound to nobody. */
  function NewBed(group: Id, roomType: Id, number: string): (b: Bed)
    ensures b.isAvailable && b.user == None
    ensures b.group == Some(group) && b.roomType == Some(roomType) && b.bedNumber == Some(number)
  {
    Bed(Some(group), Some(roomType), None, true, Some(number))
  }

  /** A new booking is pending and has no bed. */
  function NewBooking(user: Id, property: Id, roomType: Id, joiningDate: nat): (b: Booking)
    ensures b.status == Pending && b.bed == None && !b.isPaidAdvance
    ensures b.user == user && b.property == property && b.roomType == roomType
  {
    Booking(user, property, roomType, joiningDate, Pending, None, false)
  }

  /** A new payment is unpaid; payment id and signature are not yet known. */
  function NewPayment(booking: Id, orderId: string, linkOrderId: string, amount: int): (p: Payment)
    ensures !p.isPaid && p.paymentId == None && p.signature == None
    ensures p.booking == booking && p.orderId == orderId && p.linkOrderId == Some(linkOrderId)
    ensures p.amount == amount
  {
    Payment(booking, orderId, None, None, Some(linkOrderId), amount, false)
  }

  /** A bed bound to `user`. */
  function Occupied(b: Bed, user: Id): (r: Bed)
    ensures !r.isAvailable && r.user == Some(user)
    ensures r.group == b.group && r.roomType == b.roomType && r.bedNumber == b.bedNumber
  {
    b.(isAvailable := false, user := Some(user))
  }

  /** The contents of every table. */
  datatype Tables = Tables(
    properties: set<Id>,
    roomTypes: map<Id, RoomType>,
    groups: map<Id, RoomGroup>,
    beds: map<Id, Bed>,
    users: map<Id, User>,
    bookings: map<Id, Booking>,
    payments: map<Id, Payment>)

  /** Every row id was handed out by the counter before `next`. */
  ghost predicate IdsBelow(t: Tables, next: nat)
  {
    && (forall i :: i in t.roomTypes ==> i < next)
    && (forall i :: i in t.groups ==> i < next)
    && (forall i :: i in t.beds ==> i < next)
    && (forall i :: i in t.bookings ==> i < next)
    && (forall i :: i in t.payments ==> i < next)
  }

  /** Foreign keys point at existing rows. */
  ghost predicate ReferencesExist(t: Tables)
  {
    && (forall g :: g in t.groups ==>
          t.groups[g].property in t.properties && t.groups[g].roomType in t.roomTypes)
    && (forall b :: b in t.beds ==>
          && (t.beds[b].group.Some? ==> t.beds[b].group.value in t.groups)
          && (t.beds[b].roomType.Some? ==> t.beds[b].roomType.value in t.roomTypes)
          && (t.beds[b].user.Some? ==> t.beds[b].user.value in t.users))
    && (forall k :: k in t.bookings ==>
          && t.bookings[k].user in t.users
          && t.bookings[k].property in t.properties
          && t.bookings[k].roomType in t.roomTypes
          && (t.bookings[k].bed.Some? ==> t.bookings[k].bed.value in t.beds))
    && (forall p :: p in t.payments ==> t.payments[p].booking in t.bookings)
  }

  /** A room-type name is used by at most one room type. */
  ghost predicate UniqueRoomTypeNames(roomTypes: map<Id, RoomType>)
  {
    forall r1, r2 :: (r1 in roomTypes && r2 in roomTypes && roomTypes[r1].name == roomTypes[r2].name) ==> r1 == r2
  }

  /** (property, room_type) is unique among room groups. */
  ghost predicate UniqueGroups(groups: map<Id, RoomGroup>)
  {
    forall g1, g2 ::
      (g1 in groups && g2 in groups &&
       groups[g1].property == groups[g2].property && groups[g1].roomType == groups[g2].roomType) ==> g1 == g2
  }

  /** (property_room_type, bed_number) is unique among beds (NULLs never clash). */
  ghost predicate UniqueBedNumbers(beds: map<Id, Bed>)
  {
    forall b1, b2 ::
      (b1 in beds && b2 in beds &&
       beds[b1].group.Some? && beds[b1].bedNumber.Some? &&
       beds[b1].group == beds[b2].group && beds[b1].bedNumber == beds[b2].bedNumber) ==> b1 == b2
  }

  /** razorpay_order_id is unique, and a booking has at most one payment. */
  ghost predicate UniquePayments(payments: map<Id, Payment>)
  {
    forall p1, p2 ::
      (p1 in payments && p2 in payments &&
       (payments[p1].orderId == payments[p2].orderId || payments[p1].booking == payments[p2].booking)) ==> p1 == p2
  }

  /** A bed is unavailable exactly when a user is bound to it. */
  ghost predicate OccupancyConsistent(beds: map<Id, Bed>)
  {
    forall b :: b in beds ==> (beds[b].isAvailable <==> beds[b].user == None)
  }

  /**
   * A bed of a room group carries that group's room type. The schema does
   * not enforce this: it holds for beds `_update_beds` creates, and an update
   * that moves a group to another room type leaves its existing beds behind.
   */
  ghost predicate BedTypesMatchGroups(t: Tables)
  {
    forall b :: b in t.beds && t.beds[b].group.Some? && t.beds[b].group.value in t.groups ==>
      t.beds[b].roomType == Some(t.groups[t.beds[b].group.value].roomType)
  }

  ghost predicate WellFormed(t: Tables, next: nat)
  {
    && IdsBelow(t, next)
    && ReferencesExist(t)
    && UniqueGroups(t.groups)
    && UniqueBedNumbers(t.beds)
    && UniquePayments(t.payments)
    && OccupancyConsistent(t.beds)
  }

  /** The tables stay well formed as the id counter advances. */
  lemma {:induction false} WellFormedLater(t: Tables, next: nat)
    requires WellFormed(t, next)
    ensures WellFormed(t, next + 1)
  {
  }

  /** The tables stay well formed however far the id counter has advanced. */
  lemma {:induction false} WellFormedUpTo(t: Tables, next: nat, later: nat)
    requires WellFormed(t, next) && next <= later
    ensures WellFormed(t, later)
  {
  }

  /** Writing fields of a payment that are not keys keeps the tables well formed. */
  lemma {:induction false} PaymentUpdateKeepsWellFormed(t: Tables, next: nat, p: Id, np: Payment)
    requires WellFormed(t, next) && p in t.payments
    requires np.booking == t.payments[p].booking && np.orderId == t.payments[p].orderId
    ensures WellFormed(t.(payments := t.payments[p := np]), next)
  {
  }

  /** Writing the status of a booking keeps the tables well formed. */
  lemma {:induction false} BookingStatusKeepsWellFormed(t: Tables, next: nat, k: Id, s: BookingStatus)
    requires WellFormed(t, next) && k in t.bookings
    ensures WellFormed(t.(bookings := t.bookings[k := t.bookings[k].(status := s)]), next)
  {
  }

  /** Writing the role of a user keeps the tables well formed. */
  lemma {:induction false} RoleUpdateKeepsWellFormed(t: Tables, next: nat, u: Id, r: Role)
    requires WellFormed(t, next) && u in t.users
    ensures WellFormed(t.(users := t.users[u := t.users[u].(role := r)]), next)
  {
  }
}
