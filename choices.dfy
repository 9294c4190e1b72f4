/**
 * The enumerations of the properties application: the stored value of every
 * choice and the parse from a stored value back to the choice.
 */
module Choices {
  import opened Wrappers

  /** Room-type names; each is stored as "<n> occupancy" in lower case. */
  datatype RoomTypeName =
    | SingleOccupancy | DoubleOccupancy | TripleOccupancy
    | QuadrupleOccupancy | QuintupleOccupancy | SixtupleOccupancy

  function RoomTypeValue(n: RoomTypeName): string
  {
    match n
    case SingleOccupancy => "single occupancy"
    case DoubleOccupancy => "double occupancy"
    case TripleOccupancy => "triple occupancy"
    case QuadrupleOccupancy => "quadruple occupancy"
    case QuintupleOccupancy => "quintuple occupancy"
    case SixtupleOccupancy => "sixtuple occupancy"
  }

  function ParseRoomTypeName(s: string): (r: Option<RoomTypeName>)
    ensures r.Some? ==> RoomTypeValue(r.value) == s
  {
    if s == "single occupancy" then Some(SingleOccupancy)
    else if s == "double occupancy" then Some(DoubleOccupancy)
    else if s == "triple occupancy" then Some(TripleOccupancy)
    else if s == "quadruple occupancy" then Some(QuadrupleOccupancy)
    else if s == "quintuple occupancy" then Some(QuintupleOccupancy)
    else if s == "sixtuple occupancy" then Some(SixtupleOccupancy)
    else None
  }

  /** Every stored room-type value parses back to its name. */
  lemma RoomTypeRoundTrip(n: RoomTypeName)
    ensures ParseRoomTypeName(RoomTypeValue(n)) == Some(n)
  {
    match n
    case SingleOccupancy =>
    case DoubleOccupancy => assert RoomTypeValue(n)[0] == 'd';
    case TripleOccupancy => assert RoomTypeValue(n)[0] == 't';
    case QuadrupleOccupancy => assert RoomTypeValue(n)[1] == 'u';
    case QuintupleOccupancy => assert RoomTypeValue(n)[2] == 'i';
    case SixtupleOccupancy => assert RoomTypeValue(n)[1] == 'i';
  }

  /** Booking lifecycle; there is no cancelled value. */
  datatype BookingStatus = Pending | Confirmed | Allotted | MovedIn

  function BookingStatusValue(b: BookingStatus): string
  {
    match b
    case Pending => "pending"
    case Confirmed => "confirmed"
    case Allotted => "allotted"
    case MovedIn => "moved_in"
  }

  function ParseBookingStatus(s: string): (r: Option<BookingStatus>)
    ensures forall b :: r == Some(b) <==> BookingStatusValue(b) == s
  {
    if s == "pending" then Some(Pending)
    else if s == "confirmed" then Some(Confirmed)
    else if s == "allotted" then Some(Allotted)
    else if s == "moved_in" then Some(MovedIn)
    else None
  }

  /** User roles. */
  datatype Role = Guest | Customer | Admin

  function RoleValue(r: Role): string
  {
    match r
    case Guest => "guest"
    case Customer => "customer"
    case Admin => "admin"
  }

  function ParseRole(s: string): (r: Option<Role>)
    ensures forall x :: r == Some(x) <==> RoleValue(x) == s
  {
    if s == "guest" then Some(Guest)
    else if s == "customer" then Some(Customer)
    else if s == "admin" then Some(Admin)
    else None
  }

  /** The role a new user gets. */
  const DefaultRole: Role := Guest

  /** Status of a rent payment. */
  datatype RentalStatus = RentPending | RentPaid | RentOverdue | RentFailed

  function RentalStatusValue(s: RentalStatus): string
  {
    match s
    case RentPending => "pending"
    case RentPaid => "paid"
    case RentOverdue => "overdue"
    case RentFailed => "failed"
  }

  function ParseRentalStatus(s: string): (r: Option<RentalStatus>)
    ensures forall x :: r == Some(x) <==> RentalStatusValue(x) == s
  {
    if s == "pending" then Some(RentPending)
    else if s == "paid" then Some(RentPaid)
    else if s == "overdue" then Some(RentOverdue)
    else if s == "failed" then Some(RentFailed)
    else None
  }
}
