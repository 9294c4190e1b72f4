/**
 * Booking creation (`CreateRazorpayOrderView.create`): a guest asks for a
 * bed in a property and room type; a pending booking is written, a gateway
 * order and a payment link are requested, and a payment row ties the order to
 * the booking.
 *
 * The gateway's answers are inputs. The view is atomic: an exception rolls
 * every table back (the id sequence keeps its advance), while an early
 * `return` keeps what was written, so a gateway that answers with an empty
 * order or link, or with a bad-request error, leaves a pending booking that
 * has no payment.
 */
module BookingFlow {
  import opened Wrappers
  import opened Text
  import opened Decimals
  import opened Choices
  import opened Models
  import opened Database

  /** The amount field: `DecimalField(max_digits=10, decimal_places=2)`; amounts are then counted in hundredths. */
  const AmountDigits: nat := 10
  const AmountPlaces: nat := 2

  /** The fields of a booking request as they arrive; `None` when missing. */
  datatype BookingRequest = BookingRequest(
    property: Option<Id>,
    roomType: Option<Id>,
    joiningDate: Option<nat>,
    amount: Option<Decimal>)

  datatype FieldError = Required | DoesNotExist(pk: Id) | Digits(e: DigitsError)

  function FieldErrorMessage(e: FieldError): string
  {
    match e
    case Required => "This field is required."
    case DoesNotExist(pk) => "Invalid pk \"" + NatToString(pk) + "\" - object does not exist."
    case Digits(e) => DigitsMessage(e)
  }

  datatype FieldProblem = FieldProblem(field: string, error: FieldError)

  /** A request whose fields passed validation. */
  datatype ValidBooking = ValidBooking(property: Id, roomType: Id, joiningDate: nat, amount: int)

  /** The problem with a foreign-key field, if any. */
  function KeyProblem(field: string, v: Option<Id>, existing: set<Id>): (r: seq<FieldProblem>)
    ensures r == [] <==> v.Some? && v.value in existing
    ensures |r| <= 1
  {
    if v.None? then [FieldProblem(field, Required)]
    else if v.value !in existing then [FieldProblem(field, DoesNotExist(v.value))]
    else []
  }

  /** The problems of a request, in field order. */
  function Problems(t: Tables, req: BookingRequest): (r: seq<FieldProblem>)
    ensures r == [] <==>
      && req.property.Some? && req.property.value in t.properties
      && req.roomType.Some? && req.roomType.value in t.roomTypes
      && req.joiningDate.Some?
      && req.amount.Some? && Quantize(AmountDigits, AmountPlaces, req.amount.value).Success?
    ensures req.amount.Some? && Quantize(AmountDigits, AmountPlaces, req.amount.value).Failure? ==>
      r[|r| - 1] == FieldProblem("amount", Digits(Quantize(AmountDigits, AmountPlaces, req.amount.value).error))
  {
    KeyProblem("property", req.property, t.properties)
    + KeyProblem("room_type", req.roomType, t.roomTypes.Keys)
    + (if req.joiningDate.None? then [FieldProblem("joining_date", Required)] else [])
    + (if req.amount.None? then [FieldProblem("amount", Required)]
       else match Quantize(AmountDigits, AmountPlaces, req.amount.value)
            case Failure(e) => [FieldProblem("amount", Digits(e))]
            case Success(_) => [])
  }

  /** `BookingSerializer.is_valid()` with the validated data or the errors. */
  function Validate(t: Tables, req: BookingRequest): (r: Result<ValidBooking, seq<FieldProblem>>)
    ensures r.Failure? ==> r.error != [] && r.error == Problems(t, req)
    ensures r.Success? ==>
      && Problems(t, req) == []
      && r.value == ValidBooking(req.property.value, req.roomType.value, req.joiningDate.value,
                                 Scaled(req.amount.value, AmountPlaces))
  {
    var problems := Problems(t, req);
    if problems != [] then Failure(problems)
    else Success(ValidBooking(req.property.value, req.roomType.value, req.joiningDate.value,
                              Quantize(AmountDigits, AmountPlaces, req.amount.value).value))
  }

  /**
   * The amount field accepts only amounts below 10^8 in magnitude with at
   * most two decimal places, and every such amount written without a
   * positive exponent; it keeps the value, counted in hundredths.
   */
  lemma {:induction false} AmountAccepted(d: Decimal)
    ensures Quantize(AmountDigits, AmountPlaces, d).Success? ==>
      FitsPlaces(d, AmountPlaces) && Abs(Scaled(d, AmountPlaces)) < Pow10(AmountDigits)
    ensures FitsPlaces(d, AmountPlaces) && d.exponent <= 0 ==>
      (Quantize(AmountDigits, AmountPlaces, d).Success? <==> Abs(Scaled(d, AmountPlaces)) < Pow10(AmountDigits))
  {
    QuantizeMagnitude(AmountDigits, AmountPlaces, d);
  }

  /** 123456789 has nine digits, within the total of ten, but nine whole digits where eight fit. */
  lemma {:induction false} NineWholeDigitsRefused(d: Decimal)
    requires d == Decimal(false, 123456789, 0)
    ensures Quantize(AmountDigits, AmountPlaces, d) == Failure(MaxWholeDigits(8))
  {
    assert Pow10(8) == 100_000_000 && Pow10(9) == 1_000_000_000;
    NatToStringLength(123456789, 9);
  }

  /** 1.005 has three decimal places where two fit. */
  lemma {:induction false} ThreePlacesRefused(d: Decimal)
    requires d == Decimal(false, 1005, -3)
    ensures Quantize(AmountDigits, AmountPlaces, d) == Failure(MaxDecimalPlaces(2))
  {
    assert Pow10(3) == 1000 && Pow10(4) == 10_000;
    NatToStringLength(1005, 4);
  }

  /** What the gateway answers to an order request. */
  datatype OrderAnswer = OrderCreated(id: string) | OrderEmpty | OrderBadRequest(reason: string) | OrderCrashed

  /** What the gateway answers to a payment-link request. */
  datatype LinkAnswer = LinkCreated(id: string, shortUrl: string) | LinkEmpty | LinkBadRequest(reason: string) | LinkCrashed

  /** The order request sent to the gateway. */
  datatype OrderRequest = OrderRequest(amount: int, currency: string, receipt: string, bookingId: Id, userId: Id)

  /** The payment-link request sent to the gateway. */
  datatype LinkRequest = LinkRequest(
    amount: int,
    currency: string,
    acceptPartial: bool,
    description: string,
    email: string,
    contact: string,
    notifySms: bool,
    notifyEmail: bool,
    reminderEnable: bool,
    bookingId: Id,
    userId: Id,
    orderId: string)

  datatype BookingReply =
    | NotAuthenticated  // 401: no credentials, under token authentication
    | Forbidden  // 403: an authenticated user whose role is not allowed
    | Invalid(errors: seq<FieldProblem>)
    | BadRequest(error: string)
    | ServerError
    | Created(paymentLink: string, orderId: Id, amount: int, currency: string)

  datatype BookingOutcome = BookingOutcome(
    reply: BookingReply,
    order: Option<OrderRequest>,
    link: Option<LinkRequest>,
    tables: Tables,
    next: nat)

  const OrderFailedMessage: string := "Razorpay Order creation failed"
  const LinkFailedMessage: string := "Failed to generate payment link"

  /** The receipt text of an order, `f"order_rcptid_{booking.id}"`. */
  function Receipt(bookingId: Id): string
  {
    "order_rcptid_" + NatToString(bookingId)
  }

  /** Different bookings get different receipts. */
  lemma {:induction false} ReceiptNamesBooking(a: Id, b: Id)
    ensures Receipt(a) == Receipt(b) <==> a == b
  {
    if Receipt(a) == Receipt(b) {
      assert Receipt(a)[13..] == NatToString(a);
      assert Receipt(b)[13..] == NatToString(b);
      NatToStringInjective(a, b);
    }
  }

  function OrderFor(b: ValidBooking, bookingId: Id, user: Id): OrderRequest
  {
    OrderRequest(b.amount, "INR", Receipt(bookingId), bookingId, user)
  }

  function LinkFor(b: ValidBooking, bookingId: Id, user: Id, u: User, orderId: string): LinkRequest
  {
    LinkRequest(b.amount, "INR", false, "Booking Payment", u.email, u.phoneNumber, true, true, true, bookingId, user, orderId)
  }

  /** A payment row for this order or this booking would break a unique constraint. */
  predicate PaymentClash(payments: map<Id, Payment>, orderId: string, bookingId: Id)
  {
    exists p :: p in payments && (payments[p].orderId == orderId || payments[p].booking == bookingId)
  }

  /** The request is made by a user whose role is among the allowed ones (guests only). */
  predicate MayBook(t: Tables, requester: Option<Id>)
  {
    requester.Some? && requester.value in t.users && t.users[requester.value].role == Guest
  }

  /**
   * `CreateRazorpayOrderView.create` for `requester` (`None` when the
   * request is anonymous), with the gateway's two answers. `RoleBasedPermission`
   * refuses both an anonymous request and a user of another role; DRF answers
   * the first with 401 and the second with 403.
   */
  function CreateBooking(t: Tables, next: nat, requester: Option<Id>, req: BookingRequest,
                         order: OrderAnswer, link: LinkAnswer): (o: BookingOutcome)
    requires requester.Some? ==> requester.value in t.users
    ensures requester.None? ==> o == BookingOutcome(NotAuthenticated, None, None, t, next)
    ensures requester.Some? && !MayBook(t, requester) ==> o == BookingOutcome(Forbidden, None, None, t, next)
    ensures o.reply.NotAuthenticated? || o.reply.Forbidden? || o.reply.Invalid? ==> o.tables == t && o.next == next
    ensures o.reply.ServerError? ==> o.tables == t && o.next > next
    ensures o.next >= next
  {
    if requester.None? then BookingOutcome(NotAuthenticated, None, None, t, next)
    else if !MayBook(t, requester) then BookingOutcome(Forbidden, None, None, t, next)
    else
      var user := requester.value;
      match Validate(t, req)
      case Failure(errors) => BookingOutcome(Invalid(errors), None, None, t, next)
      case Success(b) =>
        var k := next;
        var t1 := t.(bookings := t.bookings[k := NewBooking(user, b.property, b.roomType, b.joiningDate)]);
        RequestPayment(t, t1, next + 1, k, user, b, order, link)
  }

  /**
   * The gateway part of the view: `t` is the state the view started from,
   * `t1` the state with the pending booking `k` written, `next` the id
   * counter after the booking's id was drawn.
   */
  function RequestPayment(t: Tables, t1: Tables, next: nat, k: Id, user: Id, b: ValidBooking,
                          order: OrderAnswer, link: LinkAnswer): (o: BookingOutcome)
    requires user in t.users
    ensures o.reply.ServerError? ==> o.tables == t
    ensures o.next >= next
  {
    var orderReq := OrderFor(b, k, user);
    match order
    case OrderCrashed => BookingOutcome(ServerError, Some(orderReq), None, t, next)
    case OrderBadRequest(reason) =>
      BookingOutcome(BadRequest(OrderFailedMessage + ": " + reason), Some(orderReq), None, t1, next)
    case OrderEmpty => BookingOutcome(BadRequest(OrderFailedMessage), Some(orderReq), None, t1, next)
    case OrderCreated(orderId) =>
      var linkReq := LinkFor(b, k, user, t.users[user], orderId);
      match link
      case LinkCrashed => BookingOutcome(ServerError, Some(orderReq), Some(linkReq), t, next)
      case LinkBadRequest(reason) =>
        BookingOutcome(BadRequest(OrderFailedMessage + ": " + reason), Some(orderReq), Some(linkReq), t1, next)
      case LinkEmpty => BookingOutcome(BadRequest(LinkFailedMessage), Some(orderReq), Some(linkReq), t1, next)
      case LinkCreated(linkId, shortUrl) =>
        if PaymentClash(t1.payments, orderId, k) then
          BookingOutcome(ServerError, Some(orderReq), Some(linkReq), t, next + 1)
        else
          var t2 := t1.(payments := t1.payments[next := NewPayment(k, orderId, linkId, b.amount)]);
          BookingOutcome(Created(shortUrl, k, b.amount, "INR"), Some(orderReq), Some(linkReq), t2, next + 1)
  }

  /** A rejected or invalid request writes nothing and sends nothing to the gateway. */
  lemma {:induction false} RejectedRequestSendsNothing(t: Tables, next: nat, requester: Option<Id>, req: BookingRequest, order: OrderAnswer, link: LinkAnswer)
    requires requester.Some? ==> requester.value in t.users
    requires !MayBook(t, requester) || Validate(t, req).Failure?
    ensures var o := CreateBooking(t, next, requester, req, order, link);
      o.order.None? && o.link.None? && o.tables == t && o.next == next
      && (MayBook(t, requester) ==> o.reply == Invalid(Problems(t, req)))
  {
  }

  /**
   * A created booking: one pending booking without a bed for the requester,
   * and one unpaid payment that carries the gateway's order id and the
   * requested amount; nothing else changes, and the reply names the booking.
   */
  lemma {:induction false} CreatedBooking(t: Tables, next: nat, requester: Option<Id>, req: BookingRequest, order: OrderAnswer, link: LinkAnswer)
    requires requester.Some? ==> requester.value in t.users
    requires WellFormed(t, next)
    requires CreateBooking(t, next, requester, req, order, link).reply.Created?
    ensures var o := CreateBooking(t, next, requester, req, order, link);
      && requester.Some? && order.OrderCreated? && link.LinkCreated?
      && o.reply.orderId == next && o.reply.paymentLink == link.shortUrl && o.next == next + 2
      && next !in t.bookings && next + 1 !in t.payments
      && o.tables.bookings == t.bookings[next := NewBooking(requester.value, req.property.value, req.roomType.value, req.joiningDate.value)]
      && o.tables.payments == t.payments[next + 1 := NewPayment(next, order.id, link.id, Scaled(req.amount.value, AmountPlaces))]
      && o.tables == t.(bookings := o.tables.bookings, payments := o.tables.payments)
      && o.link.value.orderId == order.id && o.link.value.userId == requester.value
  {
  }

  /** Writing a new pending booking for an existing user keeps the tables well formed. */
  lemma {:induction false} NewBookingKeepsWellFormed(t: Tables, next: nat, user: Id, b: ValidBooking)
    requires WellFormed(t, next) && user in t.users && b.property in t.properties && b.roomType in t.roomTypes
    ensures WellFormed(t.(bookings := t.bookings[next := NewBooking(user, b.property, b.roomType, b.joiningDate)]), next + 1)
  {
  }

  /** The gateway part keeps the tables well formed. */
  lemma {:induction false} RequestPaymentKeepsWellFormed(t: Tables, t1: Tables, next: nat, k: Id, user: Id, b: ValidBooking, order: OrderAnswer, link: LinkAnswer)
    requires user in t.users && WellFormed(t, next) && WellFormed(t1, next) && k in t1.bookings
    ensures var o := RequestPayment(t, t1, next, k, user, b, order, link);
      WellFormed(o.tables, o.next)
  {
    var o := RequestPayment(t, t1, next, k, user, b, order, link);
    if order.OrderCreated? && link.LinkCreated? {
      if PaymentClash(t1.payments, order.id, k) {
        WellFormedLater(t, next);
      } else {
        NewPaymentKeepsWellFormed(t1, next, k, NewPayment(k, order.id, link.id, b.amount));
      }
    }
  }

  /** Writing a payment whose order id and booking are not yet used keeps the tables well formed. */
  lemma {:induction false} NewPaymentKeepsWellFormed(t: Tables, p: Id, k: Id, np: Payment)
    requires WellFormed(t, p) && k in t.bookings && np.booking == k
    requires !PaymentClash(t.payments, np.orderId, k)
    ensures WellFormed(t.(payments := t.payments[p := np]), p + 1)
  {
  }

  /** Creating a booking keeps the tables well formed. */
  lemma {:induction false} CreateBookingKeepsWellFormed(t: Tables, next: nat, requester: Option<Id>, req: BookingRequest, order: OrderAnswer, link: LinkAnswer)
    requires requester.Some? ==> requester.value in t.users
    requires WellFormed(t, next)
    ensures var o := CreateBooking(t, next, requester, req, order, link);
      WellFormed(o.tables, o.next)
  {
    if MayBook(t, requester) && Validate(t, req).Success? {
      var b := Validate(t, req).value;
      var t1 := t.(bookings := t.bookings[next := NewBooking(requester.value, b.property, b.roomType, b.joiningDate)]);
      NewBookingKeepsWellFormed(t, next, requester.value, b);
      WellFormedLater(t, next);
      RequestPaymentKeepsWellFormed(t, t1, next + 1, next, requester.value, b, order, link);
      assert CreateBooking(t, next, requester, req, order, link) == RequestPayment(t, t1, next + 1, next, requester.value, b, order, link);
    }
  }

  /**
   * An order or link the gateway refuses without raising leaves a pending
   * booking that no payment row refers to.
   */
  lemma {:induction false} GatewayRefusalLeavesPendingBooking(t: Tables, next: nat, requester: Option<Id>, req: BookingRequest, order: OrderAnswer, link: LinkAnswer)
    requires requester.Some? ==> requester.value in t.users
    requires WellFormed(t, next)
    requires CreateBooking(t, next, requester, req, order, link).reply.BadRequest?
    ensures var o := CreateBooking(t, next, requester, req, order, link);
      && next in o.tables.bookings && o.tables.bookings[next].status == Pending
      && o.tables.payments == t.payments
      && forall p :: p in o.tables.payments ==> o.tables.payments[p].booking != next
  {
  }

  /** A request the gateway crashes on leaves the tables as they were. */
  lemma {:induction false} GatewayCrashWritesNothing(t: Tables, next: nat, requester: Option<Id>, req: BookingRequest, link: LinkAnswer)
    requires requester.Some? ==> requester.value in t.users
    ensures var o := CreateBooking(t, next, requester, req, OrderCrashed, link);
      o.tables == t && o.link.None?
  {
  }

  /** `CreateRazorpayOrderView.create` on the store. */
  method CreateBookingOn(db: Db, requester: Option<Id>, req: BookingRequest, order: OrderAnswer, link: LinkAnswer)
    returns (reply: BookingReply, orderSent: Option<OrderRequest>, linkSent: Option<LinkRequest>)
    requires db.Valid() && (requester.Some? ==> requester.value in db.users)
    modifies db
    ensures db.Valid()
    ensures BookingOutcome(reply, orderSent, linkSent, db.State(), db.nextId)
         == CreateBooking(old(db.State()), old(db.nextId), requester, req, order, link)
  {
    orderSent, linkSent := None, None;
    if requester.None? {
      return NotAuthenticated, orderSent, linkSent;
    }
    if !MayBook(db.State(), requester) {
      return Forbidden, orderSent, linkSent;
    }
    var user := requester.value;
    var validated := Validate(db.State(), req);
    if validated.Failure? {
      return Invalid(validated.error), orderSent, linkSent;
    }
    reply, orderSent, linkSent := OpenBookingOn(db, user, validated.value, order, link);
  }

  /** The atomic block of the view: write the pending booking, then ask the gateway. */
  method OpenBookingOn(db: Db, user: Id, b: ValidBooking, order: OrderAnswer, link: LinkAnswer)
    returns (reply: BookingReply, orderSent: Option<OrderRequest>, linkSent: Option<LinkRequest>)
    requires db.Valid() && user in db.users && b.property in db.properties && b.roomType in db.roomTypes
    modifies db
    ensures db.Valid()
    ensures BookingOutcome(reply, orderSent, linkSent, db.State(), db.nextId)
         == RequestPayment(old(db.State()),
                           old(db.State()).(bookings := old(db.bookings)[old(db.nextId) := NewBooking(user, b.property, b.roomType, b.joiningDate)]),
                           old(db.nextId) + 1, old(db.nextId), user, b, order, link)
  {
    var saved := db.State();
    NewBookingKeepsWellFormed(saved, db.nextId, user, b);
    var k := db.FreshId();
    db.bookings := db.bookings[k := NewBooking(user, b.property, b.roomType, b.joiningDate)];
    WellFormedLater(saved, k);
    reply, orderSent, linkSent := RequestPaymentOn(db, saved, k, user, b, order, link);
  }

  /** The gateway part of the view on the store; `saved` is the state the view started from. */
  method RequestPaymentOn(db: Db, saved: Tables, k: Id, user: Id, b: ValidBooking, order: OrderAnswer, link: LinkAnswer)
    returns (reply: BookingReply, orderSent: Option<OrderRequest>, linkSent: Option<LinkRequest>)
    requires user in saved.users && db.users == saved.users
    requires db.Valid() && WellFormed(saved, db.nextId) && k in db.bookings
    modifies db
    ensures db.Valid()
    ensures BookingOutcome(reply, orderSent, linkSent, db.State(), db.nextId)
         == RequestPayment(saved, old(db.State()), old(db.nextId), k, user, b, order, link)
  {
    orderSent, linkSent := Some(OrderFor(b, k, user)), None;
    match order {
      case OrderCrashed =>
        db.Restore(saved);
        return ServerError, orderSent, linkSent;
      case OrderBadRequest(reason) =>
        return BadRequest(OrderFailedMessage + ": " + reason), orderSent, linkSent;
      case OrderEmpty =>
        return BadRequest(OrderFailedMessage), orderSent, linkSent;
      case OrderCreated(orderId) =>
        reply, orderSent, linkSent := RecordPaymentOn(db, saved, k, user, b, orderId, link);
    }
  }

  /** The view once the gateway has created order `orderId`: ask for a payment link, then write the payment. */
  method RecordPaymentOn(db: Db, saved: Tables, k: Id, user: Id, b: ValidBooking, orderId: string, link: LinkAnswer)
    returns (reply: BookingReply, orderSent: Option<OrderRequest>, linkSent: Option<LinkRequest>)
    requires user in saved.users && db.users == saved.users
    requires db.Valid() && WellFormed(saved, db.nextId) && k in db.bookings
    modifies db
    ensures db.Valid()
    ensures BookingOutcome(reply, orderSent, linkSent, db.State(), db.nextId)
         == RequestPayment(saved, old(db.State()), old(db.nextId), k, user, b, OrderCreated(orderId), link)
  {
    orderSent := Some(OrderFor(b, k, user));
    linkSent := Some(LinkFor(b, k, user, db.users[user], orderId));
    match link {
      case LinkCrashed =>
        db.Restore(saved);
        return ServerError, orderSent, linkSent;
      case LinkBadRequest(reason) =>
        return BadRequest(OrderFailedMessage + ": " + reason), orderSent, linkSent;
      case LinkEmpty =>
        return BadRequest(LinkFailedMessage), orderSent, linkSent;
      case LinkCreated(linkId, shortUrl) =>
        var written := InsertPaymentOn(db, saved, NewPayment(k, orderId, linkId, b.amount));
        if !written {
          return ServerError, orderSent, linkSent;
        }
        reply := Created(shortUrl, k, b.amount, "INR");
    }
  }

  /**
   * Inserts payment `np` under a fresh id; when its order id or its booking
   * is already taken the insert fails, the atomic block rolls back to
   * `saved`, and the drawn id stays consumed.
   */
  method InsertPaymentOn(db: Db, saved: Tables, np: Payment) returns (written: bool)
    requires db.Valid() && WellFormed(saved, db.nextId) && np.booking in db.bookings
    modifies db
    ensures db.Valid() && db.nextId == old(db.nextId) + 1
    ensures written == !PaymentClash(old(db.payments), np.orderId, np.booking)
    ensures written ==> db.State() == old(db.State()).(payments := old(db.payments)[old(db.nextId) := np])
    ensures !written ==> db.State() == saved
  {
    var p := db.FreshId();
    if PaymentClash(db.payments, np.orderId, np.booking) {
      WellFormedLater(saved, p);
      db.Restore(saved);
      return false;
    }
    NewPaymentKeepsWellFormed(db.State(), p, np.booking, np);
    db.payments := db.payments[p := np];
    written := true;
  }
}
