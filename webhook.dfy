/**
 * The Razorpay webhook (`RazorpayWebhookView.post`): a signed payment event
 * marks the payment paid, confirms the booking, allocates a bed to the user
 * named in the event's notes and makes that user a customer.
 *
 * The view runs inside the request transaction and opens an inner atomic
 * block; every exception is turned into a 400 reply, so an exception leaves
 * the tables as they were, while an early `return` inside the block keeps the
 * writes made so far.
 */
module Webhook {
  import opened Wrappers
  import opened Text
  import opened Choices
  import opened Models
  import opened Database
  import opened Allocation
  import opened JsonData

  /** `j.get(key, default)`; `None` when `j` is not a dict (the call raises). */
  function Get(j: Json, key: string, default: Json): (r: Option<Json>)
    ensures r.Some? <==> j.JObject?
    ensures j.JObject? && key in j.fields ==> r == Some(j.fields[key])
    ensures j.JObject? && key !in j.fields ==> r == Some(default)
  {
    if j.JObject? then Some(if key in j.fields then j.fields[key] else default) else None
  }

  /** The three values the handler takes from an event. */
  datatype EventFields = EventFields(orderId: Json, userId: Json, paymentId: Json)

  /**
   * `data["payload"]["payment"]["entity"]`, read with `.get(…, {})` at every
   * level; the order id and user id come from the entity's notes and the
   * payment id from the entity itself, each `None` when absent.
   */
  function ReadEvent(data: Json): Option<EventFields>
  {
    var empty := JObject(map[]);
    match Get(data, "payload", empty)
    case None => None
    case Some(payload) =>
      match Get(payload, "payment", empty)
      case None => None
      case Some(payment) =>
        match Get(payment, "entity", empty)
        case None => None
        case Some(entity) =>
          match Get(entity, "notes", empty)
          case None => None
          case Some(notes) =>
            match Get(notes, "razorpay_order_id", JNull)
            case None => None
            case Some(orderId) =>
              match Get(notes, "user_id", JNull)
              case None => None
              case Some(userId) =>
                match Get(entity, "id", JNull)
                case None => None
                case Some(paymentId) => Some(EventFields(orderId, userId, paymentId))
  }

  /** The body Razorpay sends for a captured payment, reduced to the fields the handler reads. */
  function PaymentEvent(orderId: Json, userId: Json, paymentId: Json): Json
  {
    JObject(map["payload" := JObject(map["payment" := JObject(map["entity" :=
      JObject(map["id" := paymentId,
                  "notes" := JObject(map["razorpay_order_id" := orderId, "user_id" := userId])])])])])
  }

  /** Reading a payment event gives back the values it was built from. */
  lemma {:induction false} ReadPaymentEvent(orderId: Json, userId: Json, paymentId: Json)
    ensures ReadEvent(PaymentEvent(orderId, userId, paymentId)) == Some(EventFields(orderId, userId, paymentId))
  {
    var notes := JObject(map["razorpay_order_id" := orderId, "user_id" := userId]);
    var entity := JObject(map["id" := paymentId, "notes" := notes]);
    assert Get(entity, "notes", JObject(map[])) == Some(notes);
    assert Get(entity, "id", JNull) == Some(paymentId);
  }

  /** A value that is not a dict at any level of the event makes the read fail. */
  lemma {:induction false} NonObjectEventFails(data: Json)
    requires !data.JObject?
    ensures ReadEvent(data) == None
  {
  }

  /**
   * The text a character column is compared with or stores for a non-null
   * value (`CharField.to_python`): strings as they are, anything else as
   * `str(value)`: integers in decimal, booleans as "True"/"False", lists
   * and dicts in their bracketed form.
   */
  function ColumnText(j: Json): (r: string)
    requires !j.JNull?
    ensures j.JStr? ==> r == j.s
    ensures j.JInt? ==> r == IntToString(j.i)
    ensures j.JBool? ==> r == if j.b then "True" else "False"
    ensures j.JList? ==> r != [] && r[0] == '['
    ensures j.JObject? ==> r != [] && r[0] == '{'
  {
    PyStr(j)
  }

  predicate DigitOrUnderscore(c: char) { IsDigit(c) || c == '_' }

  /**
   * The digits `int()` accepts in base 10: decimal digits, leading zeros
   * allowed, with single underscores between digits.
   */
  predicate Grouped(s: string)
  {
    && |s| > 0 && IsDigit(s[0]) && IsDigit(s[|s| - 1])
    && (forall i :: 0 <= i < |s| ==> DigitOrUnderscore(s[i]))
    && (forall i :: 0 <= i < |s| - 1 && s[i] == '_' ==> IsDigit(s[i + 1]))
  }

  /** The digits of `s` with its underscores taken out. */
  function Ungrouped(s: string): (r: string)
    requires forall i :: 0 <= i < |s| ==> DigitOrUnderscore(s[i])
    ensures AllDigits(r)
    ensures AllDigits(s) ==> r == s
  {
    if s == [] then []
    else if s[0] == '_' then Ungrouped(s[1..])
    else
      var r := Ungrouped(s[1..]);
      assert DigitOrUnderscore(s[0]);
      assert forall i :: 1 <= i < |r| + 1 ==> ([s[0]] + r)[i] == r[i - 1];
      assert AllDigits(s) ==> AllDigits(s[1..]) && s == [s[0]] + s[1..];
      [s[0]] + r
  }

  /** `int()` on stripped text: an optional sign, then grouped digits; anything else raises. */
  function ReadInt(t: string): (r: Option<int>)
    ensures Grouped(t) ==> r == Some(DigitsValue(Ungrouped(t)))
    ensures |t| > 1 && t[0] == '-' && Grouped(t[1..]) ==> r == Some(-(DigitsValue(Ungrouped(t[1..])) as int))
  {
    if |t| > 0 && (t[0] == '-' || t[0] == '+') then
      if Grouped(t[1..]) then
        var v: int := DigitsValue(Ungrouped(t[1..]));
        Some(if t[0] == '-' then -v else v)
      else None
    else if Grouped(t) then Some(DigitsValue(Ungrouped(t)))
    else None
  }

  /** `int(s)` for a string: whitespace stripped, then read. */
  function IntOfText(s: string): (r: Option<int>)
    ensures |s| > 0 && AllDigits(s) ==> r == Some(DigitsValue(s))
  {
    ReadInt(TrimEnd(TrimStart(s)))
  }

  /**
   * `int(value)` as the id lookup applies it: integers, booleans (1/0) and
   * the texts `int()` reads; anything else raises.
   */
  function IdValue(j: Json): (r: Option<int>)
    ensures j.JInt? ==> r == Some(j.i)
    ensures j.JBool? ==> r == Some(if j.b then 1 else 0)
    ensures j.JStr? && |j.s| > 0 && AllDigits(j.s) ==> r == Some(DigitsValue(j.s))
    ensures j.JNull? || j.JList? || j.JObject? ==> r.None?
  {
    match j
    case JInt(i) => Some(i)
    case JBool(b) => Some(if b then 1 else 0)
    case JStr(s) => IntOfText(s)
    case _ => None
  }

  /** A user id written with `str` reads back as the same id. */
  lemma {:induction false} IdValueOfText(u: Id)
    ensures IdValue(JStr(NatToString(u))) == Some(u)
  {
    NatToStringRoundTrip(u);
  }

  /** Whitespace around an id's text is ignored, as `int()` strips it. */
  lemma {:induction false} PaddedIdReadsBack(pre: string, u: Id, post: string)
    requires forall i :: 0 <= i < |pre| ==> StrSpace(pre[i])
    requires forall i :: 0 <= i < |post| ==> StrSpace(post[i])
    ensures IdValue(JStr(pre + NatToString(u) + post)) == Some(u)
  {
    var w := NatToString(u);
    Stripped(pre, w, post);
    Stripped([], w, []);
    assert [] + w + [] == w;
    SameStripSameInt(pre + w + post, w);
    IdValueOfText(u);
  }

  /** `int()` reads two texts alike when they strip to the same text. */
  lemma SameStripSameInt(s: string, w: string)
    requires TrimEnd(TrimStart(s)) == TrimEnd(TrimStart(w))
    ensures IntOfText(s) == IntOfText(w)
  {
  }

  /** Stripping text surrounded by whitespace gives the text back. */
  lemma {:induction false} Stripped(pre: string, w: string, post: string)
    requires forall i :: 0 <= i < |pre| ==> StrSpace(pre[i])
    requires forall i :: 0 <= i < |post| ==> StrSpace(post[i])
    requires w != [] && !StrSpace(w[0]) && !StrSpace(w[|w| - 1])
    ensures TrimEnd(TrimStart(pre + w + post)) == w
  {
    assert pre + w + post == pre + (w + post);
    TrimStartSpaces(pre, w + post);
    TrimEndSpaces(w, post);
  }

  lemma {:induction false} TrimStartSpaces(pre: string, w: string)
    requires forall i :: 0 <= i < |pre| ==> StrSpace(pre[i])
    requires w != [] && !StrSpace(w[0])
    ensures TrimStart(pre + w) == w
    decreases |pre|
  {
    if pre == [] {
      assert pre + w == w;
    } else {
      var s := pre + w;
      assert s[0] == pre[0] && StrSpace(s[0]);
      assert s[1..] == pre[1..] + w;
      assert forall i :: 0 <= i < |pre| - 1 ==> pre[1..][i] == pre[i + 1];
      TrimStartSpaces(pre[1..], w);
    }
  }

  lemma {:induction false} TrimEndSpaces(w: string, post: string)
    requires forall i :: 0 <= i < |post| ==> StrSpace(post[i])
    requires w != [] && !StrSpace(w[|w| - 1])
    ensures TrimEnd(w + post) == w
    decreases |post|
  {
    if post == [] {
      assert w + post == w;
    } else {
      var s := w + post;
      assert s[..|s| - 1] == w + post[..|post| - 1];
      TrimEndSpaces(w, post[..|post| - 1]);
    }
  }

  lemma {:induction false} UngroupedAppend(x: string, y: string)
    requires forall i :: 0 <= i < |x| ==> DigitOrUnderscore(x[i])
    requires forall i :: 0 <= i < |y| ==> DigitOrUnderscore(y[i])
    ensures Ungrouped(x + y) == Ungrouped(x) + Ungrouped(y)
    decreases |x|
  {
    if x == [] {
      assert x + y == y;
    } else {
      var s := x + y;
      assert s[0] == x[0];
      assert s[1..] == x[1..] + y;
      assert forall i :: 0 <= i < |x| - 1 ==> x[1..][i] == x[i + 1];
      UngroupedAppend(x[1..], y);
    }
  }

  /** Digits split by a single underscore read as the digits joined. */
  lemma {:induction false} UnderscoreBetweenDigits(a: string, b: string)
    requires |a| > 0 && |b| > 0 && AllDigits(a) && AllDigits(b)
    ensures IdValue(JStr(a + "_" + b)) == Some(DigitsValue(a + b))
  {
    var s := a + "_" + b;
    GroupedAroundUnderscore(a, b);
    UngroupedAroundUnderscore(a, b);
    DigitEndsStripped(s);
    GroupedText(s);
    assert IdValue(JStr(s)) == IntOfText(s);
  }

  lemma {:induction false} DigitEndsStripped(s: string)
    requires s != [] && IsDigit(s[0]) && IsDigit(s[|s| - 1])
    ensures TrimEnd(TrimStart(s)) == s
  {
    Stripped([], s, []);
    assert [] + s + [] == s;
  }

  lemma {:induction false} UngroupedAroundUnderscore(a: string, b: string)
    requires |a| > 0 && |b| > 0 && AllDigits(a) && AllDigits(b)
    requires forall i :: 0 <= i < |a + "_" + b| ==> DigitOrUnderscore((a + "_" + b)[i])
    ensures Ungrouped(a + "_" + b) == a + b
  {
    var u := "_";
    var ub := u + b;
    assert forall i :: 1 <= i < |ub| ==> ub[i] == b[i - 1];
    UngroupedAppend(a, ub);
    assert Ungrouped(ub) == Ungrouped(b);
    assert a + "_" + b == a + ub;
  }

  /** Stripped grouped digits read as the value of their digits. */
  lemma GroupedText(s: string)
    requires TrimEnd(TrimStart(s)) == s && Grouped(s)
    ensures IntOfText(s) == Some(DigitsValue(Ungrouped(s)))
  {
  }

  lemma {:induction false} GroupedAroundUnderscore(a: string, b: string)
    requires |a| > 0 && |b| > 0 && AllDigits(a) && AllDigits(b)
    ensures Grouped(a + "_" + b)
  {
    var s := a + "_" + b;
    assert forall i :: 0 <= i < |a| ==> s[i] == a[i];
    assert forall i :: |a| < i < |s| ==> s[i] == b[i - |a| - 1];
    assert forall i :: 0 <= i < |s| && i != |a| ==> IsDigit(s[i]);
  }

  /** Two underscores in a row make the text unreadable as an id. */
  lemma DoubleUnderscoreRefused()
    ensures IdValue(JStr("1__2")) == None
  {
    var s := "1__2";
    Stripped([], s, []);
    assert [] + s + [] == s;
    assert s[1] == '_' && !IsDigit(s[2]);
  }

  /** The newest payment (largest id below `n`) with order id `o`. */
  function PaymentWithOrder(ps: map<Id, Payment>, o: string, n: nat): (r: Option<Id>)
    ensures r.Some? ==> r.value < n && r.value in ps && ps[r.value].orderId == o
    ensures r.Some? ==> forall p :: r.value < p < n && p in ps ==> ps[p].orderId != o
    ensures r.None? ==> forall p :: p < n && p in ps ==> ps[p].orderId != o
  {
    if n == 0 then None
    else if n - 1 in ps && ps[n - 1].orderId == o then Some(n - 1)
    else PaymentWithOrder(ps, o, n - 1)
  }

  const InvalidSignatureMessage: string := "Invalid Razorpay signature."
  const InvalidJsonMessage: string := "Invalid JSON payload."
  const InternalErrorMessage: string := "Internal server error."
  const InvalidPayloadMessage: string := "Invalid webhook payload."
  const PaymentNotFoundMessage: string := "Payment record not found."
  const UserNotFoundMessage: string := "User not found."

  datatype Reply =
    | ErrorReply(status: nat, error: string)
    | SuccessReply(message: string)
    /** Django's own 500 response to an exception raised outside the view's `try`. */
    | ServerError

  datatype WebhookOutcome = WebhookOutcome(reply: Reply, tables: Tables)

  /** The text `f"{bed.bed_number}"` renders. */
  function BedNumberText(n: Option<string>): string
  {
    if n.Some? then n.value else "None"
  }

  /** The payment row after the event is applied to it. */
  function MarkPaid(p: Payment, paymentId: string): (r: Payment)
    ensures r.isPaid && r.paymentId == Some(paymentId)
    ensures r.booking == p.booking && r.orderId == p.orderId && r.amount == p.amount
    ensures r.signature == p.signature && r.linkOrderId == p.linkOrderId
  {
    p.(paymentId := Some(paymentId), isPaid := true)
  }

  /** The tables after payment `p` is paid and its booking `k` confirmed. */
  function PaidAndConfirmed(t: Tables, p: Id, paymentId: string, k: Id): Tables
    requires p in t.payments && k in t.bookings
  {
    t.(payments := t.payments[p := MarkPaid(t.payments[p], paymentId)],
       bookings := t.bookings[k := t.bookings[k].(status := Confirmed)])
  }

  /** The tables after user `u` is made a customer (unchanged if already one). */
  function MadeCustomer(t: Tables, u: Id): (r: Tables)
    requires u in t.users
    ensures r.users == t.users[u := t.users[u].(role := Customer)]
    ensures r == t.(users := r.users)
  {
    if t.users[u].role != Customer then t.(users := t.users[u := t.users[u].(role := Customer)]) else t
  }

  /** The success message naming the allotted bed. */
  function AllottedMessage(bedNumber: Option<string>): string
  {
    "Bed " + BedNumberText(bedNumber) + " allotted successfully."
  }

  /**
   * The last stage of the atomic block: allocate a bed on the confirmed
   * tables `t1` and promote the user; a failed allocation rolls back to `t0`.
   */
  function AllocateAndPromote(t0: Tables, t1: Tables, next: nat, k: Id, u: Id, fault: Option<DbFault>, pick: nat): (o: WebhookOutcome)
    requires k in t1.bookings && u in t1.users
    ensures o.reply.ErrorReply? ==> o == WebhookOutcome(ErrorReply(400, InternalErrorMessage), t0)
    ensures !o.reply.ServerError?
  {
    var a := Allocate(t1, next, k, u, fault, pick);
    if a.result.Failure? then WebhookOutcome(ErrorReply(400, InternalErrorMessage), t0)
    else WebhookOutcome(SuccessReply(AllottedMessage(a.tables.beds[a.result.value].bedNumber)), MadeCustomer(a.tables, u))
  }

  /**
   * The user lookup on the confirmed tables `t1`, given what `int()` made of
   * the user id (`None` when it raised, which rolls back to `t0`).
   */
  function UserStage(t0: Tables, t1: Tables, next: nat, k: Id, user: Option<int>, fault: Option<DbFault>, pick: nat): (o: WebhookOutcome)
    requires k in t1.bookings
    ensures o.reply.ErrorReply? && o.reply.status == 400 ==> o.reply.error == InternalErrorMessage && o.tables == t0
    ensures !o.reply.ServerError?
    ensures user.Some? && (user.value < 0 || user.value !in t1.users) ==> o == WebhookOutcome(ErrorReply(404, UserNotFoundMessage), t1)
  {
    match user
    case None => WebhookOutcome(ErrorReply(400, InternalErrorMessage), t0)
    case Some(u) =>
      if u < 0 || u !in t1.users then WebhookOutcome(ErrorReply(404, UserNotFoundMessage), t1)
      else AllocateAndPromote(t0, t1, next, k, u, fault, pick)
  }

  /** The atomic block from the write of payment `p` on. */
  function ApplyPayment(t: Tables, next: nat, p: Id, paymentId: string, userId: Json, fault: Option<DbFault>, pick: nat): (o: WebhookOutcome)
    requires p in t.payments
    ensures o.reply.ErrorReply? && o.reply.status == 400 ==> o.reply.error == InternalErrorMessage && o.tables == t
    ensures !o.reply.ServerError?
  {
    var k := t.payments[p].booking;
    if k !in t.bookings then WebhookOutcome(ErrorReply(400, InternalErrorMessage), t)
    else UserStage(t, PaidAndConfirmed(t, p, paymentId, k), next, k, IdValue(userId), fault, pick)
  }

  /** The body of the atomic block, once the event fields are all truthy. */
  function ApplyEvent(t: Tables, next: nat, e: EventFields, fault: Option<DbFault>, pick: nat): (o: WebhookOutcome)
    requires !e.orderId.JNull? && !e.paymentId.JNull?
    ensures o.reply.ErrorReply? && o.reply.status == 400 ==> o.reply.error == InternalErrorMessage && o.tables == t
    ensures !o.reply.ServerError?
    ensures PaymentWithOrder(t.payments, ColumnText(e.orderId), next).None? ==>
      o == WebhookOutcome(ErrorReply(404, PaymentNotFoundMessage), t)
  {
    match PaymentWithOrder(t.payments, ColumnText(e.orderId), next)
    case None => WebhookOutcome(ErrorReply(404, PaymentNotFoundMessage), t)
    case Some(p) => ApplyPayment(t, next, p, ColumnText(e.paymentId), e.userId, fault, pick)
  }

  /**
   * `RazorpayWebhookView.post`: `signatureValid` is the verdict of the
   * gateway's signature check and `body` the decoded payload (`None` when it
   * is not JSON).
   */
  function HandleEvent(t: Tables, next: nat, signatureValid: bool, body: Option<Json>, fault: Option<DbFault>, pick: nat): (o: WebhookOutcome)
    ensures !signatureValid ==> o == WebhookOutcome(ErrorReply(400, InvalidSignatureMessage), t)
    ensures signatureValid && body.None? ==> o == WebhookOutcome(ErrorReply(400, InvalidJsonMessage), t)
    ensures o.reply.ErrorReply? && o.reply.status == 400 ==> o.tables == t
    ensures !o.reply.ServerError?
  {
    if !signatureValid then WebhookOutcome(ErrorReply(400, InvalidSignatureMessage), t)
    else if body.None? then WebhookOutcome(ErrorReply(400, InvalidJsonMessage), t)
    else
      match ReadEvent(body.value)
      case None => WebhookOutcome(ErrorReply(400, InternalErrorMessage), t)
      case Some(e) =>
        if !Truthy(e.orderId) || !Truthy(e.userId) || !Truthy(e.paymentId) then
          WebhookOutcome(ErrorReply(400, InvalidPayloadMessage), t)
        else ApplyEvent(t, next, e, fault, pick)
  }

  /**
   * The whole request: the body is decoded as UTF-8 before the `try`, so a
   * body that is not UTF-8 escapes the view as a 500 with nothing written;
   * otherwise the handler above runs.
   */
  function Post(t: Tables, next: nat, bodyIsUtf8: bool, signatureValid: bool, body: Option<Json>, fault: Option<DbFault>, pick: nat): (o: WebhookOutcome)
    ensures !bodyIsUtf8 ==> o == WebhookOutcome(ServerError, t)
    ensures o.reply == ServerError <==> !bodyIsUtf8
    ensures bodyIsUtf8 ==> o == HandleEvent(t, next, signatureValid, body, fault, pick)
  {
    if !bodyIsUtf8 then WebhookOutcome(ServerError, t)
    else HandleEvent(t, next, signatureValid, body, fault, pick)
  }

  /** Only a successful event and an unknown user change the tables. */
  lemma {:induction false} OnlySuccessOrUnknownUserWrites(t: Tables, next: nat, sig: bool, body: Option<Json>, fault: Option<DbFault>, pick: nat)
    ensures var o := HandleEvent(t, next, sig, body, fault, pick);
      o.tables != t ==> o.reply.SuccessReply? || o.reply == ErrorReply(404, UserNotFoundMessage)
  {
  }

  /**
   * A successful event for user `u`: the payment holding the order id is
   * paid with the event's payment id, its booking is allotted a bed that was
   * free and of the booked property and room type, that bed is bound to `u`,
   * and `u` is a customer.
   */
  lemma {:induction false} SuccessfulEvent(t: Tables, next: nat, orderId: string, u: Id, paymentId: string, fault: Option<DbFault>, pick: nat)
    requires WellFormed(t, next)
    requires orderId != "" && u > 0 && paymentId != ""
    requires HandleEvent(t, next, true, Some(PaymentEvent(JStr(orderId), JInt(u), JStr(paymentId))), fault, pick).reply.SuccessReply?
    ensures var t' := HandleEvent(t, next, true, Some(PaymentEvent(JStr(orderId), JInt(u), JStr(paymentId))), fault, pick).tables;
      exists p, k, b ::
        && p in t.payments && t.payments[p].orderId == orderId && k == t.payments[p].booking
        && t'.payments == t.payments[p := MarkPaid(t.payments[p], paymentId)]
        && k in t'.bookings && t'.bookings[k].status == Allotted && t'.bookings[k].bed == Some(b)
        && IsCandidate(t, b, t.bookings[k].property, t.bookings[k].roomType)
        && b in t'.beds && t'.beds[b].user == Some(u) && !t'.beds[b].isAvailable
        && u in t'.users && t'.users[u].role == Customer
  {
    PaymentEventDispatch(t, next, orderId, u, paymentId, fault, pick);
    var p := PaymentWithOrder(t.payments, orderId, next).value;
    ApplyPaymentSucceeds(t, next, p, paymentId, JInt(u), fault, pick);
    var k := t.payments[p].booking;
    var t' := ApplyPayment(t, next, p, paymentId, JInt(u), fault, pick).tables;
    var b := t'.bookings[k].bed.value;
    assert t' == HandleEvent(t, next, true, Some(PaymentEvent(JStr(orderId), JInt(u), JStr(paymentId))), fault, pick).tables;
    assert p in t.payments && t.payments[p].orderId == orderId && k == t.payments[p].booking;
    assert t'.beds[b] == Occupied(t.beds[b], u);
  }

  /** An event with a non-empty order id, a positive user id and a payment id is applied to the newest payment with that order id. */
  lemma {:induction false} PaymentEventDispatch(t: Tables, next: nat, orderId: string, u: Id, paymentId: string, fault: Option<DbFault>, pick: nat)
    requires orderId != "" && u > 0 && paymentId != ""
    ensures PaymentWithOrder(t.payments, orderId, next).None? ==>
      HandleEvent(t, next, true, Some(PaymentEvent(JStr(orderId), JInt(u), JStr(paymentId))), fault, pick)
        == WebhookOutcome(ErrorReply(404, PaymentNotFoundMessage), t)
    ensures PaymentWithOrder(t.payments, orderId, next).Some? ==>
      HandleEvent(t, next, true, Some(PaymentEvent(JStr(orderId), JInt(u), JStr(paymentId))), fault, pick)
        == ApplyPayment(t, next, PaymentWithOrder(t.payments, orderId, next).value, paymentId, JInt(u), fault, pick)
  {
    ReadPaymentEvent(JStr(orderId), JInt(u), JStr(paymentId));
  }

  /**
   * A successful application of payment `p`: it is paid, its booking is
   * allotted a bed that was free and matching, that bed is bound to the
   * event's user and no other bed changes, and the user is a customer.
   */
  lemma {:induction false} ApplyPaymentSucceeds(t: Tables, next: nat, p: Id, paymentId: string, userId: Json, fault: Option<DbFault>, pick: nat)
    requires p in t.payments
    requires ApplyPayment(t, next, p, paymentId, userId, fault, pick).reply.SuccessReply?
    ensures IdValue(userId).Some?
    ensures var t' := ApplyPayment(t, next, p, paymentId, userId, fault, pick).tables;
      var k := t.payments[p].booking;
      var u := IdValue(userId).value;
      && k in t.bookings
      && t'.payments == t.payments[p := MarkPaid(t.payments[p], paymentId)]
      && k in t'.bookings && t'.bookings[k].status == Allotted && t'.bookings[k].bed.Some?
      && IsCandidate(t, t'.bookings[k].bed.value, t.bookings[k].property, t.bookings[k].roomType)
      && t'.beds == t.beds[t'.bookings[k].bed.value := Occupied(t.beds[t'.bookings[k].bed.value], u)]
      && u in t'.users && t'.users[u].role == Customer
  {
    var k := t.payments[p].booking;
    var t1 := PaidAndConfirmed(t, p, paymentId, k);
    var u := IdValue(userId).value;
    var a := Allocate(t1, next, k, u, fault, pick);
    assert t1.bookings[k].property == t.bookings[k].property && t1.bookings[k].roomType == t.bookings[k].roomType;
    assert IsCandidate(t, a.result.value, t.bookings[k].property, t.bookings[k].roomType);
  }

  /** A successful event is the application of the newest payment holding its order id. */
  lemma {:induction false} SuccessfulEventApplies(t: Tables, next: nat, body: Json, fault: Option<DbFault>, pick: nat)
    requires HandleEvent(t, next, true, Some(body), fault, pick).reply.SuccessReply?
    ensures ReadEvent(body).Some?
    ensures var e := ReadEvent(body).value;
      && Truthy(e.orderId) && Truthy(e.userId) && Truthy(e.paymentId)
      && PaymentWithOrder(t.payments, ColumnText(e.orderId), next).Some?
      && HandleEvent(t, next, true, Some(body), fault, pick)
         == ApplyPayment(t, next, PaymentWithOrder(t.payments, ColumnText(e.orderId), next).value,
                         ColumnText(e.paymentId), e.userId, fault, pick)
  {
  }

  /** An event naming an unknown user still marks the payment paid and the booking confirmed. */
  lemma {:induction false} UnknownUserKeepsPayment(t: Tables, next: nat, orderId: string, u: Id, paymentId: string, fault: Option<DbFault>, pick: nat)
    requires orderId != "" && u > 0 && paymentId != "" && u !in t.users
    requires exists p :: p < next && p in t.payments && t.payments[p].orderId == orderId
    requires forall p :: p in t.payments ==> t.payments[p].booking in t.bookings
    ensures var o := HandleEvent(t, next, true, Some(PaymentEvent(JStr(orderId), JInt(u), JStr(paymentId))), fault, pick);
      && o.reply == ErrorReply(404, UserNotFoundMessage)
      && exists p :: p in t.payments && t.payments[p].orderId == orderId && o.tables == PaidAndConfirmed(t, p, paymentId, t.payments[p].booking)
  {
    ReadPaymentEvent(JStr(orderId), JInt(u), JStr(paymentId));
    var p :| p < next && p in t.payments && t.payments[p].orderId == orderId;
    assert PaymentWithOrder(t.payments, orderId, next).Some?;
  }

  /** An event whose order id, as column text, matches no payment changes nothing. */
  lemma {:induction false} UnknownOrderChangesNothing(t: Tables, next: nat, orderId: Json, userId: Json, paymentId: Json, fault: Option<DbFault>, pick: nat)
    requires Truthy(orderId) && Truthy(userId) && Truthy(paymentId)
    requires forall p :: p in t.payments ==> t.payments[p].orderId != ColumnText(orderId)
    ensures HandleEvent(t, next, true, Some(PaymentEvent(orderId, userId, paymentId)), fault, pick)
         == WebhookOutcome(ErrorReply(404, PaymentNotFoundMessage), t)
  {
    ReadPaymentEvent(orderId, userId, paymentId);
  }

  /**
   * A list or dict sent as the order id is compared as its text, so it is
   * "not found" (not an internal error) unless a payment's order id starts
   * with the same bracket.
   */
  lemma {:induction false} ContainerOrderIdNotFound(t: Tables, next: nat, orderId: Json, userId: Json, paymentId: Json, fault: Option<DbFault>, pick: nat)
    requires (orderId.JList? && orderId.items != []) || (orderId.JObject? && orderId.fields != map[])
    requires Truthy(userId) && Truthy(paymentId)
    requires forall p :: p in t.payments ==> t.payments[p].orderId == [] || t.payments[p].orderId[0] !in "[{"
    ensures HandleEvent(t, next, true, Some(PaymentEvent(orderId, userId, paymentId)), fault, pick)
         == WebhookOutcome(ErrorReply(404, PaymentNotFoundMessage), t)
  {
    var text := ColumnText(orderId);
    assert text[0] in "[{";
    UnknownOrderChangesNothing(t, next, orderId, userId, paymentId, fault, pick);
  }

  /** An event with a missing or empty order id, user id or payment id is refused and changes nothing. */
  lemma {:induction false} FalsyFieldRefused(t: Tables, next: nat, orderId: Json, userId: Json, paymentId: Json, fault: Option<DbFault>, pick: nat)
    requires !Truthy(orderId) || !Truthy(userId) || !Truthy(paymentId)
    ensures HandleEvent(t, next, true, Some(PaymentEvent(orderId, userId, paymentId)), fault, pick)
         == WebhookOutcome(ErrorReply(400, InvalidPayloadMessage), t)
  {
    ReadPaymentEvent(orderId, userId, paymentId);
  }

  /**
   * The handler keeps no record of events already applied: when the same
   * event is delivered again and succeeds again, the user holds a second bed
   * and the first stays bound to them.
   */
  lemma {:induction false} ReplayBindsSecondBed(t: Tables, next: nat, body: Json, f1: Option<DbFault>, p1: nat, f2: Option<DbFault>, p2: nat)
    requires WellFormed(t, next)
    requires HandleEvent(t, next, true, Some(body), f1, p1).reply.SuccessReply?
    requires HandleEvent(HandleEvent(t, next, true, Some(body), f1, p1).tables, next, true, Some(body), f2, p2).reply.SuccessReply?
    ensures var t1 := HandleEvent(t, next, true, Some(body), f1, p1).tables;
      var t2 := HandleEvent(t1, next, true, Some(body), f2, p2).tables;
      exists u, b1, b2 :: b1 != b2 && b1 in t2.beds && b2 in t2.beds
        && t2.beds[b1].user == Some(u) && t2.beds[b2].user == Some(u)
  {
    // first delivery
    SuccessfulEventApplies(t, next, body, f1, p1);
    var e := ReadEvent(body).value;
    var o, pid := ColumnText(e.orderId), ColumnText(e.paymentId);
    var p := PaymentWithOrder(t.payments, o, next).value;
    ApplyPaymentSucceeds(t, next, p, pid, e.userId, f1, p1);
    var u := IdValue(e.userId).value;
    var t1 := ApplyPayment(t, next, p, pid, e.userId, f1, p1).tables;
    var b1 := t1.bookings[t.payments[p].booking].bed.value;
    assert t1.beds == t.beds[b1 := Occupied(t.beds[b1], u)];
    // second delivery
    SuccessfulEventApplies(t1, next, body, f2, p2);
    var q := PaymentWithOrder(t1.payments, o, next).value;
    ApplyPaymentSucceeds(t1, next, q, pid, e.userId, f2, p2);
    var t2 := ApplyPayment(t1, next, q, pid, e.userId, f2, p2).tables;
    var k2 := t1.payments[q].booking;
    var b2 := t2.bookings[k2].bed.value;
    assert IsCandidate(t1, b2, t1.bookings[k2].property, t1.bookings[k2].roomType);
    assert t2.beds == t1.beds[b2 := Occupied(t1.beds[b2], u)];
    assert b1 != b2;
    assert t1 == HandleEvent(t, next, true, Some(body), f1, p1).tables;
    assert t2 == HandleEvent(t1, next, true, Some(body), f2, p2).tables;
    assert b1 in t2.beds && b2 in t2.beds && t2.beds[b1].user == Some(u) && t2.beds[b2].user == Some(u);
  }

  /** Allocating and promoting keeps well-formed tables well formed. */
  lemma {:induction false} AllocateAndPromoteKeepsWellFormed(t0: Tables, t1: Tables, next: nat, k: Id, u: Id, fault: Option<DbFault>, pick: nat)
    requires WellFormed(t0, next) && WellFormed(t1, next) && k in t1.bookings && u in t1.users
    ensures WellFormed(AllocateAndPromote(t0, t1, next, k, u, fault, pick).tables, next)
  {
    var a := Allocate(t1, next, k, u, fault, pick);
    if a.result.Success? {
      BindKeepsWellFormed(t1, next, k, u, a.result.value);
      RoleUpdateKeepsWellFormed(a.tables, next, u, Customer);
    }
  }

  /** Paying a payment and confirming its booking keeps the tables well formed. */
  lemma {:induction false} PaidAndConfirmedKeepsWellFormed(t: Tables, next: nat, p: Id, pid: string)
    requires WellFormed(t, next) && p in t.payments
    ensures t.payments[p].booking in t.bookings
    ensures WellFormed(PaidAndConfirmed(t, p, pid, t.payments[p].booking), next)
  {
    var k := t.payments[p].booking;
    PaymentUpdateKeepsWellFormed(t, next, p, MarkPaid(t.payments[p], pid));
    var t0 := t.(payments := t.payments[p := MarkPaid(t.payments[p], pid)]);
    BookingStatusKeepsWellFormed(t0, next, k, Confirmed);
    assert PaidAndConfirmed(t, p, pid, k) == t0.(bookings := t0.bookings[k := t0.bookings[k].(status := Confirmed)]);
  }

  /** Writing the payment and its booking, then allocating, keeps the tables well formed. */
  lemma {:induction false} ApplyPaymentKeepsWellFormed(t: Tables, next: nat, p: Id, pid: string, userId: Json, fault: Option<DbFault>, pick: nat)
    requires WellFormed(t, next) && p in t.payments
    ensures WellFormed(ApplyPayment(t, next, p, pid, userId, fault, pick).tables, next)
  {
    var k := t.payments[p].booking;
    PaidAndConfirmedKeepsWellFormed(t, next, p, pid);
    var t1 := PaidAndConfirmed(t, p, pid, k);
    var key := IdValue(userId);
    if key.Some? && key.value >= 0 && key.value in t1.users {
      AllocateAndPromoteKeepsWellFormed(t, t1, next, k, key.value, fault, pick);
    }
  }

  /** The handler keeps the tables well formed. */
  lemma {:induction false} HandleEventKeepsWellFormed(t: Tables, next: nat, sig: bool, body: Option<Json>, fault: Option<DbFault>, pick: nat)
    requires WellFormed(t, next)
    ensures WellFormed(HandleEvent(t, next, sig, body, fault, pick).tables, next)
  {
    if sig && body.Some? && ReadEvent(body.value).Some? {
      var e := ReadEvent(body.value).value;
      if Truthy(e.orderId) && Truthy(e.userId) && Truthy(e.paymentId)
        && PaymentWithOrder(t.payments, ColumnText(e.orderId), next).Some?
      {
        var p := PaymentWithOrder(t.payments, ColumnText(e.orderId), next).value;
        ApplyPaymentKeepsWellFormed(t, next, p, ColumnText(e.paymentId), e.userId, fault, pick);
      }
    }
  }

  /** Applying a payment writes no bed's group or room type, so beds keep their groups' room types. */
  lemma {:induction false} ApplyPaymentKeepsBedTypes(t: Tables, next: nat, p: Id, pid: string, userId: Json, fault: Option<DbFault>, pick: nat)
    requires BedTypesMatchGroups(t) && p in t.payments
    ensures BedTypesMatchGroups(ApplyPayment(t, next, p, pid, userId, fault, pick).tables)
  {
    var k := t.payments[p].booking;
    if k in t.bookings {
      var t1 := PaidAndConfirmed(t, p, pid, k);
      assert t1.beds == t.beds && t1.groups == t.groups;
      var key := IdValue(userId);
      if key.Some? && key.value >= 0 && key.value in t1.users {
        var u := key.value;
        var a := Allocate(t1, next, k, u, fault, pick);
        if a.result.Success? {
          BindKeepsBedTypes(t1, k, u, a.result.value);
          assert MadeCustomer(a.tables, u).beds == a.tables.beds;
          assert MadeCustomer(a.tables, u).groups == a.tables.groups;
        }
      }
    }
  }

  /** The webhook keeps every bed carrying its group's room type. */
  lemma {:induction false} HandleEventKeepsBedTypes(t: Tables, next: nat, sig: bool, body: Option<Json>, fault: Option<DbFault>, pick: nat)
    requires BedTypesMatchGroups(t)
    ensures BedTypesMatchGroups(HandleEvent(t, next, sig, body, fault, pick).tables)
  {
    if sig && body.Some? && ReadEvent(body.value).Some? {
      var e := ReadEvent(body.value).value;
      if Truthy(e.orderId) && Truthy(e.userId) && Truthy(e.paymentId)
        && PaymentWithOrder(t.payments, ColumnText(e.orderId), next).Some?
      {
        var p := PaymentWithOrder(t.payments, ColumnText(e.orderId), next).value;
        ApplyPaymentKeepsBedTypes(t, next, p, ColumnText(e.paymentId), e.userId, fault, pick);
      }
    }
  }

  /** `RazorpayWebhookView.post` on the store. */
  method HandleWebhook(db: Db, bodyIsUtf8: bool, signatureValid: bool, body: Option<Json>, fault: Option<DbFault>, pick: nat) returns (reply: Reply)
    requires db.Valid()
    modifies db
    ensures db.Valid() && db.nextId == old(db.nextId)
    ensures WebhookOutcome(reply, db.State()) == Post(old(db.State()), old(db.nextId), bodyIsUtf8, signatureValid, body, fault, pick)
  {
    if !bodyIsUtf8 {
      return ServerError;
    }
    if !signatureValid {
      return ErrorReply(400, InvalidSignatureMessage);
    }
    if body.None? {
      return ErrorReply(400, InvalidJsonMessage);
    }
    var event := ReadEvent(body.value);
    if event.None? {
      return ErrorReply(400, InternalErrorMessage);
    }
    var e := event.value;
    if !Truthy(e.orderId) || !Truthy(e.userId) || !Truthy(e.paymentId) {
      return ErrorReply(400, InvalidPayloadMessage);
    }
    // the atomic block
    var found := PaymentWithOrder(db.payments, ColumnText(e.orderId), db.nextId);
    if found.None? {
      return ErrorReply(404, PaymentNotFoundMessage);
    }
    reply := ApplyPaymentOn(db, found.value, ColumnText(e.paymentId), e.userId, fault, pick);
  }

  /** The atomic block of `post` from the write of payment `p` on. */
  method ApplyPaymentOn(db: Db, p: Id, paymentId: string, userId: Json, fault: Option<DbFault>, pick: nat) returns (reply: Reply)
    requires db.Valid() && p in db.payments
    modifies db
    ensures db.Valid() && db.nextId == old(db.nextId)
    ensures WebhookOutcome(reply, db.State()) == ApplyPayment(old(db.State()), old(db.nextId), p, paymentId, userId, fault, pick)
  {
    var saved := db.State();
    var k := ConfirmOn(db, p, paymentId);
    var userKey := IdValue(userId);
    if userKey.None? {
      db.Restore(saved);
      return ErrorReply(400, InternalErrorMessage);
    }
    var u := userKey.value;
    if u < 0 || u !in db.users {
      return ErrorReply(404, UserNotFoundMessage);
    }
    reply := AllocateAndPromoteOn(db, saved, k, u, fault, pick);
  }

  /** Marks payment `p` paid with `paymentId` and confirms its booking, which the foreign key guarantees exists. */
  method ConfirmOn(db: Db, p: Id, paymentId: string) returns (k: Id)
    requires db.Valid() && p in db.payments
    modifies db`payments, db`bookings
    ensures db.Valid() && k == old(db.payments[p].booking) && k in old(db.bookings)
    ensures db.State() == PaidAndConfirmed(old(db.State()), p, paymentId, k)
  {
    k := db.payments[p].booking;
    PaymentUpdateKeepsWellFormed(db.State(), db.nextId, p, MarkPaid(db.payments[p], paymentId));
    db.payments := db.payments[p := MarkPaid(db.payments[p], paymentId)];
    BookingStatusKeepsWellFormed(db.State(), db.nextId, k, Confirmed);
    db.bookings := db.bookings[k := db.bookings[k].(status := Confirmed)];
  }

  /** Allocation and promotion on the confirmed tables; a failure rolls back to `saved`. */
  method AllocateAndPromoteOn(db: Db, saved: Tables, k: Id, u: Id, fault: Option<DbFault>, pick: nat) returns (reply: Reply)
    requires db.Valid() && WellFormed(saved, db.nextId) && k in db.bookings && u in db.users
    modifies db
    ensures db.Valid() && db.nextId == old(db.nextId)
    ensures WebhookOutcome(reply, db.State()) == AllocateAndPromote(saved, old(db.State()), old(db.nextId), k, u, fault, pick)
  {
    var outcome := AllocateBed(db, k, u, fault, pick);
    if outcome.Failure? {
      db.Restore(saved);
      return ErrorReply(400, InternalErrorMessage);
    }
    var bed := db.beds[outcome.value];
    PromoteOn(db, u);
    reply := SuccessReply(AllottedMessage(bed.bedNumber));
  }

  /** Makes user `u` a customer unless they already are one. */
  method PromoteOn(db: Db, u: Id)
    requires db.Valid() && u in db.users
    modifies db`users
    ensures db.Valid() && db.State() == MadeCustomer(old(db.State()), u)
  {
    if db.users[u].role != Customer {
      RoleUpdateKeepsWellFormed(db.State(), db.nextId, u, Customer);
      db.users := db.users[u := db.users[u].(role := Customer)];
    }
  }
}
