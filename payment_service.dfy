/** Payments: Stripe checkout, verification of a returned session, the
    webhook, and manual (cash) payments. Stripe itself is an oracle: the
    session it creates, the session it returns and the event it verifies are
    inputs of the operations. */
module Payments {
  import opened Common
  import opened Entities
  import opened Decimal
  import Orders

  datatype PaymentError =
    | OrderNotFound(orderId: nat)
    | IncompleteUserData
    | InvalidTotal
    | NotOrderOwner
    | GatewayError
    | MissingPaymentId
    | PaymentNotFound
    | OrderUpdateFailed(cause: Orders.OrderError)
    | OrderIdNotNumeric
    | MissingBody
    | BadSignature
    | ConstraintViolation
  {
    /** The exception class each error is thrown as. A rejected insert is the
        database's own error, which surfaces as a server error. */
    function Exception(): HttpException
    {
      match this
      case OrderNotFound(_) | PaymentNotFound | OrderIdNotNumeric => NotFound
      case OrderUpdateFailed(cause) => cause.Exception()
      case ConstraintViolation => InternalServerError
      case _ => BadRequest
    }
  }

  // ---------------------------------------------------------------------
  // Checkout
  // ---------------------------------------------------------------------

  /** The body of a checkout request: the order and the buyer the JWT names. */
  datatype CheckoutDto = CheckoutDto(orderId: nat, userId: Option<nat>)

  /** What is sent to Stripe to open a session: the amount in cents, the
      metadata that identifies the order and the payment, and the buyer's email. */
  datatype SessionRequest = SessionRequest(
    unitAmount: nat,
    orderIdMetadata: string,
    paymentIdMetadata: string,
    customerEmail: string)

  /** Stripe's answer to a session request: a session, or a thrown error. */
  datatype SessionCreation = SessionCreated(id: string, url: string) | SessionFailed

  datatype CheckoutLink = CheckoutLink(url: string, sessionId: string)

  /** The checks `createStripeCheckout` makes before it records anything:
      the order exists, its user exists and has an email, its total is
      positive, and it belongs to the requesting user. */
  function CheckoutGuard(orders: map<nat, Order>, users: map<nat, User>, dto: CheckoutDto): (r: Result<Order, PaymentError>)
    ensures r.Ok? ==> dto.orderId in orders && r.value == orders[dto.orderId]
    ensures r.Ok? ==> r.value.total > 0 && dto.userId == Some(r.value.userId)
    ensures r.Ok? ==> r.value.userId in users && users[r.value.userId].email != ""
    ensures r.Err? ==> r.error.Exception() == (if dto.orderId in orders then BadRequest else NotFound)
    ensures (&& dto.orderId in orders && orders[dto.orderId].userId in users
             && users[orders[dto.orderId].userId].email != "" && orders[dto.orderId].total > 0
             && dto.userId == Some(orders[dto.orderId].userId)) ==> r == Ok(orders[dto.orderId])
  {
    if dto.orderId !in orders then Err(OrderNotFound(dto.orderId))
    else
      var o := orders[dto.orderId];
      if o.userId !in users || users[o.userId].email == "" then Err(IncompleteUserData)
      else if o.total == 0 then Err(InvalidTotal)
      else if dto.userId != Some(o.userId) then Err(NotOrderOwner)
      else Ok(o)
  }

  /** The record a checkout first stores: PENDING, by Stripe, for the order total. */
  function PendingStripePayment(orderId: nat, o: Order): (p: Payment)
    ensures p.status == PaymentStatus.Pending && p.paymentMethod == PaymentMethod.Stripe
    ensures p.amount == o.total && p.orderId == orderId && p.userId == o.userId
    ensures p.stripeSessionId.None? && p.stripePaymentIntentId.None?
  {
    Payment(orderId, o.userId, o.total, PaymentMethod.Stripe, PaymentStatus.Pending, None, None)
  }

  // ---------------------------------------------------------------------
  // Verification of a returned session
  // ---------------------------------------------------------------------

  /** The parts of a retrieved checkout session that verification reads. */
  datatype StripeSession = StripeSession(
    paymentStatus: string,
    status: string,
    paymentId: Option<string>,
    paymentIntent: Option<string>)

  datatype Verification = Verification(status: PaymentStatus, stripeStatus: string)

  /** The local payment and order status a Stripe session stands for:
      paid and complete is PAID, unpaid and open is still PENDING, and
      everything else is a failed payment and a cancelled order. */
  function SessionOutcome(paymentStatus: string, status: string): (r: (PaymentStatus, OrderStatus))
    ensures r.0 == PaymentStatus.Paid <==> paymentStatus == "paid" && status == "complete"
    ensures r.0 == PaymentStatus.Pending <==> paymentStatus == "unpaid" && status == "open"
    ensures r.0 == PaymentStatus.Paid || r.0 == PaymentStatus.Pending || r.0 == PaymentStatus.Failed
    ensures r.0 == PaymentStatus.Paid <==> r.1 == OrderStatus.Paid
    ensures r.0 == PaymentStatus.Pending <==> r.1 == OrderStatus.Pending
    ensures r.0 == PaymentStatus.Failed <==> r.1 == OrderStatus.Cancelled
  {
    if paymentStatus == "paid" && status == "complete" then (PaymentStatus.Paid, OrderStatus.Paid)
    else if paymentStatus == "unpaid" && status == "open" then (PaymentStatus.Pending, OrderStatus.Pending)
    else (PaymentStatus.Failed, OrderStatus.Cancelled)
  }

  /** The local payment a session's `paymentId` metadata names. */
  function ResolvePayment(payments: map<nat, Payment>, paymentId: Option<string>): (r: Result<nat, PaymentError>)
    ensures r.Ok? ==> r.value in payments && paymentId.Some? && ParseInt(paymentId.value) == Some(r.value)
    ensures !IsTruthyString(paymentId) <==> r == Err(MissingPaymentId)
    ensures (&& IsTruthyString(paymentId) && ParseInt(paymentId.value).Some?
             && ParseInt(paymentId.value).value in payments) ==> r == Ok(ParseInt(paymentId.value).value)
  {
    if !IsTruthyString(paymentId) then Err(MissingPaymentId)
    else
      match ParseInt(paymentId.value)
      case None => Err(PaymentNotFound)
      case Some(id) => if id in payments then Ok(id) else Err(PaymentNotFound)
  }

  /** A session opened by checkout carries the payment id as metadata, and
      verification finds that very payment again. */
  lemma CheckoutMetadataResolves(payments: map<nat, Payment>, pid: nat)
    requires pid in payments
    ensures ResolvePayment(payments, Some(ToDecimal(pid))) == Ok(pid)
  {
    DecimalRoundTrip(pid);
  }

  /** The payment record after verification: rewritten with the new status
      and the payment intent only when its status differs from the session's. */
  function Reconciled(payments: map<nat, Payment>, session: StripeSession): (r: map<nat, Payment>)
    ensures r.Keys == payments.Keys
    ensures ResolvePayment(payments, session.paymentId).Ok? ==>
      r[ResolvePayment(payments, session.paymentId).value].status == SessionOutcome(session.paymentStatus, session.status).0
    ensures forall id :: id in payments && Some(id) != ParseInt(session.paymentId.GetOr("")) ==> r[id] == payments[id]
    ensures ResolvePayment(payments, session.paymentId).Err? ==> r == payments
    ensures var pid := ResolvePayment(payments, session.paymentId);
      var target := SessionOutcome(session.paymentStatus, session.status).0;
      pid.Ok? && payments[pid.value].status == target ==> r[pid.value] == payments[pid.value]
    ensures var pid := ResolvePayment(payments, session.paymentId);
      var target := SessionOutcome(session.paymentStatus, session.status).0;
      pid.Ok? && payments[pid.value].status != target ==>
        r[pid.value] == payments[pid.value].(status := target, stripePaymentIntentId := session.paymentIntent)
  {
    match ResolvePayment(payments, session.paymentId)
    case Err(_) => payments
    case Ok(pid) =>
      var target := SessionOutcome(session.paymentStatus, session.status).0;
      if payments[pid].status == target then payments
      else payments[pid := payments[pid].(status := target, stripePaymentIntentId := session.paymentIntent)]
  }

  /** Whether verification writes at all (and so calls `updateStatus`). */
  predicate WritesOnVerify(payments: map<nat, Payment>, session: StripeSession)
  {
    && ResolvePayment(payments, session.paymentId).Ok?
    && payments[ResolvePayment(payments, session.paymentId).value].status
         != SessionOutcome(session.paymentStatus, session.status).0
  }

  /** Verifying the same session a second time writes nothing. */
  lemma VerifyTwiceWritesOnce(payments: map<nat, Payment>, session: StripeSession)
    ensures !WritesOnVerify(Reconciled(payments, session), session)
    ensures Reconciled(Reconciled(payments, session), session) == Reconciled(payments, session)
  {
  }

  // ---------------------------------------------------------------------
  // Webhook
  // ---------------------------------------------------------------------

  /** The parts of a verified Stripe event the webhook reads. */
  datatype StripeEvent = StripeEvent(eventType: string, orderId: Option<string>)

  /** The order update an event asks for, if any: a succeeded payment intent
      pays the order, a failed one cancels it, and any other event, or one
      without an `orderId`, asks for nothing. */
  function WebhookAction(e: StripeEvent): (r: Option<(string, OrderStatus)>)
    ensures r.Some? ==> IsTruthyString(e.orderId) && r.value.0 == e.orderId.value
    ensures (r.Some? && r.value.1 == OrderStatus.Paid) <==>
      e.eventType == "payment_intent.succeeded" && IsTruthyString(e.orderId)
    ensures (r.Some? && r.value.1 == OrderStatus.Cancelled) <==>
      e.eventType == "payment_intent.payment_failed" && IsTruthyString(e.orderId)
    ensures r.Some? ==> r.value.1 != OrderStatus.Pending
  {
    if !IsTruthyString(e.orderId) then None
    else if e.eventType == "payment_intent.succeeded" then Some((e.orderId.value, OrderStatus.Paid))
    else if e.eventType == "payment_intent.payment_failed" then Some((e.orderId.value, OrderStatus.Cancelled))
    else None
  }

  // ---------------------------------------------------------------------
  // Manual payments
  // ---------------------------------------------------------------------

  datatype ManualPaymentDto = ManualPaymentDto(orderId: nat, userId: Option<nat>, amount: Option<nat>)

  /** Whether the payments table accepts the row: its user and amount columns
      are NOT NULL, and its order and user must exist. */
  predicate ManualPaymentInsertable(orders: map<nat, Order>, users: map<nat, User>, dto: ManualPaymentDto)
  {
    dto.orderId in orders && dto.userId.Some? && dto.userId.value in users && dto.amount.Some?
  }

  /** The payment service over the shared database; order changes go
      through the order service. */
  class PaymentService {
    const db: Database
    const orderService: Orders.OrderService

    constructor (orderService: Orders.OrderService)
      ensures this.orderService == orderService && db == orderService.db
    {
      this.orderService := orderService;
      db := orderService.db;
    }

    ghost predicate Valid()
      reads db
    {
      db == orderService.db && db.Valid()
    }

    /** `createStripeCheckout(dto)`: after the guards, records one PENDING
        Stripe payment for the order total, asks Stripe for a session, and
        then stores the session id, or marks the payment CANCELLED when
        Stripe fails. */
    method CreateStripeCheckout(dto: CheckoutDto, createSession: SessionRequest -> SessionCreation)
      returns (r: Result<CheckoutLink, PaymentError>)
      requires Valid()
      modifies db`payments, db`nextPaymentId
      ensures Valid()
      ensures CheckoutGuard(db.orders, db.users, dto).Err? ==>
        && r == Err(CheckoutGuard(db.orders, db.users, dto).error)
        && db.payments == old(db.payments) && db.nextPaymentId == old(db.nextPaymentId)
      ensures CheckoutGuard(db.orders, db.users, dto).Ok? ==>
        var o := CheckoutGuard(db.orders, db.users, dto).value;
        var pid := old(db.nextPaymentId);
        var pending := PendingStripePayment(dto.orderId, o);
        var request := SessionRequest(o.total, ToDecimal(dto.orderId), ToDecimal(pid), db.users[o.userId].email);
        && pid !in old(db.payments)
        && db.nextPaymentId == pid + 1
        && match createSession(request)
           case SessionCreated(sid, url) =>
             r == Ok(CheckoutLink(url, sid))
             && db.payments == old(db.payments)[pid := pending.(stripeSessionId := Some(sid))]
           case SessionFailed =>
             r == Err(GatewayError)
             && db.payments == old(db.payments)[pid := pending.(status := PaymentStatus.Cancelled)]
    {
      if dto.orderId !in db.orders {
        return Err(OrderNotFound(dto.orderId));
      }
      var order := db.orders[dto.orderId];
      if order.userId !in db.users || db.users[order.userId].email == "" {
        return Err(IncompleteUserData);
      }
      if order.total == 0 {
        return Err(InvalidTotal);
      }
      if dto.userId != Some(order.userId) {
        return Err(NotOrderOwner);
      }
      var pid := db.nextPaymentId;
      var pending := Payment(dto.orderId, order.userId, order.total, PaymentMethod.Stripe, PaymentStatus.Pending, None, None);
      db.payments := db.payments[pid := pending];
      db.nextPaymentId := pid + 1;
      var request := SessionRequest(order.total, ToDecimal(dto.orderId), ToDecimal(pid), db.users[order.userId].email);
      var session := createSession(request);
      match session {
        case SessionCreated(sid, url) =>
          db.payments := db.payments[pid := pending.(stripeSessionId := Some(sid))];
          r := Ok(CheckoutLink(url, sid));
        case SessionFailed =>
          db.payments := db.payments[pid := pending.(status := PaymentStatus.Cancelled)];
          r := Err(GatewayError);
      }
    }

    /** `verifyStripePayment(sessionId)` on the session Stripe returns: finds
        the local payment, and only when its status differs from the
        session's rewrites it and then asks the order service for the
        matching order status. The payment write stands even when the order
        update then fails. */
    method VerifyStripePayment(session: StripeSession) returns (r: Result<Verification, PaymentError>)
      requires Valid()
      modifies db`payments, db`orders, db`products
      ensures Valid()
      ensures db.payments == Reconciled(old(db.payments), session)
      ensures ResolvePayment(old(db.payments), session.paymentId).Err? ==>
        && r == Err(ResolvePayment(old(db.payments), session.paymentId).error)
        && db.orders == old(db.orders) && db.products == old(db.products)
      ensures ResolvePayment(old(db.payments), session.paymentId).Ok? && !WritesOnVerify(old(db.payments), session) ==>
        && r == Ok(Verification(SessionOutcome(session.paymentStatus, session.status).0, session.paymentStatus))
        && db.orders == old(db.orders) && db.products == old(db.products)
      ensures WritesOnVerify(old(db.payments), session) ==>
        var outcome := SessionOutcome(session.paymentStatus, session.status);
        var local := old(db.payments)[ResolvePayment(old(db.payments), session.paymentId).value];
        var u := Orders.UpdateStatusSpec(old(db.orders), old(db.products), local.orderId, Orders.StatusKey(outcome.1), None);
        && db.orders == u.orders && db.products == u.products
        && r == (if u.result.Ok? then Ok(Verification(outcome.0, session.paymentStatus))
                 else Err(OrderUpdateFailed(u.result.error)))
    {
      if !IsTruthyString(session.paymentId) {
        return Err(MissingPaymentId);
      }
      var parsed := ParseInt(session.paymentId.value);
      if parsed.None? || parsed.value !in db.payments {
        return Err(PaymentNotFound);
      }
      var pid := parsed.value;
      var local := db.payments[pid];
      var outcome := SessionOutcome(session.paymentStatus, session.status);
      if local.status != outcome.0 {
        db.payments := db.payments[pid := local.(status := outcome.0, stripePaymentIntentId := session.paymentIntent)];
        var updated := orderService.UpdateStatus(local.orderId, Orders.StatusKey(outcome.1), None);
        if updated.Err? {
          return Err(OrderUpdateFailed(updated.error));
        }
      }
      r := Ok(Verification(outcome.0, session.paymentStatus));
    }

    /** `handleStripeWebhook(rawBody, signature)`: `constructEvent` stands for
        Stripe's signature check, giving the event or nothing. A body-less or
        badly signed call is rejected; a succeeded or failed payment intent
        with an `orderId` pays or cancels that order; every other event
        changes nothing. */
    method HandleStripeWebhook(rawBody: Option<seq<bv8>>, constructEvent: seq<bv8> -> Option<StripeEvent>)
      returns (r: Result<(), PaymentError>)
      requires Valid()
      modifies db`orders, db`products
      ensures Valid()
      ensures rawBody.None? ==> r == Err(MissingBody) && db.orders == old(db.orders) && db.products == old(db.products)
      ensures rawBody.Some? && constructEvent(rawBody.value).None? ==>
        r == Err(BadSignature) && db.orders == old(db.orders) && db.products == old(db.products)
      ensures rawBody.Some? && constructEvent(rawBody.value).Some? ==>
        var action := WebhookAction(constructEvent(rawBody.value).value);
        if action.None? then
          r == Ok(()) && db.orders == old(db.orders) && db.products == old(db.products)
        else if ParseInt(action.value.0).None? then
          r == Err(OrderIdNotNumeric) && db.orders == old(db.orders) && db.products == old(db.products)
        else
          var u := Orders.UpdateStatusSpec(old(db.orders), old(db.products),
                                           ParseInt(action.value.0).value, Orders.StatusKey(action.value.1), None);
          && db.orders == u.orders && db.products == u.products
          && r == (if u.result.Ok? then Ok(()) else Err(OrderUpdateFailed(u.result.error)))
    {
      if rawBody.None? {
        return Err(MissingBody);
      }
      var event := constructEvent(rawBody.value);
      if event.None? {
        return Err(BadSignature);
      }
      var action := WebhookAction(event.value);
      if action.None? {
        return Ok(());
      }
      var orderId := ParseInt(action.value.0);
      if orderId.None? {
        return Err(OrderIdNotNumeric);
      }
      var updated := orderService.UpdateStatus(orderId.value, Orders.StatusKey(action.value.1), None);
      if updated.Err? {
        return Err(OrderUpdateFailed(updated.error));
      }
      r := Ok(());
    }

    /** `createManualPayment(dto)`: stores the request as a PAID cash
        payment, when the table accepts the row. */
    method CreateManualPayment(dto: ManualPaymentDto) returns (r: Result<nat, PaymentError>)
      requires Valid()
      modifies db`payments, db`nextPaymentId
      ensures Valid()
      ensures r.Ok? <==> ManualPaymentInsertable(db.orders, db.users, dto)
      ensures r.Err? ==>
        && r.error == ConstraintViolation
        && db.payments == old(db.payments) && db.nextPaymentId == old(db.nextPaymentId)
      ensures r.Ok? ==>
        && r.value !in old(db.payments) && db.nextPaymentId == r.value + 1
        && db.payments == old(db.payments)[r.value := Payment(dto.orderId, dto.userId.value, dto.amount.value,
                                                              PaymentMethod.Cash, PaymentStatus.Paid, None, None)]
    {
      if !ManualPaymentInsertable(db.orders, db.users, dto) {
        return Err(ConstraintViolation);
      }
      var pid := db.nextPaymentId;
      db.payments := db.payments[pid := Payment(dto.orderId, dto.userId.value, dto.amount.value,
                                                PaymentMethod.Cash, PaymentStatus.Paid, None, None)];
      db.nextPaymentId := pid + 1;
      r := Ok(pid);
    }
  }
}
