/** Invoices: issued only for a paid order of the invoiced user, for exactly
    the order total, under a number no other invoice has; afterwards an
    invoice moves once from ISSUED to CANCELLED and only then may be deleted. */
module Invoices {
  import opened Common
  import opened Entities

  datatype InvoiceError =
    | UserNotFound
    | OrderNotFound
    | PaymentNotFound
    | OrderNotPaid
    | AmountMismatch
    | DuplicateNumber(invoiceNumber: string)
    | InvoiceNotFound(id: nat)
    | NotIssued
    | AlreadyCancelled
    | IssuedNotDeletable
    | ConstraintViolation
  {
    /** The exception class each error is thrown as. A save the database
        rejects surfaces as a server error. */
    function Exception(): HttpException
    {
      match this
      case UserNotFound | OrderNotFound | PaymentNotFound | InvoiceNotFound(_) => NotFound
      case ConstraintViolation => InternalServerError
      case _ => BadRequest
    }
  }

  /** The body of an invoice request; the amount is in cents. */
  datatype CreateInvoiceDto = CreateInvoiceDto(
    userId: nat,
    orderId: nat,
    paymentId: nat,
    totalAmount: nat,
    invoiceNumber: string)

  /** The body of an invoice update: any of the request's fields. */
  datatype UpdateInvoiceDto = UpdateInvoiceDto(
    userId: Option<nat>,
    orderId: Option<nat>,
    paymentId: Option<nat>,
    totalAmount: Option<nat>,
    invoiceNumber: Option<string>)

  /** Putting an invoice under key `k` keeps numbers unique when no other
      invoice has its number. */
  lemma StoreKeepsNumbersUnique(invoices: map<nat, Invoice>, k: nat, v: Invoice)
    requires UniqueInvoiceNumbers(invoices)
    requires NumberFree(invoices, v.invoiceNumber, Some(k))
    ensures UniqueInvoiceNumbers(invoices[k := v])
  {
  }

  /** The checks `create` makes, in order, and the invoice it then stores. */
  function IssueSpec(
    users: map<nat, User>, orders: map<nat, Order>, payments: map<nat, Payment>,
    invoices: map<nat, Invoice>, dto: CreateInvoiceDto): (r: Result<Invoice, InvoiceError>)
    ensures r.Ok? <==>
      && dto.userId in users
      && dto.orderId in orders && orders[dto.orderId].userId == dto.userId
      && dto.paymentId in payments
      && orders[dto.orderId].status == OrderStatus.Paid
      && dto.totalAmount == orders[dto.orderId].total
      && NumberFree(invoices, dto.invoiceNumber, None)
    ensures r.Ok? ==>
      && r.value.status == InvoiceStatus.Issued && r.value.cancellationDate.None?
      && r.value.invoiceNumber == dto.invoiceNumber && r.value.totalAmount == dto.totalAmount
      && r.value.userId == dto.userId && r.value.orderId == dto.orderId && r.value.paymentId == dto.paymentId
    ensures r.Err? ==>
      (r.error.Exception() == NotFound <==>
        !(dto.userId in users && dto.orderId in orders && orders[dto.orderId].userId == dto.userId
          && dto.paymentId in payments))
  {
    if dto.userId !in users then Err(UserNotFound)
    else if dto.orderId !in orders || orders[dto.orderId].userId != dto.userId then Err(OrderNotFound)
    else if dto.paymentId !in payments then Err(PaymentNotFound)
    else if orders[dto.orderId].status != OrderStatus.Paid then Err(OrderNotPaid)
    else if dto.totalAmount != orders[dto.orderId].total then Err(AmountMismatch)
    else if !NumberFree(invoices, dto.invoiceNumber, None) then Err(DuplicateNumber(dto.invoiceNumber))
    else Ok(Invoice(dto.invoiceNumber, dto.totalAmount, dto.userId, dto.orderId, dto.paymentId,
                    InvoiceStatus.Issued, None))
  }

  /** `Object.assign(invoice, dto)`: the fields the update names replace the
      stored ones; status and cancellation date are not among them. */
  function ApplyUpdate(inv: Invoice, dto: UpdateInvoiceDto): (r: Invoice)
    ensures r.status == inv.status && r.cancellationDate == inv.cancellationDate
    ensures dto == UpdateInvoiceDto(None, None, None, None, None) ==> r == inv
    ensures dto.invoiceNumber.Some? ==> r.invoiceNumber == dto.invoiceNumber.value
    ensures dto.totalAmount.Some? ==> r.totalAmount == dto.totalAmount.value
    ensures dto.invoiceNumber.None? ==> r.invoiceNumber == inv.invoiceNumber
    ensures dto.totalAmount.None? ==> r.totalAmount == inv.totalAmount
    ensures dto.userId.Some? ==> r.userId == dto.userId.value
    ensures dto.userId.None? ==> r.userId == inv.userId
    ensures dto.orderId.Some? ==> r.orderId == dto.orderId.value
    ensures dto.orderId.None? ==> r.orderId == inv.orderId
    ensures dto.paymentId.Some? ==> r.paymentId == dto.paymentId.value
    ensures dto.paymentId.None? ==> r.paymentId == inv.paymentId
  {
    inv.(userId := dto.userId.GetOr(inv.userId),
         orderId := dto.orderId.GetOr(inv.orderId),
         paymentId := dto.paymentId.GetOr(inv.paymentId),
         totalAmount := dto.totalAmount.GetOr(inv.totalAmount),
         invoiceNumber := dto.invoiceNumber.GetOr(inv.invoiceNumber))
  }

  /** Whether the database accepts the updated row: its number is unique and
      every reference the update changes points at an existing row. */
  predicate UpdateAccepted(
    users: map<nat, User>, orders: map<nat, Order>, payments: map<nat, Payment>,
    invoices: map<nat, Invoice>, id: nat, dto: UpdateInvoiceDto, updated: Invoice)
  {
    && NumberFree(invoices, updated.invoiceNumber, Some(id))
    && (dto.userId.Some? ==> dto.userId.value in users)
    && (dto.orderId.Some? ==> dto.orderId.value in orders)
    && (dto.paymentId.Some? ==> dto.paymentId.value in payments)
  }

  /** `update(id, dto)`: only an ISSUED invoice is updated. */
  function UpdateSpec(
    users: map<nat, User>, orders: map<nat, Order>, payments: map<nat, Payment>,
    invoices: map<nat, Invoice>, id: nat, dto: UpdateInvoiceDto): (r: Result<Invoice, InvoiceError>)
    ensures id !in invoices ==> r == Err(InvoiceNotFound(id))
    ensures id in invoices && invoices[id].status.Cancelled? ==> r == Err(NotIssued)
    ensures r.Ok? ==>
      && id in invoices && invoices[id].status.Issued?
      && r.value == ApplyUpdate(invoices[id], dto)
      && NumberFree(invoices, r.value.invoiceNumber, Some(id))
    ensures id in invoices && invoices[id].status.Issued? ==>
      (r.Ok? <==> UpdateAccepted(users, orders, payments, invoices, id, dto, ApplyUpdate(invoices[id], dto)))
  {
    if id !in invoices then Err(InvoiceNotFound(id))
    else if !invoices[id].status.Issued? then Err(NotIssued)
    else
      var updated := ApplyUpdate(invoices[id], dto);
      if UpdateAccepted(users, orders, payments, invoices, id, dto, updated) then Ok(updated)
      else Err(ConstraintViolation)
  }

  /** `cancel(id)` at time `now`: an ISSUED invoice becomes CANCELLED with
      `now` as its cancellation date; nothing else about it changes. */
  function CancelSpec(invoices: map<nat, Invoice>, id: nat, now: int): (r: Result<Invoice, InvoiceError>)
    ensures r.Ok? <==> id in invoices && invoices[id].status.Issued?
    ensures id in invoices && invoices[id].status.Cancelled? ==> r == Err(AlreadyCancelled)
    ensures r.Ok? ==>
      && r.value.status == InvoiceStatus.Cancelled && r.value.cancellationDate == Some(now)
      && r.value.(status := InvoiceStatus.Issued, cancellationDate := invoices[id].cancellationDate) == invoices[id]
  {
    if id !in invoices then Err(InvoiceNotFound(id))
    else if invoices[id].status.Cancelled? then Err(AlreadyCancelled)
    else Ok(invoices[id].(status := InvoiceStatus.Cancelled, cancellationDate := Some(now)))
  }

  /** `remove(id)`: only a CANCELLED invoice is deleted; the result is the
      table without it. */
  function RemoveSpec(invoices: map<nat, Invoice>, id: nat): (r: Result<map<nat, Invoice>, InvoiceError>)
    ensures r.Ok? <==> id in invoices && invoices[id].status.Cancelled?
    ensures id in invoices && invoices[id].status.Issued? ==> r == Err(IssuedNotDeletable)
    ensures r.Ok? ==> id !in r.value && forall k :: k in invoices && k != id ==> k in r.value && r.value[k] == invoices[k]
    ensures r.Ok? ==> r.value.Keys == invoices.Keys - {id}
  {
    if id !in invoices then Err(InvoiceNotFound(id))
    else if invoices[id].status.Issued? then Err(IssuedNotDeletable)
    else Ok(invoices - {id})
  }

  /** The lifecycle: an ISSUED invoice cannot be deleted; once cancelled it
      can, and it can no longer be cancelled again or updated. */
  lemma CancelBeforeRemove(
    users: map<nat, User>, orders: map<nat, Order>, payments: map<nat, Payment>,
    invoices: map<nat, Invoice>, id: nat, now: int, later: int, dto: UpdateInvoiceDto)
    requires id in invoices && invoices[id].status.Issued?
    ensures RemoveSpec(invoices, id) == Err(IssuedNotDeletable)
    ensures CancelSpec(invoices, id, now).Ok?
    ensures
      var cancelled := invoices[id := CancelSpec(invoices, id, now).value];
      && RemoveSpec(cancelled, id).Ok?
      && CancelSpec(cancelled, id, later) == Err(AlreadyCancelled)
      && UpdateSpec(users, orders, payments, cancelled, id, dto) == Err(NotIssued)
  {
  }

  /** No operation turns a CANCELLED invoice back into an ISSUED one. */
  lemma CancelledIsFinal(
    users: map<nat, User>, orders: map<nat, Order>, payments: map<nat, Payment>,
    invoices: map<nat, Invoice>, id: nat, now: int, dto: UpdateInvoiceDto)
    requires id in invoices && invoices[id].status.Cancelled?
    ensures UpdateSpec(users, orders, payments, invoices, id, dto).Err?
    ensures CancelSpec(invoices, id, now).Err?
    ensures RemoveSpec(invoices, id).Ok? && id !in RemoveSpec(invoices, id).value
  {
  }

  /** The invoice service over the shared database. */
  class InvoiceService {
    const db: Database

    constructor (db: Database)
      ensures this.db == db
    {
      this.db := db;
    }

    /** `create(dto)`: runs the checks and stores the new ISSUED invoice. */
    method Create(dto: CreateInvoiceDto) returns (r: Result<nat, InvoiceError>)
      requires db.Valid()
      modifies db`invoices, db`nextInvoiceId
      ensures db.Valid()
      ensures IssueSpec(db.users, db.orders, db.payments, old(db.invoices), dto).Err? ==>
        && r == Err(IssueSpec(db.users, db.orders, db.payments, old(db.invoices), dto).error)
        && db.invoices == old(db.invoices) && db.nextInvoiceId == old(db.nextInvoiceId)
      ensures IssueSpec(db.users, db.orders, db.payments, old(db.invoices), dto).Ok? ==>
        && r == Ok(old(db.nextInvoiceId)) && r.value !in old(db.invoices)
        && db.invoices == old(db.invoices)[r.value := IssueSpec(db.users, db.orders, db.payments, old(db.invoices), dto).value]
        && db.nextInvoiceId == r.value + 1
    {
      if dto.userId !in db.users {
        return Err(UserNotFound);
      }
      if dto.orderId !in db.orders || db.orders[dto.orderId].userId != dto.userId {
        return Err(OrderNotFound);
      }
      if dto.paymentId !in db.payments {
        return Err(PaymentNotFound);
      }
      var order := db.orders[dto.orderId];
      if order.status != OrderStatus.Paid {
        return Err(OrderNotPaid);
      }
      if dto.totalAmount != order.total {
        return Err(AmountMismatch);
      }
      if !NumberFree(db.invoices, dto.invoiceNumber, None) {
        return Err(DuplicateNumber(dto.invoiceNumber));
      }
      var invoice := Invoice(dto.invoiceNumber, dto.totalAmount, dto.userId, dto.orderId, dto.paymentId,
                             InvoiceStatus.Issued, None);
      var id := db.nextInvoiceId;
      StoreKeepsNumbersUnique(db.invoices, id, invoice);
      db.invoices := db.invoices[id := invoice];
      db.nextInvoiceId := id + 1;
      r := Ok(id);
    }

    /** `update(id, dto)`: assigns the given fields of an ISSUED invoice and
        saves it, which the unique index and the foreign keys may refuse. */
    method Update(id: nat, dto: UpdateInvoiceDto) returns (r: Result<Invoice, InvoiceError>)
      requires db.Valid()
      modifies db`invoices
      ensures db.Valid()
      ensures r == UpdateSpec(db.users, db.orders, db.payments, old(db.invoices), id, dto)
      ensures db.invoices == if r.Ok? then old(db.invoices)[id := r.value] else old(db.invoices)
    {
      if id !in db.invoices {
        return Err(InvoiceNotFound(id));
      }
      var invoice := db.invoices[id];
      if invoice.status != InvoiceStatus.Issued {
        return Err(NotIssued);
      }
      var updated := ApplyUpdate(invoice, dto);
      if !UpdateAccepted(db.users, db.orders, db.payments, db.invoices, id, dto, updated) {
        return Err(ConstraintViolation);
      }
      StoreKeepsNumbersUnique(db.invoices, id, updated);
      db.invoices := db.invoices[id := updated];
      r := Ok(updated);
    }

    /** `cancel(id)`, with the clock reading `now` as a parameter. */
    method Cancel(id: nat, now: int) returns (r: Result<Invoice, InvoiceError>)
      requires db.Valid()
      modifies db`invoices
      ensures db.Valid()
      ensures r == CancelSpec(old(db.invoices), id, now)
      ensures db.invoices == if r.Ok? then old(db.invoices)[id := r.value] else old(db.invoices)
    {
      if id !in db.invoices {
        return Err(InvoiceNotFound(id));
      }
      var invoice := db.invoices[id];
      if invoice.status == InvoiceStatus.Cancelled {
        return Err(AlreadyCancelled);
      }
      invoice := invoice.(status := InvoiceStatus.Cancelled, cancellationDate := Some(now));
      StoreKeepsNumbersUnique(db.invoices, id, invoice);
      db.invoices := db.invoices[id := invoice];
      r := Ok(invoice);
    }

    /** `remove(id)`. */
    method Remove(id: nat) returns (r: Result<(), InvoiceError>)
      requires db.Valid()
      modifies db`invoices
      ensures db.Valid()
      ensures RemoveSpec(old(db.invoices), id).Ok? ==> r == Ok(()) && db.invoices == RemoveSpec(old(db.invoices), id).value
      ensures RemoveSpec(old(db.invoices), id).Err? ==>
        r == Err(RemoveSpec(old(db.invoices), id).error) && db.invoices == old(db.invoices)
    {
      if id !in db.invoices {
        return Err(InvoiceNotFound(id));
      }
      if db.invoices[id].status.Issued? {
        return Err(IssuedNotDeletable);
      }
      db.invoices := db.invoices - {id};
      r := Ok(());
    }
  }
}
