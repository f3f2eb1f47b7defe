# Taller5 e-commerce services in Dafny

A model of the business logic of the Taller5 NestJS shop backend.
The model covers five services over one in-memory database, in which each repository becomes a map from id to record.

- **Orders**
  - `create` turns a checked-out cart into a PENDING order whose total is Σ price × quantity.
  - `updateStatus` is a small state machine over PENDING / PAID / CANCELLED.
    - A client may only cancel, and only from PENDING.
    - Paying takes every detail's quantity out of stock, all or nothing.
    - Asking for the current status changes nothing.
  - `findOne` applies the ownership filter.
- **Payments**
  - Stripe checkout records a PENDING payment, then either stores the session id or marks the payment CANCELLED.
  - Verifying a returned session maps Stripe's `(payment_status, status)` to a payment status and an order status, and writes only when the local status differs.
  - The webhook pays or cancels an order.
  - Manual payments are stored as PAID cash payments.
- **Invoices**
  - An invoice is issued only for a PAID order of the invoiced user, for exactly the order total, under a number no other invoice has.
  - An invoice is then ISSUED → CANCELLED, and only a cancelled invoice can be deleted.
- **Users**
  - The role defaults to `client`.
  - Only an admin (or an internal call without a current user) can change a role.
  - Passwords are stored hashed.
  - Admins cannot be deleted; deleting anyone else removes their payments by cascade, and fails while an invoice refers to the user or to one of those payments.
- **Chat gateway**
  - One dialogue context per socket, driven by a menu.
  - A comparison list that holds at most two products.
  - An outbox of the messages sent.

Conventions:

- Money is in integer cents.
- Each database transaction is one atomic step.
- Stripe, argon2, JWT verification, the clock and the chat service are inputs of the operations that use them.
- Stripe is modelled as the session it creates, the session it returns and the event it verifies.
- Record ids reach Stripe metadata through `toString()` and come back through `parseInt`. `Decimal` models that round trip.

Files:

- `common.dfy`: `Option`, `Result`, HTTP exception classes, JavaScript truthiness.
- `decimal.dfy`: decimal spelling and `parseInt` of ids.
- `entities.dfy`: records, status enums, and the `Database` class with its invariant. The invariant says generated ids lie below the next id and invoice numbers are unique.
- `order_service.dfy`, `payment_service.dfy`, `invoice_service.dfy`, `user_service.dfy`, `chat_gateway.dfy`: one module per service.
  - Each service is a class whose methods update the database in place.
  - Each method is proved against pure specification functions.
  - The properties of those functions are proved as lemmas.

Where an entity or DTO file is not part of this model, these assumptions are made:

- The `OrderStatus` keys equal their values (`PENDING`, `PAID`, `CANCELLED`).
- `UserRole` holds `admin` and `client`.
- `UpdateInvoiceDto` has the optional fields of `CreateInvoiceDto`.

## Model

| member | source | states |
|---|---|---|
| Decimal.ToDecimal | src/payment/payment.service.ts:97-98 | an id's `toString()` is a non-empty string of digits without a leading zero |
| Decimal.ParseInt | src/payment/payment.service.ts:136 | without a radix, `parseInt` reads a `0x`/`0X` string as hexadecimal and any other as decimal; NaN (`None`) exactly when no digit follows the prefix, or the string does not start with a digit |
| Decimal.ParseIntExamples | src/payment/payment.service.ts:264 | `0x1A` reads as 26, `0x` is NaN, and `12ab` reads as 12 |
| Decimal.ParseIntIgnoresRest | src/payment/payment.service.ts:136 | text after an id's digits that does not start with a digit is ignored by `parseInt`, unless it turns a leading `0` into a `0x` prefix |
| Decimal.DecimalRoundTrip | src/payment/payment.service.ts:96-99 | reading back an id written with `toString()` gives the same id |
| Decimal.DecimalInjective | src/payment/payment.service.ts:96-99 | two ids share a decimal spelling only when they are equal |
| Orders.ParseStatus | src/order/order.service.ts:279-287 | a key is accepted exactly when it is the key of a status, and yields that status |
| Orders.PriceItems | src/order/order.service.ts:156-204 | one detail per cart line; every line passed the existence, availability and stock checks; the detail carries the product's price and price × quantity |
| Orders.PriceItemsSucceeds | src/order/order.service.ts:165-184 | pricing succeeds exactly when every line's product exists, is available and has enough stock |
| Orders.PriceItemsNext | src/order/order.service.ts:156-204 | with the first lines priced, the next line either decides the whole cart's error (missing, unavailable, short stock, in that order) or adds its priced detail |
| Orders.PriceItemsPrefixError | src/order/order.service.ts:156-184 | the first line that fails decides the error; later lines are never looked at |
| Orders.TotalIsCartTotal | src/order/order.service.ts:186-188 | the accumulated total equals Σ price × quantity over the cart lines |
| Orders.PlanOrder | src/order/order.service.ts:107-140 | a successful plan has an existing user and cart and one detail per (non-empty) cart line |
| Orders.CreateSucceedsIff | src/order/order.service.ts:111-140 | `create` succeeds iff user and cart exist, the cart is the user's, checked out and non-empty, and every line is orderable |
| Orders.CreatedOrderTotal | src/order/order.service.ts:143-148 | a created order is PENDING and its total is Σ price × quantity over the cart |
| Orders.TakeStock | src/order/order.service.ts:304-326 | paying keeps the set of products; fails on a missing product or short stock |
| Orders.TakeStockAmounts | src/order/order.service.ts:319-325 | after paying, each product's stock is reduced by the total quantity the details ask of it, the rest unchanged |
| Orders.TakeStockSucceeds | src/order/order.service.ts:314-322 | taking stock succeeds exactly when every detail's product exists and the stock covers the quantities |
| Orders.TakeStockPrefixError | src/order/order.service.ts:304-338 | the first failing detail decides the error, and the rollback discards the earlier decrements |
| Orders.DecideStatus | src/order/order.service.ts:265-296 | a client can only cancel a PENDING order, and a client's CANCELLED on a PENDING order is accepted; an unknown key is a bad request; PAID from another status is a confirmation, refused for an order without details; PENDING or CANCELLED from another status sets exactly that status; every change targets the status the key names; an admin's or internal request for the current status succeeds and changes nothing |
| Orders.UpdateStatusSpec | src/order/order.service.ts:246-352 | a missing order is not found; a client's request succeeds exactly when it is CANCELLED on a PENDING order; an admin's or internal PENDING or CANCELLED on an order in another status succeeds and writes exactly that status; an error changes nothing; success leaves the order in the status the key names and rewrites only that order's status; products change only when the order becomes PAID; an admin's or internal request for the current status returns the order and leaves both tables as they were |
| Orders.PaidTakesStock | src/order/order.service.ts:292-341 | paying an unpaid order succeeds exactly when stock suffices, and then takes exactly the detail quantities out of stock |
| Orders.RepeatIsNoOp | src/order/order.service.ts:345-351 | repeating a successful status change changes nothing; a second PAID takes no stock |
| Orders.OrderService.FindOne | src/order/order.service.ts:53-75 | found iff the order exists and, with a truthy current user id, belongs to that user; otherwise not found |
| Orders.OrderService.Create | src/order/order.service.ts:101-235 | on error nothing is stored; on success exactly one new PENDING order with the priced details under a fresh id; stock is never changed |
| Orders.OrderService.PriceCart | src/order/order.service.ts:153-204 | the loop yields the priced details or the first error, and the running total equals the details' total |
| Orders.OrderService.UpdateStatus | src/order/order.service.ts:246-352 | the order and product tables after the call are those of `UpdateStatusSpec` |
| Orders.OrderService.TakeStockInPlace | src/order/order.service.ts:298-341 | the decrement loop ends with the stock of `TakeStock`, or with the table as before on any failure |
| Payments.CheckoutGuard | src/payment/payment.service.ts:40-61 | checkout proceeds exactly for an existing order whose user has an email, whose total is positive, and which belongs to the requester |
| Payments.PendingStripePayment | src/payment/payment.service.ts:67-74 | the first payment record is PENDING, by STRIPE, for the order total |
| Payments.SessionOutcome | src/payment/payment.service.ts:146-167 | paid+complete → (PAID, PAID), unpaid+open → (PENDING, PENDING), anything else → (FAILED, CANCELLED) |
| Payments.ResolvePayment | src/payment/payment.service.ts:129-144 | missing or empty `paymentId` metadata is a bad request; otherwise the payment is found exactly when `parseInt` of the metadata names a stored payment, and then it is that payment |
| Payments.CheckoutMetadataResolves | src/payment/payment.service.ts:96-99 | the payment id a checkout writes into the session is resolved by verification to the same payment |
| Payments.Reconciled | src/payment/payment.service.ts:169-177 | an unresolved id writes nothing; a payment already in the mapped status is kept as it is; otherwise only its status and payment intent are rewritten, its other fields kept; no other payment changes |
| Payments.VerifyTwiceWritesOnce | src/payment/payment.service.ts:170-180 | verifying the same session again writes nothing and leaves the order alone |
| Payments.WebhookAction | src/payment/payment.service.ts:240-273 | a succeeded intent with an `orderId` pays the order, a failed one cancels it, anything else does nothing |
| Payments.PaymentService.CreateStripeCheckout | src/payment/payment.service.ts:36-121 | guard failures store nothing; otherwise exactly one PENDING payment that then gets the session id, or becomes CANCELLED with a gateway error |
| Payments.PaymentService.VerifyStripePayment | src/payment/payment.service.ts:122-188 | payments end as `Reconciled`; only when the status changed is the order moved to the mapped status via `updateStatus` |
| Payments.PaymentService.HandleStripeWebhook | src/payment/payment.service.ts:217-274 | a missing body or bad signature is rejected; otherwise the order changes exactly as `updateStatus` with the event's status |
| Payments.PaymentService.CreateManualPayment | src/payment/payment.service.ts:190-196 | stores the request as a PAID cash payment when the table accepts it; otherwise nothing is stored |
| Invoices.StoreKeepsNumbersUnique | src/invoice/entities/invoice.entity.ts:26-29 | storing an invoice whose number no other invoice has keeps invoice numbers unique |
| Invoices.IssueSpec | src/invoice/invoice.service.ts:49-96 | issued iff user exists, order exists and is the user's, payment exists, order is PAID, amount equals the order total and the number is free; the new invoice is ISSUED without a cancellation date |
| Invoices.ApplyUpdate | src/invoice/invoice.service.ts:109 | each of number, amount, user, order and payment takes the update's value when given and keeps the stored one otherwise; status and cancellation date are kept |
| Invoices.UpdateSpec | src/invoice/invoice.service.ts:101-111 | only an ISSUED invoice is updated, and the save succeeds only with a free number and existing references |
| Invoices.CancelSpec | src/invoice/invoice.service.ts:116-126 | only an ISSUED invoice is cancelled; it becomes CANCELLED with the given date and nothing else changes |
| Invoices.RemoveSpec | src/invoice/invoice.service.ts:131-141 | only a CANCELLED invoice is deleted, and only that one |
| Invoices.CancelBeforeRemove | src/invoice/invoice.service.ts:116-141 | an ISSUED invoice cannot be deleted; once cancelled it can, and can be neither cancelled again nor updated |
| Invoices.CancelledIsFinal | src/invoice/invoice.service.ts:101-141 | no operation turns a CANCELLED invoice back into an ISSUED one |
| Invoices.InvoiceService.Create | src/invoice/invoice.service.ts:49-96 | stores the `IssueSpec` invoice under a fresh id or nothing; invoice numbers stay unique |
| Invoices.InvoiceService.Update | src/invoice/invoice.service.ts:101-111 | result and table follow `UpdateSpec`; invoice numbers stay unique |
| Invoices.InvoiceService.Cancel | src/invoice/invoice.service.ts:116-126 | result and table follow `CancelSpec` |
| Invoices.InvoiceService.Remove | src/invoice/invoice.service.ts:131-141 | the table follows `RemoveSpec` |
| Users.StoredSecret | src/user/user.service.ts:90-92 | a non-empty password is stored as its hash; only the empty password is stored as given |
| Users.RequestedRole | src/user/user.service.ts:73 | a new user gets `dto.role` when truthy, `client` otherwise |
| Users.CreateSpec | src/user/user.service.ts:72-95 | creation succeeds iff the role exists; the user carries that role and the stored password |
| Users.PermittedRole | src/user/user.service.ts:44-50 | a non-admin caller's requested role is dropped; an admin's or an internal call's is kept |
| Users.AssignFields | src/user/user.service.ts:52-54 | each of nombre, apellido, email, telefono and password takes the request's value when given (the password as stored) and keeps the stored one otherwise; the role is untouched |
| Users.UpdateSpec | src/user/user.service.ts:38-67 | not found for a missing user; a permitted truthy role must exist and replaces the role; otherwise the role is unchanged |
| Users.NonAdminKeepsRole | src/user/user.service.ts:44-50 | a non-admin caller never changes a role and never fails over one |
| Users.PasswordsStoredHashed | src/user/user.service.ts:52-54 | a non-empty password given to create or update is stored only as its hash |
| Users.UserService.FindOne | src/user/user.service.ts:28-33 | found iff the id exists, otherwise not found |
| Users.UserService.Create | src/user/user.service.ts:72-95 | stores the `CreateSpec` user under a fresh id, or nothing when the role is unknown |
| Users.UserService.Update | src/user/user.service.ts:38-67 | result and table follow `UpdateSpec` |
| Users.DeleteSpec | src/payment/entities/payment.entity.ts:42-44 | a missing user is not found, an admin is refused, an invoice referring to the user or to one of the user's payments blocks the delete; otherwise exactly the user's payments go with the user, and every invoice still refers to existing rows |
| Users.UserService.Delete | src/user/user.service.ts:100-111 | the user and payment tables change exactly as `DeleteSpec` says |
| Chat.ComparisonList | src/chat/chat.gateway.ts:247-249 | an absent comparison list reads as empty |
| Chat.WelcomeTurn | src/chat/chat.gateway.ts:156-212 | options 0–3 open availability, comparison (with an empty list), warranty and pay methods, each sending its prompt (the payment methods' answer for option 3); any other option stays at the menu and sends the menu text |
| Chat.AvailabilityTurn | src/chat/chat.gateway.ts:214-244 | an answered query returns to the menu; a failing service changes nothing |
| Chat.ComparisonTurn | src/chat/chat.gateway.ts:246-275 | the first product is stored and the step stays; the second triggers the comparison and, when answered, the reset to the menu with an empty list; the list never exceeds two |
| Chat.WarrantyTurn | src/chat/chat.gateway.ts:277-289 | an answered query returns to the menu; a failing service changes nothing |
| Chat.PayMethodsTurn | src/chat/chat.gateway.ts:291-329 | never throws; returns to the menu on success and keeps the step on failure, with an apology |
| Chat.GeneralTurn | src/chat/chat.gateway.ts:136-154 | an unknown step returns to the menu and sends the general recommendation |
| Chat.CustomerId | src/chat/chat.gateway.ts:101 | the customer id is the token's subject when truthy, `guest` otherwise |
| Chat.Dispatch | src/chat/chat.gateway.ts:104-126 | each known step selects its handler; any other step goes to the general handler |
| Chat.Respond | src/chat/chat.gateway.ts:103-133 | a handler exception adds the generic apology; every reply leaves a known step and keeps the comparison-list invariant |
| Chat.CompareTwoProducts | src/chat/chat.gateway.ts:168-175 | option 1 then two products compares exactly those two, in order, and returns to the menu with an empty list |
| Chat.FailedComparisonRetries | src/chat/chat.gateway.ts:251-263 | a failing comparison keeps the two products and the step, so the next message retries it |
| Chat.ChatGateway.Subject | src/chat/chat.gateway.ts:43 | the subject recorded for the socket, or none |
| Chat.ChatGateway.HandleConnection | src/chat/chat.gateway.ts:37-80 | every connection, with or without a valid token, gets a context at `welcome`; an accepted token's subject is recorded for the socket; a rejected token only changes the greeting |
| Chat.ChatGateway.HandleDisconnect | src/chat/chat.gateway.ts:82-85 | the client's context and recorded subject are removed and no other |
| Chat.ChatGateway.HandleCustomerMessage | src/chat/chat.gateway.ts:87-134 | a client without a context gets an error and still has none; otherwise its context and the outbox follow `Respond` with the subject recorded at connection; the invariant is kept |
| Chat.ChatGateway.HandleWelcomeResponse | src/chat/chat.gateway.ts:156-212 | updates the context and outbox as `WelcomeTurn` |
| Chat.ChatGateway.HandleProductAvailability | src/chat/chat.gateway.ts:214-244 | updates the context and outbox as `AvailabilityTurn` |
| Chat.ChatGateway.HandleProductComparison | src/chat/chat.gateway.ts:246-275 | updates the context and outbox as `ComparisonTurn` |
| Chat.ChatGateway.HandleWarrantyInfo | src/chat/chat.gateway.ts:277-289 | updates the context and outbox as `WarrantyTurn` |
| Chat.ChatGateway.HandlePayMethods | src/chat/chat.gateway.ts:291-329 | updates the context and outbox as `PayMethodsTurn` |
| Chat.ChatGateway.HandleGeneralInquiry | src/chat/chat.gateway.ts:136-154 | updates the context and outbox as `GeneralTurn` |

## Left out

**Outside the model**

- Controllers, DTO validation decorators, Swagger examples, module wiring and bootstrapping. DTOs appear only as datatypes, and values the validators would reject are still accepted.
- `findAll`, `getUserOrderHistory`, `findOrdersByUser`, `update` and `remove` of the order service. They are plain repository calls outside the named core.
- `findAll`, `findOne`, `update` and `remove` of the payment service, and `findAll` and `findOne` of the invoice and user services. These too are plain repository calls; invoice lookup appears inside update, cancel and remove.
- Concurrency, transactions and row locks. Each service call is one atomic step, and a rolled-back transaction leaves the tables as they were.
- The Stripe SDK, argon2 and JWT verification.
  - Stripe becomes the function-typed parameters `createSession` and `constructEvent`, and a `StripeSession` input.
  - The password hash is the injective constructor `Argon2Hash`.
  - Token verification becomes `AuthOutcome`.
  - Whether Stripe copies session metadata onto payment intents is outside the model.
- The chat service (src/chat/chat.service.ts is not part of this model). Its answers are the `Backend` oracle, and only their message text is kept. The menu option lists, the extra fields of bot messages and all logging are not modelled.
- The clock. The cancellation date is the parameter `now`.

**Simplified values**

- Floating-point money: `Math.round(total * 100)` and the `toFixed(2)` comparison become exact equality of integer cents.
- Payments.PaymentService.VerifyStripePayment: the human-readable `message` of the result is not modelled; the status and Stripe status are.
- Decimal.ParseInt: the `0x`/`0X` prefix is modelled, but JavaScript's skipping of leading whitespace and its sign handling are not, and NaN becomes `None`, which the services treat as "not found".
- Orders.ParseStatus: inherited property names of the enum object (such as `constructor`) count as invalid keys.
- The `sub` of a JWT payload is modelled as a string.
- A null relation (a detail whose product was deleted) counts as a missing product.
- Orders.OrderService.Create: the provisional order row saved before pricing is folded into one atomic step, and the id counter does not advance on failure.
- Payments.PaymentService.CreateManualPayment: the database's refusal of a row is reduced to NOT NULL and foreign-key checks on order, user and amount.
- Invoices.InvoiceService.Update: only the unique index on `invoiceNumber` and foreign keys on changed references are checked.
- Invoices.InvoiceService.Update: a changed `userId`, `orderId` or `paymentId` is modelled as written to the row. The invoice is loaded with its `user`, `order` and `payment` relations (src/invoice/invoice.service.ts:38-41), and the ORM may take the stored reference from those loaded objects instead, so the changed references may not be persisted and a missing id may raise no error. The ORM's save is not part of this model.
- Users.UserService.Create: a uniqueness constraint on email, if the user table has one, is not modelled (src/user/entities/user.entity.ts is not part of this model).
- Users.UserService.Update: a falsy role in the request is treated as absent.
- Users.UserService.Delete: orders and carts that refer to the user are not considered, because the order and cart entities are not part of this model; only the payment cascade and the invoice references are.
- Chat.ChatGateway.HandleDisconnect: the socket's `client.data` ends with the socket, which the model states by forgetting the recorded subject.
