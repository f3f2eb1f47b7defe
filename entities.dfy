/** The records the services read and write, and the database that holds
    one table (a map from id to record) per entity. Money is in integer
    cents throughout. */
module Entities {
  import opened Common

  /** The order lifecycle. Its string keys are "PENDING", "PAID" and "CANCELLED". */
  datatype OrderStatus = Pending | Paid | Cancelled

  datatype PaymentStatus = Pending | Processing | Paid | Failed | Refunded | Cancelled

  datatype PaymentMethod = Stripe | Paypal | CreditCard | Cash | Transfer

  datatype InvoiceStatus = Issued | Cancelled

  /** The role names the services compare against. */
  const ADMIN: string := "admin"
  const CLIENT: string := "client"

  /** A stored password: either the text as given, or its argon2 hash.
      The hash is abstract; as a constructor it is injective. */
  datatype Secret = Plain(text: string) | Argon2Hash(of: string)

  datatype User = User(
    nombre: string,
    apellido: string,
    email: string,
    telefono: Option<string>,
    password: Secret,
    role: string)

  /** `cantidad` in the source is `stock` here; `price` is in cents. */
  datatype Product = Product(name: string, price: nat, stock: nat, available: bool)

  datatype CartItem = CartItem(productId: nat, quantity: nat)

  datatype Cart = Cart(ownerId: nat, checkedOut: bool, items: seq<CartItem>)

  datatype OrderDetail = OrderDetail(productId: nat, quantity: nat, unitPrice: nat, subtotal: nat)

  datatype Order = Order(
    userId: nat,
    cartId: nat,
    status: OrderStatus,
    total: nat,
    details: seq<OrderDetail>)

  datatype Payment = Payment(
    orderId: nat,
    userId: nat,
    amount: nat,
    paymentMethod: PaymentMethod,
    status: PaymentStatus,
    stripeSessionId: Option<string>,
    stripePaymentIntentId: Option<string>)

  datatype Invoice = Invoice(
    invoiceNumber: string,
    totalAmount: nat,
    userId: nat,
    orderId: nat,
    paymentId: nat,
    status: InvoiceStatus,
    cancellationDate: Option<int>)

  /** True when no two invoices share an invoice number (the unique index on
      `invoiceNumber`). */
  ghost predicate UniqueInvoiceNumbers(invoices: map<nat, Invoice>)
  {
    forall i, j :: i in invoices && j in invoices && i != j ==>
      invoices[i].invoiceNumber != invoices[j].invoiceNumber
  }

  /** True when no invoice in `invoices`, other than the one at `except`, has number `n`. */
  predicate NumberFree(invoices: map<nat, Invoice>, n: string, except: Option<nat>)
  {
    forall i :: i in invoices && Some(i) != except ==> invoices[i].invoiceNumber != n
  }

  /** The shared database: every repository the services inject, with the
      next value of each auto-increment primary key. */
  class Database {
    var roles: set<string>
    var users: map<nat, User>
    var carts: map<nat, Cart>
    var products: map<nat, Product>
    var orders: map<nat, Order>
    var payments: map<nat, Payment>
    var invoices: map<nat, Invoice>
    var nextUserId: nat
    var nextOrderId: nat
    var nextPaymentId: nat
    var nextInvoiceId: nat

    /** Generated ids are positive and below the next one to be handed out,
        and invoice numbers are unique. */
    ghost predicate Valid()
      reads this
    {
      && 0 < nextUserId && 0 < nextOrderId && 0 < nextPaymentId && 0 < nextInvoiceId
      && (forall id :: id in users ==> 0 < id < nextUserId)
      && (forall id :: id in orders ==> 0 < id < nextOrderId)
      && (forall id :: id in payments ==> 0 < id < nextPaymentId)
      && (forall id :: id in invoices ==> 0 < id < nextInvoiceId)
      && UniqueInvoiceNumbers(invoices)
    }

    /** A database with the given roles, catalogue and carts, and no users,
        orders, payments or invoices yet. */
    constructor (roles: set<string>, products: map<nat, Product>, carts: map<nat, Cart>)
      ensures Valid()
      ensures this.roles == roles && this.products == products && this.carts == carts
      ensures users == map[] && orders == map[] && payments == map[] && invoices == map[]
    {
      this.roles := roles;
      this.products := products;
      this.carts := carts;
      users := map[];
      orders := map[];
      payments := map[];
      invoices := map[];
      nextUserId, nextOrderId, nextPaymentId, nextInvoiceId := 1, 1, 1, 1;
    }
  }
}
