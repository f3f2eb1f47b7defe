/** Orders: creation from a checked-out cart, the ownership-filtered lookup,
    and the status machine whose move to PAID takes the ordered quantities
    out of stock. Each database transaction is one atomic step. */
module Orders {
  import opened Common
  import opened Entities

  datatype OrderError =
    | UserNotFound
    | CartNotFound
    | NotCartOwner
    | CartNotCheckedOut
    | EmptyCart
    | ProductNotFound(productId: nat)
    | ProductUnavailable(productId: nat)
    | InsufficientStock(productId: nat)
    | OrderNotFound(orderId: nat)
    | ClientMayOnlyCancel
    | NotPending
    | InvalidStatus(key: string)
    | NoItems
  {
    /** The exception class each error is thrown as. */
    function Exception(): HttpException
    {
      match this
      case UserNotFound | CartNotFound | ProductNotFound(_) | OrderNotFound(_) => NotFound
      case NotCartOwner | ClientMayOnlyCancel => Forbidden
      case _ => BadRequest
    }
  }

  // ---------------------------------------------------------------------
  // Status keys
  // ---------------------------------------------------------------------

  function StatusKey(s: OrderStatus): string
  {
    match s
    case Pending => "PENDING"
    case Paid => "PAID"
    case Cancelled => "CANCELLED"
  }

  /** `OrderStatus[key]`: the status whose key is `key`, if there is one. */
  function ParseStatus(key: string): (r: Option<OrderStatus>)
    ensures forall s :: r == Some(s) <==> StatusKey(s) == key
  {
    if key == "PENDING" then Some(OrderStatus.Pending)
    else if key == "PAID" then Some(OrderStatus.Paid)
    else if key == "CANCELLED" then Some(OrderStatus.Cancelled)
    else None
  }

  // ---------------------------------------------------------------------
  // Creating an order
  // ---------------------------------------------------------------------

  /** A cart line can be ordered when its product exists, is available and
      has at least the requested quantity in stock. */
  predicate Orderable(item: CartItem, products: map<nat, Product>)
  {
    && item.productId in products
    && products[item.productId].available
    && products[item.productId].stock >= item.quantity
  }

  /** The detail row a cart line becomes, priced at the product's current price. */
  function DetailFor(item: CartItem, p: Product): OrderDetail
  {
    OrderDetail(item.productId, item.quantity, p.price, p.price * item.quantity)
  }

  /** The loop of `create` over the cart lines: every line is checked in turn
      and priced; the first line that cannot be ordered decides the error. */
  function PriceItems(items: seq<CartItem>, products: map<nat, Product>): (r: Result<seq<OrderDetail>, OrderError>)
    ensures r.Ok? ==> |r.value| == |items|
    ensures r.Ok? ==> forall i :: 0 <= i < |items| ==>
      Orderable(items[i], products) && r.value[i] == DetailFor(items[i], products[items[i].productId])
    decreases |items|
  {
    if items == [] then Ok([])
    else
      match PriceItems(items[..|items| - 1], products)
      case Err(e) => Err(e)
      case Ok(ds) =>
        var item := items[|items| - 1];
        if item.productId !in products then Err(ProductNotFound(item.productId))
        else if !products[item.productId].available then Err(ProductUnavailable(item.productId))
        else if products[item.productId].stock < item.quantity then Err(InsufficientStock(item.productId))
        else Ok(ds + [DetailFor(item, products[item.productId])])
  }

  /** Pricing succeeds exactly when every cart line can be ordered. */
  lemma {:induction false} PriceItemsSucceeds(items: seq<CartItem>, products: map<nat, Product>)
    ensures PriceItems(items, products).Ok? <==> forall i :: 0 <= i < |items| ==> Orderable(items[i], products)
    decreases |items|
  {
    if items != [] {
      var front := items[..|items| - 1];
      PriceItemsSucceeds(front, products);
      if forall i :: 0 <= i < |items| ==> Orderable(items[i], products) {
        assert forall i :: 0 <= i < |front| ==> Orderable(front[i], products) by {
          forall i | 0 <= i < |front| ensures Orderable(front[i], products) {
            assert front[i] == items[i];
          }
        }
      }
    }
  }

  /** Once a prefix of the cart fails, the whole cart fails with that error. */
  lemma {:induction false} PriceItemsPrefixError(items: seq<CartItem>, products: map<nat, Product>, j: nat)
    requires j <= |items| && PriceItems(items[..j], products).Err?
    ensures PriceItems(items, products) == PriceItems(items[..j], products)
    decreases |items| - j
  {
    if j < |items| {
      var k := j + 1;
      assert items[..k][..j] == items[..j];
      PriceItemsPrefixError(items, products, k);
    } else {
      assert items[..j] == items;
    }
  }

  /** One step of the pricing loop: with the first `i` lines priced as `ds`,
      line `i` either decides the error of the whole cart or extends `ds`. */
  lemma PriceItemsNext(items: seq<CartItem>, products: map<nat, Product>, i: nat, ds: seq<OrderDetail>)
    requires i < |items| && PriceItems(items[..i], products) == Ok(ds)
    ensures var item := items[i];
      && (item.productId !in products ==> PriceItems(items, products) == Err(ProductNotFound(item.productId)))
      && (item.productId in products && !products[item.productId].available ==>
            PriceItems(items, products) == Err(ProductUnavailable(item.productId)))
      && (item.productId in products && products[item.productId].available
          && products[item.productId].stock < item.quantity ==>
            PriceItems(items, products) == Err(InsufficientStock(item.productId)))
      && (Orderable(item, products) ==>
            PriceItems(items[..i + 1], products) == Ok(ds + [DetailFor(item, products[item.productId])]))
  {
    assert items[..i + 1][..i] == items[..i];
    if !Orderable(items[i], products) {
      PriceItemsPrefixError(items, products, i + 1);
    }
  }

  /** The sum of the detail subtotals: the amount the loop accumulates. */
  function Total(details: seq<OrderDetail>): nat
    decreases |details|
  {
    if details == [] then 0 else Total(details[..|details| - 1]) + details[|details| - 1].subtotal
  }

  /** The reference amount of a cart: the sum of price × quantity over its lines. */
  function CartTotal(items: seq<CartItem>, products: map<nat, Product>): nat
    requires forall i :: 0 <= i < |items| ==> items[i].productId in products
    decreases |items|
  {
    if items == [] then 0
    else products[items[0].productId].price * items[0].quantity + CartTotal(items[1..], products)
  }

  lemma {:induction false} CartTotalSnoc(items: seq<CartItem>, products: map<nat, Product>)
    requires items != []
    requires forall i :: 0 <= i < |items| ==> items[i].productId in products
    ensures CartTotal(items, products) ==
      CartTotal(items[..|items| - 1], products)
      + products[items[|items| - 1].productId].price * items[|items| - 1].quantity
    decreases |items|
  {
    if |items| > 1 {
      var rest := items[1..];
      assert rest[..|rest| - 1] == items[..|items| - 1][1..];
      CartTotalSnoc(rest, products);
    }
  }

  /** The priced details add up to Σ price × quantity over the cart. */
  lemma {:induction false} TotalIsCartTotal(items: seq<CartItem>, products: map<nat, Product>)
    requires PriceItems(items, products).Ok?
    ensures forall i :: 0 <= i < |items| ==> items[i].productId in products
    ensures Total(PriceItems(items, products).value) == CartTotal(items, products)
    decreases |items|
  {
    if items != [] {
      var front := items[..|items| - 1];
      var ds := PriceItems(items, products).value;
      assert PriceItems(front, products).Ok?;
      assert ds[..|ds| - 1] == PriceItems(front, products).value;
      TotalIsCartTotal(front, products);
      CartTotalSnoc(items, products);
    }
  }

  /** The guard chain of `create` followed by the pricing loop: the details of
      the order to be created, or the first error met. */
  function PlanOrder(users: map<nat, User>, carts: map<nat, Cart>, products: map<nat, Product>,
                     userId: nat, cartId: nat): (r: Result<seq<OrderDetail>, OrderError>)
    ensures r.Ok? ==> userId in users && cartId in carts
    ensures r.Ok? ==> |r.value| == |carts[cartId].items| > 0
  {
    if userId !in users then Err(UserNotFound)
    else if cartId !in carts then Err(CartNotFound)
    else if carts[cartId].ownerId != userId then Err(NotCartOwner)
    else if !carts[cartId].checkedOut then Err(CartNotCheckedOut)
    else if |carts[cartId].items| == 0 then Err(EmptyCart)
    else PriceItems(carts[cartId].items, products)
  }

  /** The order `create` stores: PENDING, with the priced details and their total. */
  function NewOrder(userId: nat, cartId: nat, details: seq<OrderDetail>): Order
  {
    Order(userId, cartId, OrderStatus.Pending, Total(details), details)
  }

  /** `create` succeeds exactly when the user exists, the cart exists, is the
      user's, is checked out and not empty, and every line can be ordered. */
  lemma CreateSucceedsIff(users: map<nat, User>, carts: map<nat, Cart>, products: map<nat, Product>,
                          userId: nat, cartId: nat)
    ensures PlanOrder(users, carts, products, userId, cartId).Ok? <==>
      && userId in users
      && cartId in carts
      && carts[cartId].ownerId == userId
      && carts[cartId].checkedOut
      && |carts[cartId].items| > 0
      && forall i :: 0 <= i < |carts[cartId].items| ==> Orderable(carts[cartId].items[i], products)
  {
    if userId in users && cartId in carts {
      PriceItemsSucceeds(carts[cartId].items, products);
    }
  }

  /** A created order is PENDING and its total is Σ price × quantity over the cart. */
  lemma CreatedOrderTotal(users: map<nat, User>, carts: map<nat, Cart>, products: map<nat, Product>,
                          userId: nat, cartId: nat)
    requires PlanOrder(users, carts, products, userId, cartId).Ok?
    ensures forall i :: 0 <= i < |carts[cartId].items| ==> carts[cartId].items[i].productId in products
    ensures var o := NewOrder(userId, cartId, PlanOrder(users, carts, products, userId, cartId).value);
      o.status == OrderStatus.Pending && o.total == CartTotal(carts[cartId].items, products)
  {
    TotalIsCartTotal(carts[cartId].items, products);
  }

  // ---------------------------------------------------------------------
  // Taking stock when an order is paid
  // ---------------------------------------------------------------------

  /** The total quantity the details request of product `pid`. */
  function QuantityOf(details: seq<OrderDetail>, pid: nat): nat
    decreases |details|
  {
    if details == [] then 0
    else
      QuantityOf(details[..|details| - 1], pid)
      + (if details[|details| - 1].productId == pid then details[|details| - 1].quantity else 0)
  }

  /** The stock loop of `updateStatus`: each detail, in order, re-reads its
      product and takes its quantity out of stock; a missing product or a
      short stock aborts the whole transaction. */
  function TakeStock(products: map<nat, Product>, details: seq<OrderDetail>): (r: Result<map<nat, Product>, OrderError>)
    ensures r.Ok? ==> r.value.Keys == products.Keys
    decreases |details|
  {
    if details == [] then Ok(products)
    else
      match TakeStock(products, details[..|details| - 1])
      case Err(e) => Err(e)
      case Ok(p) =>
        var d := details[|details| - 1];
        if d.productId !in p then Err(ProductNotFound(d.productId))
        else if p[d.productId].stock < d.quantity then Err(InsufficientStock(d.productId))
        else Ok(p[d.productId := p[d.productId].(stock := p[d.productId].stock - d.quantity)])
  }

  /** Every product with enough stock for everything the details ask of it. */
  ghost predicate StockSuffices(products: map<nat, Product>, details: seq<OrderDetail>)
  {
    && (forall i :: 0 <= i < |details| ==> details[i].productId in products)
    && (forall pid :: pid in products ==> QuantityOf(details, pid) <= products[pid].stock)
  }

  /** After taking stock, each product has lost exactly the quantity the
      details ask of it, and nothing else about it has changed. */
  lemma {:induction false} TakeStockAmounts(products: map<nat, Product>, details: seq<OrderDetail>)
    requires TakeStock(products, details).Ok?
    ensures forall pid :: pid in products ==>
      var after := TakeStock(products, details).value[pid];
      && QuantityOf(details, pid) <= products[pid].stock
      && after == products[pid].(stock := products[pid].stock - QuantityOf(details, pid))
    decreases |details|
  {
    if details != [] {
      TakeStockAmounts(products, details[..|details| - 1]);
    }
  }

  /** The sequential check passes exactly when each product's stock covers
      the total quantity the details ask of it: checking detail by detail
      against the already-reduced stock is the same as checking the sums. */
  lemma {:induction false} TakeStockSucceeds(products: map<nat, Product>, details: seq<OrderDetail>)
    ensures TakeStock(products, details).Ok? <==> StockSuffices(products, details)
    decreases |details|
  {
    if details != [] {
      var front := details[..|details| - 1];
      var d := details[|details| - 1];
      TakeStockSucceeds(products, front);
      if TakeStock(products, details).Ok? {
        TakeStockAmounts(products, details);
        forall i | 0 <= i < |details| ensures details[i].productId in products {
          if i < |front| {
            assert front[i] == details[i];
          }
        }
      }
      if StockSuffices(products, details) {
        assert forall i :: 0 <= i < |front| ==> front[i].productId in products by {
          forall i | 0 <= i < |front| ensures front[i].productId in products {
            assert front[i] == details[i];
          }
        }
        assert StockSuffices(products, front);
        TakeStockAmounts(products, front);
      }
    }
  }

  /** Once a prefix of the details fails, the whole transaction fails with that error. */
  lemma {:induction false} TakeStockPrefixError(products: map<nat, Product>, details: seq<OrderDetail>, j: nat)
    requires j <= |details| && TakeStock(products, details[..j]).Err?
    ensures TakeStock(products, details) == TakeStock(products, details[..j])
    decreases |details| - j
  {
    if j < |details| {
      assert details[..j + 1][..j] == details[..j];
      TakeStockPrefixError(products, details, j + 1);
    } else {
      assert details[..j] == details;
    }
  }

  // ---------------------------------------------------------------------
  // The status machine
  // ---------------------------------------------------------------------

  /** What `updateStatus` does once the request has passed validation. */
  datatype StatusChange = ConfirmPayment | SetStatus(to: OrderStatus) | Unchanged

  /** The validation of `updateStatus` for an order in status `current`:
      a client (a truthy caller id) may only cancel a PENDING order; the key
      must name a status; PAID from another status takes stock and needs an
      order with details; any other change is a plain assignment; asking for
      the current status changes nothing. */
  function DecideStatus(current: OrderStatus, hasDetails: bool, key: string, caller: Option<nat>): (r: Result<StatusChange, OrderError>)
    ensures IsTruthyId(caller) && r.Ok? ==>
      key == "CANCELLED" && current == OrderStatus.Pending && r.value == SetStatus(OrderStatus.Cancelled)
    ensures IsTruthyId(caller) && key != "CANCELLED" ==> r == Err(ClientMayOnlyCancel)
    ensures r == Ok(ConfirmPayment) <==>
      !IsTruthyId(caller) && key == "PAID" && current != OrderStatus.Paid && hasDetails
    ensures r.Ok? && r.value.SetStatus? ==> r.value.to != current && r.value.to != OrderStatus.Paid
    ensures ParseStatus(key) == Some(current) ==> r.Err? || r.value == Unchanged
    ensures !IsTruthyId(caller) && ParseStatus(key) == Some(current) ==> r == Ok(Unchanged)
    ensures !IsTruthyId(caller) && ParseStatus(key).None? ==> r == Err(InvalidStatus(key))
    ensures !IsTruthyId(caller) && key == "PAID" && current != OrderStatus.Paid && !hasDetails ==> r == Err(NoItems)
    ensures r.Ok? && r.value.SetStatus? ==> ParseStatus(key) == Some(r.value.to)
    ensures IsTruthyId(caller) && key == "CANCELLED" && current == OrderStatus.Pending ==>
      r == Ok(SetStatus(OrderStatus.Cancelled))
    ensures !IsTruthyId(caller) && ParseStatus(key) == Some(OrderStatus.Pending) && current != OrderStatus.Pending ==>
      r == Ok(SetStatus(OrderStatus.Pending))
    ensures !IsTruthyId(caller) && ParseStatus(key) == Some(OrderStatus.Cancelled) && current != OrderStatus.Cancelled ==>
      r == Ok(SetStatus(OrderStatus.Cancelled))
  {
    if IsTruthyId(caller) && key != "CANCELLED" then Err(ClientMayOnlyCancel)
    else if IsTruthyId(caller) && current != OrderStatus.Pending then Err(NotPending)
    else
      match ParseStatus(key)
      case None => Err(InvalidStatus(key))
      case Some(s) =>
        if s == OrderStatus.Paid && current != OrderStatus.Paid then
          if hasDetails then Ok(ConfirmPayment) else Err(NoItems)
        else if current != s then Ok(SetStatus(s))
        else Ok(Unchanged)
  }

  /** The result of `updateStatus` together with the order and product tables after it. */
  datatype StatusUpdate = StatusUpdate(result: Result<Order, OrderError>, orders: map<nat, Order>, products: map<nat, Product>)

  /** `updateStatus(id, key, caller)` on the given tables. */
  function UpdateStatusSpec(orders: map<nat, Order>, products: map<nat, Product>,
                            id: nat, key: string, caller: Option<nat>): (u: StatusUpdate)
    ensures u.result.Err? ==> u.orders == orders && u.products == products
    ensures u.result.Ok? ==> id in orders && u.orders == orders[id := u.result.value]
    ensures u.result.Ok? ==> u.result.value == orders[id].(status := u.result.value.status)
    ensures u.products != products ==> u.result.Ok? && u.result.value.status == OrderStatus.Paid
    ensures u.result.Ok? ==> Some(u.result.value.status) == ParseStatus(key)
    ensures id !in orders ==> u.result == Err(OrderNotFound(id))
    ensures id in orders && !IsTruthyId(caller) && ParseStatus(key) == Some(orders[id].status) ==>
      u == StatusUpdate(Ok(orders[id]), orders, products)
    ensures id in orders && IsTruthyId(caller) ==>
      (u.result.Ok? <==> key == "CANCELLED" && orders[id].status == OrderStatus.Pending)
    ensures (&& id in orders && !IsTruthyId(caller) && ParseStatus(key).Some?
             && ParseStatus(key) != Some(OrderStatus.Paid) && ParseStatus(key) != Some(orders[id].status)) ==>
      var o' := orders[id].(status := ParseStatus(key).value);
      u == StatusUpdate(Ok(o'), orders[id := o'], products)
  {
    if id !in orders then StatusUpdate(Err(OrderNotFound(id)), orders, products)
    else
      var o := orders[id];
      match DecideStatus(o.status, |o.details| > 0, key, caller)
      case Err(e) => StatusUpdate(Err(e), orders, products)
      case Ok(Unchanged) => StatusUpdate(Ok(o), orders, products)
      case Ok(SetStatus(s)) =>
        var o' := o.(status := s);
        StatusUpdate(Ok(o'), orders[id := o'], products)
      case Ok(ConfirmPayment) =>
        match TakeStock(products, o.details)
        case Err(e) => StatusUpdate(Err(e), orders, products)
        case Ok(p) =>
          var o' := o.(status := OrderStatus.Paid);
          StatusUpdate(Ok(o'), orders[id := o'], p)
  }

  /** Paying an unpaid order takes each detail's quantity out of its
      product's stock, and succeeds exactly when the stock covers it. */
  lemma PaidTakesStock(orders: map<nat, Order>, products: map<nat, Product>, id: nat, caller: Option<nat>)
    requires !IsTruthyId(caller)
    requires id in orders && orders[id].status != OrderStatus.Paid && |orders[id].details| > 0
    ensures var u := UpdateStatusSpec(orders, products, id, "PAID", caller);
      && (u.result.Ok? <==> StockSuffices(products, orders[id].details))
      && (u.result.Ok? ==>
            && u.result.value.status == OrderStatus.Paid
            && u.products.Keys == products.Keys
            && forall pid :: pid in products ==>
                 u.products[pid] == products[pid].(stock := products[pid].stock - QuantityOf(orders[id].details, pid)))
  {
    var details := orders[id].details;
    TakeStockSucceeds(products, details);
    if TakeStock(products, details).Ok? {
      TakeStockAmounts(products, details);
    }
  }

  /** Asking again for the status a successful update produced changes
      nothing: in particular a second PAID does not take stock again. */
  lemma RepeatIsNoOp(orders: map<nat, Order>, products: map<nat, Product>, id: nat, key: string,
                     caller: Option<nat>, again: Option<nat>)
    requires UpdateStatusSpec(orders, products, id, key, caller).result.Ok?
    ensures var u := UpdateStatusSpec(orders, products, id, key, caller);
      var v := UpdateStatusSpec(u.orders, u.products, id, key, again);
      v.orders == u.orders && v.products == u.products
  {
  }

  /** The order service over the shared database. */
  class OrderService {
    const db: Database

    constructor (db: Database)
      ensures this.db == db
    {
      this.db := db;
    }

    /** `findOne(id, currentUserId)`: with a truthy caller id only that
        user's order is found. */
    function FindOne(id: nat, currentUserId: Option<nat>): (r: Result<Order, OrderError>)
      reads db
      ensures r.Ok? <==> id in db.orders && (IsTruthyId(currentUserId) ==> db.orders[id].userId == currentUserId.value)
      ensures r.Ok? ==> r.value == db.orders[id]
      ensures r.Err? ==> r.error == OrderNotFound(id) && r.error.Exception() == NotFound
    {
      if id in db.orders && (!IsTruthyId(currentUserId) || db.orders[id].userId == currentUserId.value)
      then Ok(db.orders[id])
      else Err(OrderNotFound(id))
    }

    /** `create(userId, {cartId})`: on success one new PENDING order holding
        the priced cart; on any error nothing is stored. Stock is left
        alone. */
    method Create(userId: nat, cartId: nat) returns (r: Result<nat, OrderError>)
      requires db.Valid()
      modifies db`orders, db`nextOrderId
      ensures db.Valid()
      ensures db.products == old(db.products)
      ensures r.Err? ==> PlanOrder(db.users, db.carts, db.products, userId, cartId) == Err(r.error)
      ensures r.Err? ==> db.orders == old(db.orders) && db.nextOrderId == old(db.nextOrderId)
      ensures r.Ok? ==> PlanOrder(db.users, db.carts, db.products, userId, cartId).Ok?
      ensures r.Ok? ==> r.value !in old(db.orders) && db.nextOrderId == r.value + 1
      ensures r.Ok? ==> db.orders == old(db.orders)[r.value :=
        NewOrder(userId, cartId, PlanOrder(db.users, db.carts, db.products, userId, cartId).value)]
    {
      if userId !in db.users {
        return Err(UserNotFound);
      }
      if cartId !in db.carts {
        return Err(CartNotFound);
      }
      var cart := db.carts[cartId];
      if cart.ownerId != userId {
        return Err(NotCartOwner);
      }
      if !cart.checkedOut {
        return Err(CartNotCheckedOut);
      }
      if |cart.items| == 0 {
        return Err(EmptyCart);
      }
      var priced, total := PriceCart(cart.items);
      if priced.Err? {
        return Err(priced.error);
      }
      var id := db.nextOrderId;
      db.orders := db.orders[id := Order(userId, cartId, OrderStatus.Pending, total, priced.value)];
      db.nextOrderId := id + 1;
      r := Ok(id);
    }

    /** The loop of `create` over the cart lines: looks each product up,
        checks it, prices the line and adds its subtotal to the running total. */
    method PriceCart(items: seq<CartItem>) returns (r: Result<seq<OrderDetail>, OrderError>, total: nat)
      ensures r == PriceItems(items, db.products)
      ensures r.Ok? ==> total == Total(r.value)
    {
      var products := db.products;
      var details: seq<OrderDetail> := [];
      total := 0;
      var i := 0;
      while i < |items|
        invariant 0 <= i <= |items|
        invariant PriceItems(items[..i], products) == Ok(details)
        invariant total == Total(details)
      {
        var item := items[i];
        PriceItemsNext(items, products, i, details);
        if item.productId !in products {
          return Err(ProductNotFound(item.productId)), total;
        }
        var product := products[item.productId];
        if !product.available {
          return Err(ProductUnavailable(item.productId)), total;
        }
        if product.stock < item.quantity {
          return Err(InsufficientStock(item.productId)), total;
        }
        var subtotal := product.price * item.quantity;
        var detail := OrderDetail(item.productId, item.quantity, product.price, subtotal);
        assert (details + [detail])[..|details|] == details;
        total := total + subtotal;
        details := details + [detail];
        i := i + 1;
      }
      assert items[..|items|] == items;
      r := Ok(details);
    }

    /** `updateStatus(id, key, currentUserId)`: validates the request, and on
        a move to PAID takes stock detail by detail inside one transaction
        that is rolled back on the first failure. */
    method UpdateStatus(id: nat, key: string, caller: Option<nat>) returns (r: Result<Order, OrderError>)
      requires db.Valid()
      modifies db`orders, db`products
      ensures db.Valid()
      ensures StatusUpdate(r, db.orders, db.products) ==
        UpdateStatusSpec(old(db.orders), old(db.products), id, key, caller)
    {
      if id !in db.orders {
        return Err(OrderNotFound(id));
      }
      var order := db.orders[id];
      if IsTruthyId(caller) {
        if key != "CANCELLED" {
          return Err(ClientMayOnlyCancel);
        }
        if order.status != OrderStatus.Pending {
          return Err(NotPending);
        }
      }
      var parsed := ParseStatus(key);
      if parsed.None? {
        return Err(InvalidStatus(key));
      }
      var target := parsed.value;
      if target == OrderStatus.Paid && order.status != OrderStatus.Paid {
        if |order.details| == 0 {
          return Err(NoItems);
        }
        var failure := TakeStockInPlace(order.details);
        if failure.Some? {
          return Err(failure.value);
        }
        order := order.(status := target);
        db.orders := db.orders[id := order];
        return Ok(order);
      }
      if order.status != target {
        order := order.(status := target);
        db.orders := db.orders[id := order];
      }
      r := Ok(order);
    }

    /** The stock transaction of `updateStatus`: each detail in turn re-reads
        its product and takes its quantity out of stock; the first missing
        product or short stock rolls every earlier decrement back. */
    method TakeStockInPlace(details: seq<OrderDetail>) returns (failure: Option<OrderError>)
      modifies db`products
      ensures TakeStock(old(db.products), details).Ok? ==>
        failure.None? && db.products == TakeStock(old(db.products), details).value
      ensures TakeStock(old(db.products), details).Err? ==>
        failure == Some(TakeStock(old(db.products), details).error) && db.products == old(db.products)
    {
      var snapshot := db.products;
      var i := 0;
      while i < |details|
        invariant 0 <= i <= |details|
        invariant TakeStock(snapshot, details[..i]) == Ok(db.products)
      {
        var d := details[i];
        assert details[..i + 1][..i] == details[..i];
        if d.productId !in db.products {
          TakeStockPrefixError(snapshot, details, i + 1);
          db.products := snapshot;
          return Some(ProductNotFound(d.productId));
        }
        var product := db.products[d.productId];
        if product.stock < d.quantity {
          TakeStockPrefixError(snapshot, details, i + 1);
          db.products := snapshot;
          return Some(InsufficientStock(d.productId));
        }
        db.products := db.products[d.productId := product.(stock := product.stock - d.quantity)];
        i := i + 1;
      }
      assert details[..|details|] == details;
      failure := None;
    }
  }
}
