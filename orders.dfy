/**
  The order ledger and the order router: order creation with computed
  totals and snapshotted item prices, the PROCESSING -> DONE transition,
  the status filter, and the guard clauses of the two payment calls.
*/
module Orders {
  import opened Wrappers
  import opened Catalog
  import opened OrderTotals

  type OrderId = string
  /** The value of `new Date()` when a payment is confirmed, supplied by the caller. */
  type Timestamp = int

  datatype OrderStatus = AwaitingPayment | Processing | Done

  /** A row of the order table; `tax` and `grandTotal` are exact, not floating point. */
  datatype Order = Order(
    subtotal: int,
    tax: real,
    grandTotal: real,
    status: OrderStatus,
    paidAt: Option<Timestamp>,
    externalTransactionId: Option<string>,
    paymentMethodId: Option<string>)

  /** A row of the order-item table; `price` is a copy of the product's price at order time. */
  datatype OrderItem = OrderItem(orderId: OrderId, productId: ProductId, quantity: int, price: int)

  /** What the payment gateway returns for a QRIS payment request. */
  datatype PaymentRequest = PaymentRequest(id: string, paymentMethodId: string, qrString: string)

  /** What createOrder returns: the order as first written, the number of items written, the QR payload. */
  datatype CreatedOrder = CreatedOrder(id: OrderId, order: Order, itemCount: nat, qrString: string)

  datatype OrderError =
    | InvalidQuantity      // a line with quantity below 1, rejected by the input schema
    | OrderNotFound
    | NotPaidYet           // finishOrder on an order without paidAt
    | NotProcessingYet     // finishOrder on an order whose status is not PROCESSING
    | MissingTransaction   // checkOrderStatus on a missing or unpaid order
    | GatewayFailed        // the payment gateway did not create a payment request

  datatype Outcome = Pass | Fail(error: OrderError)

  /** The status argument of getOrders; `All` is its default. */
  datatype StatusFilter = All | Only(status: OrderStatus)

  /** One entry of getOrders' result: the selected columns and the number of items of the order. */
  datatype OrderSummary = OrderSummary(grandTotal: real, status: OrderStatus, paidAt: Option<Timestamp>, itemCount: nat)

  /** The request simulatePayment sends to the gateway. */
  datatype SimulationRequest = SimulationRequest(paymentMethodId: Option<string>, amount: real)

  /**
    What every stored order satisfies: tax is one tenth of the subtotal, the grand
    total is their sum, and an order carries a payment time exactly when it has
    left AWAITING_PAYMENT.
  */
  predicate WellFormed(o: Order)
  {
    && 10.0 * o.tax == o.subtotal as real
    && o.grandTotal == o.subtotal as real + o.tax
    && (o.paidAt.Some? <==> o.status != AwaitingPayment)
  }

  /** Both conditions finishOrder checks before it writes. */
  predicate CanFinish(o: Order)
  {
    o.paidAt.Some? && o.status == Processing
  }

  /** The order row createOrder writes first (status takes the schema default AWAITING_PAYMENT). */
  function NewOrder(subtotal: int): (r: Order)
    ensures WellFormed(r)
    ensures r.subtotal == subtotal && 10.0 * r.tax == subtotal as real && r.grandTotal == subtotal as real + r.tax
    ensures r.status == AwaitingPayment && r.paidAt.None?
    ensures r.externalTransactionId.None? && r.paymentMethodId.None?
  {
    var tax := Tax(subtotal);
    Order(subtotal, tax, subtotal as real + tax, AwaitingPayment, None, None, None)
  }

  /** The update a confirmed payment makes: paidAt and status, whatever the status was before. */
  function Paid(o: Order, now: Timestamp): (r: Order)
    ensures r.status == Processing && r.paidAt == Some(now)
    ensures r.subtotal == o.subtotal && r.tax == o.tax && r.grandTotal == o.grandTotal
    ensures r.externalTransactionId == o.externalTransactionId && r.paymentMethodId == o.paymentMethodId
    ensures CanFinish(r)
    ensures WellFormed(o) ==> WellFormed(r)
  {
    o.(paidAt := Some(now), status := Processing)
  }

  /** The update finishOrder makes: status DONE; a finished order cannot be finished again. */
  function Finished(o: Order): (r: Order)
    ensures r.status == Done && r.paidAt == o.paidAt
    ensures r.subtotal == o.subtotal && r.tax == o.tax && r.grandTotal == o.grandTotal
    ensures r.externalTransactionId == o.externalTransactionId && r.paymentMethodId == o.paymentMethodId
    ensures !CanFinish(r)
    ensures WellFormed(o) && CanFinish(o) ==> WellFormed(r)
  {
    o.(status := Done)
  }

  /** The item row of one matched product: the new order's id, the requested quantity, the current price. */
  function ItemFor(orderId: OrderId, catalog: map<ProductId, Product>, lines: seq<OrderLine>, pid: ProductId): (r: OrderItem)
    requires pid in Matched(catalog, lines)
    ensures r.orderId == orderId && r.productId == pid && r.price == catalog[pid].price
    ensures Some(r.quantity) == FirstQuantity(lines, pid)
  {
    OrderItem(orderId, pid, FirstQuantity(lines, pid).value, catalog[pid].price)
  }

  /** The item rows for a set of matched products. */
  function ItemsFor(orderId: OrderId, catalog: map<ProductId, Product>, lines: seq<OrderLine>, s: set<ProductId>): set<OrderItem>
    requires s <= Matched(catalog, lines)
  {
    set pid | pid in s :: ItemFor(orderId, catalog, lines, pid)
  }

  /** The item rows createOrder writes: one per matched product, at the product's current price. */
  function NewItems(orderId: OrderId, catalog: map<ProductId, Product>, lines: seq<OrderLine>): (r: set<OrderItem>)
    ensures forall it :: it in r ==> it.orderId == orderId && it.productId in Matched(catalog, lines)
    ensures forall it :: it in r ==>
              it.productId in catalog && it.price == catalog[it.productId].price
              && Some(it.quantity) == FirstQuantity(lines, it.productId)
    ensures forall pid :: pid in Matched(catalog, lines) ==> ItemFor(orderId, catalog, lines, pid) in r
  {
    ItemsFor(orderId, catalog, lines, Matched(catalog, lines))
  }

  /** The item rows of one order. */
  function ItemsOf(items: set<OrderItem>, orderId: OrderId): set<OrderItem>
  {
    set it | it in items && it.orderId == orderId
  }

  /** One item row per matched product: the rows differ in their product id. */
  lemma {:induction false} ItemsForCount(orderId: OrderId, catalog: map<ProductId, Product>, lines: seq<OrderLine>, s: set<ProductId>)
    requires s <= Matched(catalog, lines)
    ensures |ItemsFor(orderId, catalog, lines, s)| == |s|
    decreases s
  {
    if s != {} {
      var x :| x in s;
      ItemsForCount(orderId, catalog, lines, s - {x});
      ItemsForSplit(orderId, catalog, lines, s, x);
      assert |s - {x}| == |s| - 1;
    } else {
      assert ItemsFor(orderId, catalog, lines, s) == {};
    }
  }

  /** Taking one product out of the set takes exactly its row out of the rows. */
  lemma ItemsForSplit(orderId: OrderId, catalog: map<ProductId, Product>, lines: seq<OrderLine>, s: set<ProductId>, x: ProductId)
    requires s <= Matched(catalog, lines) && x in s
    ensures ItemsFor(orderId, catalog, lines, s)
            == ItemsFor(orderId, catalog, lines, s - {x}) + {ItemFor(orderId, catalog, lines, x)}
    ensures ItemFor(orderId, catalog, lines, x) !in ItemsFor(orderId, catalog, lines, s - {x})
  {
    var rest := ItemsFor(orderId, catalog, lines, s - {x});
    var item := ItemFor(orderId, catalog, lines, x);
    forall it | it in ItemsFor(orderId, catalog, lines, s)
      ensures it in rest || it == item
    {
      var p :| p in s && it == ItemFor(orderId, catalog, lines, p);
      if p != x { assert p in s - {x}; }
    }
    forall it | it in rest ensures it.productId != x {
      var p :| p in s - {x} && it == ItemFor(orderId, catalog, lines, p);
    }
  }

  /** A second write to the same key replaces the first. */
  lemma UpdateOverrides(m: map<OrderId, Order>, id: OrderId, first: Order, second: Order)
    ensures m[id := first][id := second] == m[id := second]
  {
  }

  /** Rows added under an order id no earlier row uses are exactly that order's rows. */
  lemma ItemsOfFreshOrder(items: set<OrderItem>, added: set<OrderItem>, orderId: OrderId)
    requires forall it :: it in items ==> it.orderId != orderId
    requires forall it :: it in added ==> it.orderId == orderId
    ensures ItemsOf(items + added, orderId) == added
  {
  }

  /** Item rows written from a valid request carry a quantity of at least one. */
  lemma NewItemsQuantities(orderId: OrderId, catalog: map<ProductId, Product>, lines: seq<OrderLine>)
    requires ValidLines(lines)
    ensures forall it :: it in NewItems(orderId, catalog, lines) ==> it.quantity >= 1
  {
    forall it | it in NewItems(orderId, catalog, lines) ensures it.quantity >= 1 {
      var i :| 0 <= i < |lines| && lines[i].productId == it.productId && lines[i].quantity == it.quantity
               && forall j :: 0 <= j < i ==> lines[j].productId != it.productId;
    }
  }

  /** createOrder writes exactly one item row per matched product. */
  lemma NewItemsCount(orderId: OrderId, catalog: map<ProductId, Product>, lines: seq<OrderLine>)
    ensures |NewItems(orderId, catalog, lines)| == |Matched(catalog, lines)|
  {
    ItemsForCount(orderId, catalog, lines, Matched(catalog, lines));
  }

  /** getOrders: every order for ALL, otherwise exactly the orders with that status, with their item counts. */
  function GetOrders(orders: map<OrderId, Order>, items: set<OrderItem>, filter: StatusFilter): (r: map<OrderId, OrderSummary>)
    ensures filter == All ==> r.Keys == orders.Keys
    ensures forall id :: id in r <==> id in orders && (filter == All || orders[id].status == filter.status)
    ensures forall id :: id in r ==>
              && r[id].grandTotal == orders[id].grandTotal
              && r[id].status == orders[id].status
              && r[id].paidAt == orders[id].paidAt
              && r[id].itemCount == |ItemsOf(items, id)|
  {
    map id | id in orders && (filter.All? || orders[id].status == filter.status) ::
      OrderSummary(orders[id].grandTotal, orders[id].status, orders[id].paidAt, |ItemsOf(items, id)|)
  }

  /** The three concrete filters split the unfiltered result. */
  lemma GetOrdersPartition(orders: map<OrderId, Order>, items: set<OrderItem>)
    ensures GetOrders(orders, items, All).Keys
         == GetOrders(orders, items, Only(AwaitingPayment)).Keys
          + GetOrders(orders, items, Only(Processing)).Keys
          + GetOrders(orders, items, Only(Done)).Keys
  {
  }

  /** simulatePayment's guard: a missing order is NotFound; otherwise the stored payment method and grand total go to the gateway. */
  function SimulatePaymentRequest(orders: map<OrderId, Order>, id: OrderId): (r: Result<SimulationRequest, OrderError>)
    ensures r.Err? <==> id !in orders
    ensures r.Err? ==> r.error == OrderNotFound
    ensures r.Ok? ==> r.value.amount == orders[id].grandTotal && r.value.paymentMethodId == orders[id].paymentMethodId
  {
    if id !in orders then Err(OrderNotFound)
    else Ok(SimulationRequest(orders[id].paymentMethodId, orders[id].grandTotal))
  }

  /**
    checkOrderStatus's guard: a missing order and an unpaid order give the same error;
    otherwise the stored transaction id is what the gateway is asked about.
  */
  function CheckOrderStatusRequest(orders: map<OrderId, Order>, id: OrderId): (r: Result<Option<string>, OrderError>)
    ensures r.Err? <==> id !in orders || orders[id].paidAt.None?
    ensures r.Err? ==> r.error == MissingTransaction
    ensures r.Ok? ==> r.value == orders[id].externalTransactionId
  {
    if id !in orders || orders[id].paidAt.None? then Err(MissingTransaction)
    else Ok(orders[id].externalTransactionId)
  }

  /** On well-formed orders the checkOrderStatus guard rejects exactly the orders still awaiting payment. */
  lemma CheckOrderStatusOnWellFormed(orders: map<OrderId, Order>, id: OrderId)
    requires id in orders && WellFormed(orders[id])
    ensures CheckOrderStatusRequest(orders, id).Err? <==> orders[id].status == AwaitingPayment
  {
  }

  /** The order and order-item tables. */
  class Ledger {
    var orders: map<OrderId, Order>
    var items: set<OrderItem>

    ghost predicate Valid()
      reads this
    {
      && (forall id :: id in orders ==> WellFormed(orders[id]))
      && (forall it :: it in items ==> it.orderId in orders && it.quantity >= 1)
    }

    constructor ()
      ensures Valid() && orders == map[] && items == {}
    {
      orders := map[];
      items := {};
    }

    /** db.order.create: writes a new well-formed order row under a fresh id. */
    method InsertOrder(id: OrderId, order: Order)
      requires Valid() && id !in orders && WellFormed(order)
      modifies this
      ensures Valid()
      ensures orders == old(orders)[id := order] && items == old(items)
    {
      orders := orders[id := order];
    }

    /** db.orderItem.createMany: writes item rows of existing orders. */
    method InsertItems(added: set<OrderItem>)
      requires Valid()
      requires forall it :: it in added ==> it.orderId in orders && it.quantity >= 1
      modifies this
      ensures Valid()
      ensures items == old(items) + added && orders == old(orders)
    {
      items := items + added;
    }

    /** db.order.update: records the gateway's ids on an existing order. */
    method AttachPaymentRequest(id: OrderId, pr: PaymentRequest)
      requires Valid() && id in orders
      modifies this
      ensures Valid()
      ensures orders == old(orders)[id := old(orders)[id].(externalTransactionId := Some(pr.id),
                                                           paymentMethodId := Some(pr.paymentMethodId))]
      ensures items == old(items)
    {
      var updated := orders[id].(externalTransactionId := Some(pr.id), paymentMethodId := Some(pr.paymentMethodId));
      orders := orders[id := updated];
    }

    /**
      createOrder. `freshId` is the id the database generates; `createQris` is the
      payment gateway, asked for a QRIS payment of the grand total after the order
      and its items are written. A gateway failure leaves those rows in place
      without gateway ids.
    */
    method CreateOrder(catalog: map<ProductId, Product>, lines: seq<OrderLine>, freshId: OrderId,
                       createQris: (real, OrderId) -> Option<PaymentRequest>)
      returns (r: Result<CreatedOrder, OrderError>)
      requires Valid()
      requires freshId !in orders
      modifies this
      ensures Valid()
      ensures !ValidLines(lines) ==> r == Err(InvalidQuantity) && orders == old(orders) && items == old(items)
      ensures ValidLines(lines) ==> items == old(items) + NewItems(freshId, catalog, lines)
      ensures ValidLines(lines) ==> ItemsOf(items, freshId) == NewItems(freshId, catalog, lines)
      ensures ValidLines(lines) ==>
                var placed := NewOrder(Subtotal(catalog, lines));
                match createQris(placed.grandTotal, freshId)
                case None =>
                  r == Err(GatewayFailed) && orders == old(orders)[freshId := placed]
                case Some(pr) =>
                  && r == Ok(CreatedOrder(freshId, placed, |Matched(catalog, lines)|, pr.qrString))
                  && orders == old(orders)[freshId := placed.(externalTransactionId := Some(pr.id),
                                                              paymentMethodId := Some(pr.paymentMethodId))]
      ensures forall id :: id in old(orders) ==> id in orders && orders[id] == old(orders)[id]
    {
      if !ValidLines(lines) {
        return Err(InvalidQuantity);
      }
      var subtotal := ComputeSubtotal(catalog, lines);
      var order := NewOrder(subtotal);
      InsertOrder(freshId, order);

      var created := NewItems(freshId, catalog, lines);
      NewItemsCount(freshId, catalog, lines);
      NewItemsQuantities(freshId, catalog, lines);
      ItemsOfFreshOrder(items, created, freshId);
      InsertItems(created);

      var paymentRequest := createQris(order.grandTotal, freshId);
      if paymentRequest.None? {
        return Err(GatewayFailed);
      }
      ghost var beforeUpdate := orders;
      ghost var withIds := order.(externalTransactionId := Some(paymentRequest.value.id),
                                  paymentMethodId := Some(paymentRequest.value.paymentMethodId));
      AttachPaymentRequest(freshId, paymentRequest.value);
      UpdateOverrides(old(orders), freshId, order, withIds);
      r := Ok(CreatedOrder(freshId, order, |created|, paymentRequest.value.qrString));
    }

    /** finishOrder: NotFound, then "not paid yet", then "not processing yet"; otherwise DONE. */
    method FinishOrder(id: OrderId) returns (r: Outcome)
      requires Valid()
      modifies this
      ensures Valid()
      ensures items == old(items)
      ensures id !in old(orders) ==> r == Fail(OrderNotFound)
      ensures id in old(orders) && old(orders)[id].paidAt.None? ==> r == Fail(NotPaidYet)
      ensures id in old(orders) && old(orders)[id].paidAt.Some? && old(orders)[id].status != Processing ==>
                r == Fail(NotProcessingYet)
      ensures r.Fail? ==> orders == old(orders)
      ensures r == Pass <==> id in old(orders) && CanFinish(old(orders)[id])
      ensures r == Pass ==> orders == old(orders)[id := Finished(old(orders)[id])]
    {
      if id !in orders {
        return Fail(OrderNotFound);
      }
      var order := orders[id];
      if order.paidAt.None? {
        return Fail(NotPaidYet);
      }
      if order.status != Processing {
        return Fail(NotProcessingYet);
      }
      orders := orders[id := Finished(order)];
      r := Pass;
    }
  }
}
