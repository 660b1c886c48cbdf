/**
  getSalesReport: revenue over paid orders and the counts of ongoing and
  completed orders, with how the payment and completion updates move them.
*/
module Reports {
  import opened Wrappers
  import opened Orders

  datatype SalesReport = SalesReport(totalRevenue: real, totalOngoingOrders: nat, totalCompletedOrders: nat)

  /** The orders of the first query: paidAt is not null. */
  function PaidIds(orders: map<OrderId, Order>): set<OrderId>
  {
    set id | id in orders && orders[id].paidAt.Some?
  }

  /** The orders of the second query: status is not DONE. */
  function OngoingIds(orders: map<OrderId, Order>): set<OrderId>
  {
    set id | id in orders && orders[id].status != Done
  }

  /** The orders of the third query: status is DONE. */
  function CompletedIds(orders: map<OrderId, Order>): set<OrderId>
  {
    set id | id in orders && orders[id].status == Done
  }

  /** The sum of the grand totals of a set of orders, in no particular order (the `reduce`). */
  ghost function Revenue(orders: map<OrderId, Order>, s: set<OrderId>): real
    requires s <= orders.Keys
    decreases s
  {
    if s == {} then 0.0
    else
      var id :| id in s;
      orders[id].grandTotal + Revenue(orders, s - {id})
  }

  /** The sum does not depend on which order it takes first. */
  lemma {:induction false} RevenueRemove(orders: map<OrderId, Order>, s: set<OrderId>, x: OrderId)
    requires s <= orders.Keys && x in s
    ensures Revenue(orders, s) == orders[x].grandTotal + Revenue(orders, s - {x})
    decreases s
  {
    var y :| y in s && Revenue(orders, s) == orders[y].grandTotal + Revenue(orders, s - {y});
    if y != x {
      RevenueRemove(orders, s - {y}, x);
      RevenueRemove(orders, s - {x}, y);
      assert s - {y} - {x} == s - {x} - {y};
    }
  }

  /** Two order tables that agree on the grand totals of a set agree on its revenue. */
  lemma {:induction false} RevenueCongruent(o1: map<OrderId, Order>, o2: map<OrderId, Order>, s: set<OrderId>)
    requires s <= o1.Keys && s <= o2.Keys
    requires forall id :: id in s ==> o1[id].grandTotal == o2[id].grandTotal
    ensures Revenue(o1, s) == Revenue(o2, s)
    decreases s
  {
    if s != {} {
      var x :| x in s;
      RevenueRemove(o1, s, x);
      RevenueRemove(o2, s, x);
      RevenueCongruent(o1, o2, s - {x});
    }
  }

  /** Every order is either ongoing or completed, never both. */
  lemma OngoingAndCompletedPartition(orders: map<OrderId, Order>)
    ensures |OngoingIds(orders)| + |CompletedIds(orders)| == |orders|
  {
    var ongoing, completed := OngoingIds(orders), CompletedIds(orders);
    assert ongoing + completed == orders.Keys;
    assert ongoing * completed == {};
    assert |ongoing + completed| == |ongoing| + |completed|;
  }

  /** getSalesReport: the three aggregations; ongoing and completed orders add up to all orders. */
  ghost function GetSalesReport(orders: map<OrderId, Order>): (r: SalesReport)
    ensures r.totalOngoingOrders + r.totalCompletedOrders == |orders|
    ensures r.totalCompletedOrders == |set id | id in orders && orders[id].status == Done|
    ensures r.totalRevenue == Revenue(orders, PaidIds(orders))
  {
    OngoingAndCompletedPartition(orders);
    SalesReport(Revenue(orders, PaidIds(orders)), |OngoingIds(orders)|, |CompletedIds(orders)|)
  }

  /** The revenue part of a payment update: the grand total is added once, on the first payment. */
  lemma RevenueAfterPayment(orders: map<OrderId, Order>, id: OrderId, now: Timestamp)
    requires id in orders
    ensures var paid := orders[id := Paid(orders[id], now)];
      Revenue(paid, PaidIds(paid))
        == Revenue(orders, PaidIds(orders)) + (if orders[id].paidAt.None? then orders[id].grandTotal else 0.0)
  {
    var paid := orders[id := Paid(orders[id], now)];
    var p := PaidIds(orders);
    assert PaidIds(paid) == p + {id};
    RevenueCongruent(paid, orders, p);
    if orders[id].paidAt.None? {
      RevenueRemove(paid, p + {id}, id);
      assert p + {id} - {id} == p;
    } else {
      assert p + {id} == p;
    }
  }

  /** The count part of a payment update: only a DONE order changes side, back to ongoing. */
  lemma CountsAfterPayment(orders: map<OrderId, Order>, id: OrderId, now: Timestamp)
    requires id in orders
    ensures var paid := orders[id := Paid(orders[id], now)];
      && |CompletedIds(paid)| == |CompletedIds(orders)| - (if orders[id].status == Done then 1 else 0)
      && |OngoingIds(paid)| == |OngoingIds(orders)| + (if orders[id].status == Done then 1 else 0)
  {
    var paid := orders[id := Paid(orders[id], now)];
    if orders[id].status == Done {
      assert CompletedIds(paid) == CompletedIds(orders) - {id};
      assert OngoingIds(paid) == OngoingIds(orders) + {id};
    } else {
      assert CompletedIds(paid) == CompletedIds(orders);
      assert OngoingIds(paid) == OngoingIds(orders);
    }
  }

  /**
    A confirmed payment adds the order's grand total to the revenue the first time
    and leaves it unchanged on a redelivery; a DONE order it reopens moves back
    from completed to ongoing.
  */
  lemma PaymentInReport(orders: map<OrderId, Order>, id: OrderId, now: Timestamp)
    requires id in orders
    ensures var before, after := GetSalesReport(orders), GetSalesReport(orders[id := Paid(orders[id], now)]);
      && after.totalRevenue == before.totalRevenue + (if orders[id].paidAt.None? then orders[id].grandTotal else 0.0)
      && after.totalCompletedOrders == before.totalCompletedOrders - (if orders[id].status == Done then 1 else 0)
      && after.totalOngoingOrders == before.totalOngoingOrders + (if orders[id].status == Done then 1 else 0)
  {
    RevenueAfterPayment(orders, id, now);
    CountsAfterPayment(orders, id, now);
  }

  /** The count part of finishOrder: one order moves from ongoing to completed. */
  lemma CountsAfterFinish(orders: map<OrderId, Order>, id: OrderId)
    requires id in orders && CanFinish(orders[id])
    ensures var done := orders[id := Finished(orders[id])];
      |CompletedIds(done)| == |CompletedIds(orders)| + 1 && |OngoingIds(done)| == |OngoingIds(orders)| - 1
  {
    var done := orders[id := Finished(orders[id])];
    assert CompletedIds(done) == CompletedIds(orders) + {id};
    assert OngoingIds(done) == OngoingIds(orders) - {id};
  }

  /** finishOrder moves one order from ongoing to completed and leaves the revenue unchanged. */
  lemma FinishInReport(orders: map<OrderId, Order>, id: OrderId)
    requires id in orders && CanFinish(orders[id])
    ensures var before, after := GetSalesReport(orders), GetSalesReport(orders[id := Finished(orders[id])]);
      && after.totalRevenue == before.totalRevenue
      && after.totalCompletedOrders == before.totalCompletedOrders + 1
      && after.totalOngoingOrders == before.totalOngoingOrders - 1
  {
    var done := orders[id := Finished(orders[id])];
    assert PaidIds(done) == PaidIds(orders);
    RevenueCongruent(done, orders, PaidIds(orders));
    CountsAfterFinish(orders, id);
  }

  /**
    Three orders: one paid and processing (grand total 100), one awaiting payment,
    one paid and done (grand total 50). Revenue counts the two paid orders; the
    processing order and the awaiting one are both ongoing.
  */
  lemma SalesReportExample(a: Order, b: Order, c: Order)
    requires a.paidAt.Some? && a.status == Processing && a.grandTotal == 100.0
    requires b.paidAt.None? && b.status == AwaitingPayment
    requires c.paidAt.Some? && c.status == Done && c.grandTotal == 50.0
    ensures GetSalesReport(map["a" := a, "b" := b, "c" := c]) == SalesReport(150.0, 2, 1)
  {
    var orders := map["a" := a, "b" := b, "c" := c];
    assert PaidIds(orders) == {"a", "c"};
    assert OngoingIds(orders) == {"a", "b"};
    assert CompletedIds(orders) == {"c"};
    RevenueRemove(orders, {"a", "c"}, "a");
    assert {"a", "c"} - {"a"} == {"c"};
    RevenueRemove(orders, {"c"}, "c");
    assert {"c"} - {"c"} == {};
  }
}
