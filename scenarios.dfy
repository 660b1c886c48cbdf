/**
  Clients of the stores: sequences of calls whose outcomes follow from the
  contracts of the operations alone.
*/
module Scenarios {
  import opened Wrappers
  import opened Catalog
  import opened OrderTotals
  import opened Orders
  import opened Webhook

  /** The sample product under a given name, the sample request (two units) and the item row it produces. */
  function Kopi(name: string): (p: Product)
    ensures p.name == name && p.price == 1000
  {
    Product(name, 1000, "drinks", "https://example.com/kopi.jpg")
  }
  const TwoKopi := [OrderLine("p-1", 2)]
  const KopiItem := OrderItem("o-1", "p-1", 2, 1000)

  /** With a name of at least three characters the sample product, also repriced at 2500, passes the input bounds. */
  lemma KopiWithinBounds(name: string)
    requires |name| >= MinNameLength
    ensures ValidProduct(Kopi(name)) && ValidProduct(Kopi(name).(price := 2500))
  {
  }

  /** Two units at 1000: subtotal 2000, tax 200, grand total 2200, and a single item at price 1000. */
  lemma SampleOrderTotals(name: string)
    ensures NewOrder(Subtotal(map["p-1" := Kopi(name)], TwoKopi)) == Order(2000, 200.0, 2200.0, AwaitingPayment, None, None, None)
    ensures NewItems("o-1", map["p-1" := Kopi(name)], TwoKopi) == {KopiItem}
  {
    var catalog := map["p-1" := Kopi(name)];
    SubtotalOfSingleLine(catalog, "p-1", 2);
    assert ItemFor("o-1", catalog, TwoKopi, "p-1") == KopiItem;
  }

  /** A product table holding the sample product and a ledger holding the order placed for two units. */
  method PlaceSampleOrder(name: string) returns (store: ProductStore, db: Ledger, created: Order)
    requires |name| >= MinNameLength
    ensures fresh(store) && fresh(db)
    ensures store.Valid() && store.products == map["p-1" := Kopi(name)]
    ensures created == Order(2000, 200.0, 2200.0, AwaitingPayment, None, None, None)
    ensures db.Valid() && db.items == {KopiItem}
    ensures db.orders == map["o-1" := created.(externalTransactionId := Some("pr-1"), paymentMethodId := Some("pm-1"))]
  {
    store := new ProductStore();
    KopiWithinBounds(name);
    var _ := store.CreateProduct("p-1", Kopi(name));
    db := new Ledger();
    var gateway := (amount: real, id: OrderId) => Some(PaymentRequest("pr-1", "pm-1", "qr-payload"));
    assert ValidLines(TwoKopi);
    SampleOrderTotals(name);
    var r := db.CreateOrder(store.products, TwoKopi, "o-1", gateway);
    created := r.value.order;
  }

  /**
    The sample order (under any name of at least three characters), a confirmed payment,
    completion, and a later price change: the order keeps subtotal 2000, tax 200, grand
    total 2200, it ends DONE with the gateway's ids, and its item keeps the price 1000.
  */
  method EndToEnd(name: string) returns (created: Order, final: Order, orderItems: set<OrderItem>, priceNow: int)
    requires |name| >= MinNameLength
    ensures created.subtotal == 2000 && created.tax == 200.0 && created.grandTotal == 2200.0
    ensures created.status == AwaitingPayment && created.paidAt.None?
    ensures final.status == Done && final.paidAt == Some(1700000000) && final.grandTotal == 2200.0
    ensures final.externalTransactionId == Some("pr-1") && final.paymentMethodId == Some("pm-1")
    ensures orderItems == {OrderItem("o-1", "p-1", 2, 1000)}
    ensures priceNow == 2500
  {
    var store, db;
    store, db, created := PlaceSampleOrder(name);
    var body := Notification("payment.successed", PaymentData("ev-1", 2200.0, "pr-1", "o-1", Succeeded));
    var _ := Handle(db, Some("token"), Some("token"), body, 1700000000);
    var _ := db.FinishOrder("o-1");
    final := db.orders["o-1"];
    KopiWithinBounds(name);
    var _ := store.EditProduct("p-1", Kopi(name).(price := 2500));
    priceNow := store.products["p-1"].price;
    orderItems := ItemsOf(db.items, "o-1");
  }

  /**
    The same success notification delivered twice: the order ends in PROCESSING with
    the second delivery's time, whatever its status was (a DONE order is reopened);
    its totals, gateway ids and every other order are as before.
  */
  method RedeliveredSuccess(db: Ledger, token: string, body: Notification, first: Timestamp, second: Timestamp)
    requires db.Valid()
    requires body.data.referenceId in db.orders && body.data.status == Succeeded
    modifies db
    ensures db.Valid()
    ensures db.orders == old(db.orders)[body.data.referenceId := Paid(old(db.orders)[body.data.referenceId], second)]
    ensures var o, was := db.orders[body.data.referenceId], old(db.orders)[body.data.referenceId];
      && o.status == Processing && o.paidAt == Some(second)
      && o.subtotal == was.subtotal && o.tax == was.tax && o.grandTotal == was.grandTotal
      && o.externalTransactionId == was.externalTransactionId && o.paymentMethodId == was.paymentMethodId
  {
    var _ := Handle(db, Some(token), Some(token), body, first);
    var _ := Handle(db, Some(token), Some(token), body, second);
  }

  /** After a confirmed payment, finishOrder on that order succeeds and sets it to DONE. */
  method PaymentThenFinish(db: Ledger, token: string, body: Notification, now: Timestamp)
    returns (outcome: Outcome)
    requires db.Valid()
    requires body.data.referenceId in db.orders && body.data.status == Succeeded
    modifies db
    ensures db.Valid()
    ensures outcome == Pass
    ensures db.orders == old(db.orders)[body.data.referenceId := Finished(Paid(old(db.orders)[body.data.referenceId], now))]
  {
    var _ := Handle(db, Some(token), Some(token), body, now);
    outcome := db.FinishOrder(body.data.referenceId);
  }

  /**
    An order placed against the product table, then a price change of a product:
    every item of the order keeps the price the product had when the order was placed.
  */
  method RepriceAfterOrder(store: ProductStore, db: Ledger, lines: seq<OrderLine>, freshId: OrderId,
                           gateway: (real, OrderId) -> Option<PaymentRequest>, pid: ProductId, edited: Product)
    requires store.Valid() && db.Valid() && freshId !in db.orders && ValidLines(lines)
    modifies store, db
    ensures store.Valid() && db.Valid()
    ensures forall it :: it in ItemsOf(db.items, freshId) ==>
              it.productId in old(store.products) && it.price == old(store.products)[it.productId].price
    ensures ValidProduct(edited) && pid in old(store.products) ==> pid in store.products && store.products[pid] == edited
  {
    var _ := db.CreateOrder(store.products, lines, freshId, gateway);
    var _ := store.EditProduct(pid, edited);
  }
}
