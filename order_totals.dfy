/**
  The arithmetic of createOrder: which catalog products an order request
  matches, the quantity taken for each (that of the first request line
  naming it), the subtotal over the matched products and the exact tax.
*/
module OrderTotals {
  import opened Wrappers
  import opened Catalog

  /** One requested line of createOrder's input. */
  datatype OrderLine = OrderLine(productId: ProductId, quantity: int)

  /** The input schema: every line asks for at least one unit. */
  predicate ValidLines(lines: seq<OrderLine>)
  {
    forall i :: 0 <= i < |lines| ==> lines[i].quantity >= 1
  }

  /** The product ids the request names (the `id in [...]` list of the product query). */
  function Requested(lines: seq<OrderLine>): set<ProductId>
  {
    set i | 0 <= i < |lines| :: lines[i].productId
  }

  /** The catalog products the product query returns for the request. */
  function Matched(catalog: map<ProductId, Product>, lines: seq<OrderLine>): (r: set<ProductId>)
    ensures forall pid :: pid in r <==> pid in catalog && pid in Requested(lines)
  {
    catalog.Keys * Requested(lines)
  }

  /** The quantity of the first line naming `pid`, as `find` returns it; None when no line does. */
  function FirstQuantity(lines: seq<OrderLine>, pid: ProductId): (r: Option<int>)
    ensures r.None? <==> pid !in Requested(lines)
    ensures r.Some? ==> exists i :: 0 <= i < |lines| && lines[i].productId == pid && lines[i].quantity == r.value
                                    && forall j :: 0 <= j < i ==> lines[j].productId != pid
  {
    if |lines| == 0 then None
    else if lines[0].productId == pid then Some(lines[0].quantity)
    else
      var r := FirstQuantity(lines[1..], pid);
      assert Requested(lines) == {lines[0].productId} + Requested(lines[1..]) by {
        forall p ensures p in Requested(lines) <==> p == lines[0].productId || p in Requested(lines[1..]) {
          if p in Requested(lines) {
            var i :| 0 <= i < |lines| && lines[i].productId == p;
            if i > 0 { assert lines[1..][i - 1].productId == p; }
          }
          if p in Requested(lines[1..]) {
            var i :| 0 <= i < |lines[1..]| && lines[1..][i].productId == p;
            assert lines[i + 1].productId == p;
          }
        }
      }
      if r.Some? then
        var i :| 0 <= i < |lines[1..]| && lines[1..][i].productId == pid && lines[1..][i].quantity == r.value
                 && forall j :: 0 <= j < i ==> lines[1..][j].productId != pid;
        assert lines[i + 1].productId == pid && lines[i + 1].quantity == r.value;
        assert forall j :: 0 <= j < i + 1 ==> lines[j].productId != pid by {
          forall j | 0 <= j < i + 1 ensures lines[j].productId != pid {
            if j > 0 { assert lines[j] == lines[1..][j - 1]; }
          }
        }
        r
      else r
  }

  /** price × quantity of one matched product; products outside the match contribute nothing. */
  function LineTotal(catalog: map<ProductId, Product>, lines: seq<OrderLine>, pid: ProductId): int
  {
    match FirstQuantity(lines, pid)
    case Some(q) => if pid in catalog then catalog[pid].price * q else 0
    case None => 0
  }

  /** The sum of LineTotal over a set of product ids, in no particular order. */
  ghost function LineSum(catalog: map<ProductId, Product>, lines: seq<OrderLine>, s: set<ProductId>): int
    decreases s
  {
    if s == {} then 0
    else
      var pid :| pid in s;
      LineTotal(catalog, lines, pid) + LineSum(catalog, lines, s - {pid})
  }

  /** The subtotal createOrder computes: the line totals of the matched products. */
  ghost function Subtotal(catalog: map<ProductId, Product>, lines: seq<OrderLine>): int
  {
    LineSum(catalog, lines, Matched(catalog, lines))
  }

  /** The tax of a subtotal: `subtotal * 0.1`, taken exactly. */
  function Tax(subtotal: int): (r: real)
    ensures 10.0 * r == subtotal as real
    ensures subtotal >= 0 ==> 0.0 <= r <= subtotal as real
  {
    subtotal as real * 0.1
  }

  /** A sum over a set does not depend on which element it takes first. */
  lemma {:induction false} LineSumRemove(catalog: map<ProductId, Product>, lines: seq<OrderLine>, s: set<ProductId>, x: ProductId)
    requires x in s
    ensures LineSum(catalog, lines, s) == LineTotal(catalog, lines, x) + LineSum(catalog, lines, s - {x})
    decreases s
  {
    var y :| y in s && LineSum(catalog, lines, s) == LineTotal(catalog, lines, y) + LineSum(catalog, lines, s - {y});
    if y != x {
      LineSumRemove(catalog, lines, s - {y}, x);
      LineSumRemove(catalog, lines, s - {x}, y);
      assert s - {y} - {x} == s - {x} - {y};
    }
  }

  /** The subtotal loop of createOrder: one pass over the matched products in any order. */
  method ComputeSubtotal(catalog: map<ProductId, Product>, lines: seq<OrderLine>) returns (subtotal: int)
    ensures subtotal == Subtotal(catalog, lines)
  {
    var products := Matched(catalog, lines);
    subtotal := 0;
    var remaining := products;
    while remaining != {}
      invariant remaining <= products
      invariant subtotal + LineSum(catalog, lines, remaining) == LineSum(catalog, lines, products)
      decreases remaining
    {
      var pid :| pid in remaining;
      var productQty := FirstQuantity(lines, pid).value;
      LineSumRemove(catalog, lines, remaining, pid);
      subtotal := subtotal + catalog[pid].price * productQty;
      remaining := remaining - {pid};
    }
  }

  /** Two sums agree when their line totals agree on every element of the set. */
  lemma {:induction false} LineSumCongruent(c1: map<ProductId, Product>, l1: seq<OrderLine>,
                                            c2: map<ProductId, Product>, l2: seq<OrderLine>, s: set<ProductId>)
    requires forall pid :: pid in s ==> LineTotal(c1, l1, pid) == LineTotal(c2, l2, pid)
    ensures LineSum(c1, l1, s) == LineSum(c2, l2, s)
    decreases s
  {
    if s != {} {
      var x :| x in s;
      LineSumRemove(c1, l1, s, x);
      LineSumRemove(c2, l2, s, x);
      LineSumCongruent(c1, l1, c2, l2, s - {x});
    }
  }

  /** Every matched product contributes at least its price when prices and quantities meet their bounds. */
  lemma {:induction false} LineSumLowerBound(catalog: map<ProductId, Product>, lines: seq<OrderLine>, s: set<ProductId>)
    requires ValidLines(lines)
    requires forall pid :: pid in catalog ==> ValidProduct(catalog[pid])
    requires s <= Matched(catalog, lines)
    ensures LineSum(catalog, lines, s) >= MinPrice * |s|
    decreases s
  {
    if s != {} {
      var x :| x in s;
      LineSumRemove(catalog, lines, s, x);
      LineSumLowerBound(catalog, lines, s - {x});
      assert |s - {x}| == |s| - 1;
      PriceTimesQuantity(catalog[x].price, FirstQuantity(lines, x).value);
    }
  }

  lemma PriceTimesQuantity(price: int, quantity: int)
    requires price >= MinPrice && quantity >= 1
    ensures price * quantity >= MinPrice
  {
    assert price * quantity == price + price * (quantity - 1);
  }

  /** Over a catalog whose rows meet the product bounds, a valid request costs at least 1000 per matched product. */
  lemma SubtotalLowerBound(catalog: map<ProductId, Product>, lines: seq<OrderLine>)
    requires ValidLines(lines)
    requires forall pid :: pid in catalog ==> ValidProduct(catalog[pid])
    ensures Subtotal(catalog, lines) >= MinPrice * |Matched(catalog, lines)|
  {
    LineSumLowerBound(catalog, lines, Matched(catalog, lines));
  }

  lemma RequestedAppend(lines: seq<OrderLine>, line: OrderLine)
    ensures Requested(lines + [line]) == Requested(lines) + {line.productId}
  {
    var ext := lines + [line];
    forall p ensures p in Requested(ext) <==> p in Requested(lines) || p == line.productId {
      if p in Requested(lines) {
        var i :| 0 <= i < |lines| && lines[i].productId == p;
        assert ext[i] == lines[i];
      }
      if p == line.productId {
        assert ext[|lines|] == line;
      }
    }
  }

  /** Appending a line never changes the quantity of a product an earlier line already names. */
  lemma {:induction false} FirstQuantityAppend(lines: seq<OrderLine>, line: OrderLine, pid: ProductId)
    requires pid in Requested(lines) || pid != line.productId
    ensures FirstQuantity(lines + [line], pid) == FirstQuantity(lines, pid)
  {
    if |lines| == 0 {
      assert lines + [line] == [line];
    } else if lines[0].productId != pid {
      assert (lines + [line])[1..] == lines[1..] + [line];
      RequestedAppend(lines[1..], line);
      if pid in Requested(lines) {
        var i :| 0 <= i < |lines| && lines[i].productId == pid;
        assert i > 0 && lines[1..][i - 1].productId == pid;
      }
      FirstQuantityAppend(lines[1..], line, pid);
    }
  }

  /** A line naming a product missing from the catalog leaves the subtotal as it was. */
  lemma SubtotalIgnoresUnknownProduct(catalog: map<ProductId, Product>, lines: seq<OrderLine>, line: OrderLine)
    requires line.productId !in catalog
    ensures Matched(catalog, lines + [line]) == Matched(catalog, lines)
    ensures Subtotal(catalog, lines + [line]) == Subtotal(catalog, lines)
  {
    RequestedAppend(lines, line);
    var m := Matched(catalog, lines);
    forall pid | pid in m ensures LineTotal(catalog, lines + [line], pid) == LineTotal(catalog, lines, pid) {
      FirstQuantityAppend(lines, line, pid);
    }
    LineSumCongruent(catalog, lines + [line], catalog, lines, m);
  }

  /** A second line for a product already requested is ignored: only the first line's quantity counts. */
  lemma SubtotalIgnoresRepeatedProduct(catalog: map<ProductId, Product>, lines: seq<OrderLine>, line: OrderLine)
    requires line.productId in Requested(lines)
    ensures Matched(catalog, lines + [line]) == Matched(catalog, lines)
    ensures Subtotal(catalog, lines + [line]) == Subtotal(catalog, lines)
  {
    RequestedAppend(lines, line);
    var m := Matched(catalog, lines);
    forall pid | pid in m ensures LineTotal(catalog, lines + [line], pid) == LineTotal(catalog, lines, pid) {
      FirstQuantityAppend(lines, line, pid);
    }
    LineSumCongruent(catalog, lines + [line], catalog, lines, m);
  }

  /** A request for one catalog product: the subtotal is that product's price times the quantity. */
  lemma SubtotalOfSingleLine(catalog: map<ProductId, Product>, pid: ProductId, quantity: int)
    requires pid in catalog
    ensures Matched(catalog, [OrderLine(pid, quantity)]) == {pid}
    ensures Subtotal(catalog, [OrderLine(pid, quantity)]) == catalog[pid].price * quantity
  {
    var lines := [OrderLine(pid, quantity)];
    assert lines[0].productId == pid;
    assert Requested(lines) == {pid};
    LineSumRemove(catalog, lines, {pid}, pid);
    assert {pid} - {pid} == {};
  }
}
