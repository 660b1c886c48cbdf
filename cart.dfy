/**
  The client-side cart store: a list of items with a find-or-append
  `addToCart` and a `clearCart`.
*/
module Cart {

  datatype CartItem = CartItem(id: string, name: string, price: int, qty: int, imageUrl: string)

  /** What addToCart is given: a cart item without its quantity. */
  datatype NewCartItem = NewCartItem(id: string, name: string, price: int, imageUrl: string)

  predicate DistinctIds(items: seq<CartItem>)
  {
    forall i, j :: 0 <= i < j < |items| ==> items[i].id != items[j].id
  }

  predicate PositiveQuantities(items: seq<CartItem>)
  {
    forall i :: 0 <= i < |items| ==> items[i].qty >= 1
  }

  /** findIndex on the item ids: the first position holding `id`, or -1 when none does. */
  function FindIndex(items: seq<CartItem>, id: string): (r: int)
    ensures -1 <= r < |items|
    ensures r == -1 <==> forall j :: 0 <= j < |items| ==> items[j].id != id
    ensures r != -1 ==> items[r].id == id && forall j :: 0 <= j < r ==> items[j].id != id
  {
    if |items| == 0 then -1
    else if items[0].id == id then 0
    else
      var k := FindIndex(items[1..], id);
      assert forall j :: 1 <= j < |items| ==> items[j] == items[1..][j - 1];
      if k == -1 then -1 else k + 1
  }

  /** The number of units in the cart. */
  function TotalQty(items: seq<CartItem>): int
  {
    if items == [] then 0 else items[0].qty + TotalQty(items[1..])
  }

  lemma {:induction false} TotalQtyAppend(items: seq<CartItem>, item: CartItem)
    ensures TotalQty(items + [item]) == TotalQty(items) + item.qty
  {
    if items != [] {
      assert (items + [item])[1..] == items[1..] + [item];
      TotalQtyAppend(items[1..], item);
    } else {
      assert items + [item] == [item];
    }
  }

  lemma {:induction false} TotalQtyIncrement(items: seq<CartItem>, i: nat)
    requires i < |items|
    ensures TotalQty(items[i := items[i].(qty := items[i].qty + 1)]) == TotalQty(items) + 1
  {
    var bumped := items[i := items[i].(qty := items[i].qty + 1)];
    if i > 0 {
      assert bumped[1..] == items[1..][i - 1 := items[1..][i - 1].(qty := items[1..][i - 1].qty + 1)];
      TotalQtyIncrement(items[1..], i - 1);
    } else {
      assert bumped[1..] == items[1..];
    }
  }

  /** The cart state: item ids are pairwise distinct and every quantity is at least one. */
  class CartStore {
    var items: seq<CartItem>

    ghost predicate Valid()
      reads this
    {
      DistinctIds(items) && PositiveQuantities(items)
    }

    constructor ()
      ensures Valid() && items == []
    {
      items := [];
    }

    /**
      addToCart: a new id is appended with quantity 1; a known id has only its
      quantity raised by one, keeping the name, price and image it was first added with.
    */
    method AddToCart(newItem: NewCartItem)
      requires Valid()
      modifies this
      ensures Valid()
      ensures TotalQty(items) == TotalQty(old(items)) + 1
      ensures (forall j :: 0 <= j < |old(items)| ==> old(items)[j].id != newItem.id) ==>
                items == old(items) + [CartItem(newItem.id, newItem.name, newItem.price, 1, newItem.imageUrl)]
      ensures forall j :: 0 <= j < |old(items)| && old(items)[j].id == newItem.id ==>
                items == old(items)[j := old(items)[j].(qty := old(items)[j].qty + 1)]
    {
      var duplicateItems := items;
      var existItemIndex := FindIndex(duplicateItems, newItem.id);
      if existItemIndex == -1 {
        var added := CartItem(newItem.id, newItem.name, newItem.price, 1, newItem.imageUrl);
        TotalQtyAppend(duplicateItems, added);
        duplicateItems := duplicateItems + [added];
      } else {
        var itemToUpdate := duplicateItems[existItemIndex];
        TotalQtyIncrement(duplicateItems, existItemIndex);
        duplicateItems := duplicateItems[existItemIndex := itemToUpdate.(qty := itemToUpdate.qty + 1)];
      }
      items := duplicateItems;
    }

    /** clearCart: the cart becomes empty. */
    method ClearCart()
      modifies this
      ensures Valid() && items == []
    {
      items := [];
    }
  }
}
