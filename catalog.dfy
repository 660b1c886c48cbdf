/**
  The product table and the product router: a category filter and the
  create / edit / delete mutations with their input bounds.
*/
module Catalog {
  import opened Wrappers

  type ProductId = string
  type CategoryId = string

  /** A row of the product table (the id is the key of the table). */
  datatype Product = Product(name: string, price: int, categoryId: CategoryId, imageUrl: string)

  datatype CatalogError =
    | InvalidInput      // the input schema rejected the call before any write
    | ProductNotFound   // update or delete of an id the table does not hold

  /** Lower bounds of the input schema of createProduct and editProduct. */
  const MinNameLength: nat := 3
  const MinPrice: int := 1000

  /** The category argument that means "no filter". */
  const AllCategories: CategoryId := "all"

  /** The number of UTF-16 code units a character takes: two outside the Basic Multilingual Plane. */
  function CodeUnits(c: char): (n: nat)
    ensures 1 <= n <= 2
    ensures n == 2 <==> c as int > 0xFFFF
  {
    if c as int > 0xFFFF then 2 else 1
  }

  /**
    The length JavaScript reports for a string, which is what the schema's minimum
    length compares: UTF-16 code units, not characters.
  */
  function Utf16Length(s: string): (n: nat)
    ensures |s| <= n <= 2 * |s|
    ensures n == |s| <==> forall i :: 0 <= i < |s| ==> s[i] as int <= 0xFFFF
  {
    if |s| == 0 then 0 else CodeUnits(s[0]) + Utf16Length(s[1..])
  }

  /** The JavaScript length of a concatenation is the sum of the lengths. */
  lemma {:induction false} Utf16LengthAppend(a: string, b: string)
    ensures Utf16Length(a + b) == Utf16Length(a) + Utf16Length(b)
    decreases |a|
  {
    if |a| != 0 {
      assert (a + b)[1..] == a[1..] + b;
      Utf16LengthAppend(a[1..], b);
    } else {
      assert a + b == b;
    }
  }

  /** The input bounds: a name of at least three UTF-16 code units and a price of at least 1000. */
  predicate ValidProduct(p: Product)
  {
    Utf16Length(p.name) >= MinNameLength && p.price >= MinPrice
  }

  /** Two emoji make a name of JavaScript length 4, so the name bound accepts them. */
  lemma TwoEmojiNameAccepted()
    ensures Utf16Length("\U{1F600}\U{1F600}") == 4
    ensures ValidProduct(Product("\U{1F600}\U{1F600}", 1000, "c", "u"))
  {
    assert "\U{1F600}\U{1F600}"[1..] == "\U{1F600}";
    assert "\U{1F600}"[1..] == "";
  }

  /** getProducts: every product for "all", otherwise exactly the products of that category. */
  function GetProducts(products: map<ProductId, Product>, categoryId: CategoryId): (r: map<ProductId, Product>)
    ensures categoryId == AllCategories ==> r == products
    ensures forall id :: id in r <==> id in products && (categoryId == AllCategories || products[id].categoryId == categoryId)
    ensures forall id :: id in r ==> r[id] == products[id]
  {
    if categoryId == AllCategories then products
    else map id | id in products && products[id].categoryId == categoryId :: products[id]
  }

  /** The product table. Every row went through the input bounds, so every row satisfies them. */
  class ProductStore {
    var products: map<ProductId, Product>

    ghost predicate Valid()
      reads this
    {
      forall id :: id in products ==> ValidProduct(products[id])
    }

    constructor ()
      ensures Valid() && products == map[]
    {
      products := map[];
    }

    /** createProduct; `freshId` is the id the database generates for the new row. */
    method CreateProduct(freshId: ProductId, input: Product) returns (r: Result<Product, CatalogError>)
      requires Valid()
      requires freshId !in products
      modifies this
      ensures Valid()
      ensures !ValidProduct(input) ==> r == Err(InvalidInput) && products == old(products)
      ensures ValidProduct(input) ==> r == Ok(input) && products == old(products)[freshId := input]
      ensures forall id :: id in old(products) ==> id in products && products[id] == old(products)[id]
    {
      if !ValidProduct(input) {
        return Err(InvalidInput);
      }
      products := products[freshId := input];
      r := Ok(input);
    }

    /** editProduct: the input bounds are checked first, then the row must exist. */
    method EditProduct(id: ProductId, input: Product) returns (r: Result<Product, CatalogError>)
      requires Valid()
      modifies this
      ensures Valid()
      ensures !ValidProduct(input) ==> r == Err(InvalidInput)
      ensures ValidProduct(input) && id !in old(products) ==> r == Err(ProductNotFound)
      ensures r.Err? ==> products == old(products)
      ensures ValidProduct(input) && id in old(products) ==> r == Ok(input) && products == old(products)[id := input]
    {
      if !ValidProduct(input) {
        return Err(InvalidInput);
      }
      if id !in products {
        return Err(ProductNotFound);
      }
      products := products[id := input];
      r := Ok(input);
    }

    /** deleteProductById: removes exactly that row and returns it. */
    method DeleteProductById(id: ProductId) returns (r: Result<Product, CatalogError>)
      requires Valid()
      modifies this
      ensures Valid()
      ensures id !in old(products) ==> r == Err(ProductNotFound) && products == old(products)
      ensures id in old(products) ==> r == Ok(old(products)[id]) && products == old(products) - {id}
    {
      if id !in products {
        return Err(ProductNotFound);
      }
      r := Ok(products[id]);
      products := products - {id};
    }
  }
}
