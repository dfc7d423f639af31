/**
 * The inventory backend's views over three tables: products (商品), purchases
 * (仕入) and sales (売上). Each view method changes the tables the way the view's
 * ORM calls do, and returns the exception the view raises as an error value.
 */
module InventoryStore {
  import opened Wrappers
  import opened Ledger
  import opened History

  /** A row of the product table, without its primary key. */
  datatype Product = Product(name: string, price: int, description: string)

  /** The exceptions the views raise: `NotFound` (a missing product id), a
      serializer validation error (a purchase or sale for a product id that has
      no row), `BusinessException` (the stock guard) and a 400 response (the
      inventory view called without an id). */
  datatype Error = NotFound | Invalid | BusinessException | BadRequest

  /** What the product view's `get` answers: all products, or one. */
  datatype Listing = All(rows: map<nat, Product>) | One(product: Product)

  class Store {
    var products: map<nat, Product>
    var purchases: seq<Entry>
    var sales: seq<Entry>
    // the next value of each table's auto-increment primary key
    var nextProduct: nat
    var nextPurchase: nat
    var nextSale: nat

    /** Primary keys start at 1, lie below the next key to be handed out, and grow
        along the append-only purchase and sales tables. */
    ghost predicate Valid()
      reads this
    {
      && 1 <= nextProduct
      && (forall k :: k in products ==> 1 <= k < nextProduct)
      && IdsIncreasing(purchases) && IdsBelow(purchases, nextPurchase)
      && IdsIncreasing(sales) && IdsBelow(sales, nextSale)
    }

    /** Every product is in stock: no product has sold more than was purchased. */
    ghost predicate Stocked()
      reads this
    {
      InStock(purchases, sales)
    }

    /** Empty tables, every key sequence starting at 1. */
    constructor ()
      ensures Valid() && Stocked()
      ensures products == map[] && purchases == [] && sales == []
    {
      products, purchases, sales := map[], [], [];
      nextProduct, nextPurchase, nextSale := 1, 1, 1;
    }

    /** `ProductView.get_object`: the product keyed `pk`, or `NotFound`. */
    method GetObject(pk: nat) returns (r: Result<Product, Error>)
      ensures r.Ok? <==> pk in products
      ensures r.Ok? ==> r.value == products[pk]
      ensures r.Err? ==> r.error == NotFound
    {
      if pk in products {
        r := Ok(products[pk]);
      } else {
        r := Err(NotFound);
      }
    }

    /** `ProductView.get`: every product without an id; with an id exactly that
        product, or `NotFound`. */
    method Get(id: Option<nat>) returns (r: Result<Listing, Error>)
      ensures id.None? ==> r == Ok(All(products))
      ensures id.Some? ==> (r.Ok? <==> id.value in products)
      ensures id.Some? && r.Ok? ==> r.value == One(products[id.value])
      ensures r.Err? ==> r.error == NotFound
    {
      if id.None? {
        r := Ok(All(products));
      } else {
        var found := GetObject(id.value);
        match found
        case Ok(p) => r := Ok(One(p));
        case Err(e) => r := Err(e);
      }
    }

    /** `ProductView.post`: saves a new product under a fresh key; no existing
        product changes. */
    method Create(p: Product) returns (id: nat)
      requires Valid()
      modifies this
      ensures Valid()
      ensures id !in old(products) && 1 <= id
      ensures products == old(products)[id := p]
      ensures purchases == old(purchases) && sales == old(sales)
      ensures nextPurchase == old(nextPurchase) && nextSale == old(nextSale)
    {
      id := nextProduct;
      products := products[id := p];
      nextProduct := nextProduct + 1;
    }

    /** `ProductView.put`: replaces the fields of product `id`, leaving every
        other product alone; a missing id raises `NotFound` and changes nothing. */
    method Update(id: nat, p: Product) returns (r: Result<(), Error>)
      requires Valid()
      modifies this
      ensures Valid()
      ensures r.Ok? <==> id in old(products)
      ensures r.Err? ==> r.error == NotFound
      ensures products == if r.Ok? then old(products)[id := p] else old(products)
      ensures products.Keys == old(products).Keys
      ensures purchases == old(purchases) && sales == old(sales)
      ensures nextProduct == old(nextProduct)
      ensures nextPurchase == old(nextPurchase) && nextSale == old(nextSale)
    {
      var found := GetObject(id);
      if found.Err? {
        r := Err(found.error);
        return;
      }
      products := products[id := p];
      r := Ok(());
    }

    /** `ProductView.delete`: removes product `id` and no other; a missing id
        raises `NotFound` and changes nothing. */
    method Delete(id: nat) returns (r: Result<(), Error>)
      requires Valid()
      modifies this
      ensures Valid()
      ensures r.Ok? <==> id in old(products)
      ensures r.Err? ==> r.error == NotFound
      ensures products == old(products) - {id}
      ensures purchases == old(purchases) && sales == old(sales)
      ensures nextProduct == old(nextProduct)
      ensures nextPurchase == old(nextPurchase) && nextSale == old(nextSale)
    {
      var found := GetObject(id);
      if found.Err? {
        r := Err(found.error);
        return;
      }
      products := products - {id};
      r := Ok(());
    }

    /** `PurchaseView.post`: appends a purchase of a product that has a row; no
        other table changes. Purchases of non-negative quantities keep every
        product in stock. */
    method RecordPurchase(product: nat, quantity: int, date: int) returns (r: Result<nat, Error>)
      requires Valid()
      modifies this
      ensures Valid()
      ensures r.Ok? <==> product in products
      ensures r.Err? ==> r.error == Invalid && purchases == old(purchases)
      ensures r.Ok? ==> purchases == old(purchases) + [Entry(r.value, product, quantity, date)]
      ensures r.Ok? ==> forall e :: e in old(purchases) ==> e.id < r.value
      ensures products == old(products) && sales == old(sales)
      ensures old(Stocked()) && quantity >= 0 ==> Stocked()
    {
      if product !in products {
        r := Err(Invalid);
        return;
      }
      var e := Entry(nextPurchase, product, quantity, date);
      if Stocked() && quantity >= 0 {
        PurchaseKeepsStock(purchases, sales, e);
      }
      purchases := purchases + [e];
      nextPurchase := nextPurchase + 1;
      r := Ok(e.id);
    }

    /** `SalesView.post`: a sale of a product that has a row is recorded only when
        the product's purchased total covers its sold total plus the new
        quantity; otherwise `BusinessException` is raised and nothing changes.
        Recorded sales keep every product in stock. */
    method RecordSale(product: nat, quantity: int, date: int) returns (r: Result<nat, Error>)
      requires Valid()
      modifies this
      ensures Valid()
      ensures r.Ok? <==> product in products && SaleAllowed(purchases, old(sales), product, quantity)
      ensures r.Err? ==> sales == old(sales)
      ensures r.Err? && product !in products ==> r.error == Invalid
      ensures r.Err? && product in products ==> r.error == BusinessException
      ensures r.Ok? ==> sales == old(sales) + [Entry(r.value, product, quantity, date)]
      ensures r.Ok? ==> forall e :: e in old(sales) ==> e.id < r.value
      ensures products == old(products) && purchases == old(purchases)
      ensures old(Stocked()) ==> Stocked()
    {
      if product !in products {
        r := Err(Invalid);
        return;
      }
      if Total(purchases, product) < Total(sales, product) + quantity {
        r := Err(BusinessException);
        return;
      }
      var e := Entry(nextSale, product, quantity, date);
      if Stocked() {
        GuardedSaleKeepsStock(purchases, sales, e);
      }
      sales := sales + [e];
      nextSale := nextSale + 1;
      r := Ok(e.id);
    }

    /** `InventoryView.get`: without an id a 400 response; with an id the
        product's purchases (kind 1) and sales (kind 2), each once and priced at
        the product's current price, in non-decreasing date order. The join on
        the product's price finds no rows for an id without a product. */
    method Inventory(id: Option<nat>) returns (r: Result<seq<Movement>, Error>)
      requires Valid()
      ensures r.Err? <==> id.None?
      ensures r.Err? ==> r.error == BadRequest
      ensures r.Ok? && id.value !in products ==> r.value == []
      ensures r.Ok? && id.value in products ==>
        var unit := products[id.value].price;
        && Sorted(r.value)
        && |r.value| == |Of(purchases, id.value)| + |Of(sales, id.value)|
        && multiset(r.value) == multiset(Tag(Of(purchases, id.value), Purchased, unit))
                              + multiset(Tag(Of(sales, id.value), Sold, unit))
        && Distinct(r.value)
        && (forall m :: m in r.value ==> m.unit == unit)
        && Net(r.value) == Total(purchases, id.value) - Total(sales, id.value)
      ensures r.Ok? && id.value in products && Stocked() ==> Net(r.value) >= 0
    {
      if id.None? {
        return Err(BadRequest);
      }
      var p := id.value;
      if p !in products {
        return Ok([]);
      }
      var unit := products[p].price;
      var h := HistoryOf(purchases, sales, p, unit);
      HistoryShape(purchases, sales, p, unit);
      HistoryNet(purchases, sales, p, unit);
      UnionHasNoDuplicates(purchases, sales, p, unit);
      SortKeepsDistinct(Tag(Of(purchases, p), Purchased, unit) + Tag(Of(sales, p), Sold, unit));
      if Stocked() {
        InStockHistoryNonNegative(purchases, sales, p, unit);
      }
      r := Ok(h);
    }
  }
}
