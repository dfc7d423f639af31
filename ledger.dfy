/**
 * The purchase (仕入) and sales (売上) tables of the inventory backend, and the
 * aggregate queries the sales view runs over them before it records a sale.
 */
module Ledger {

  /** One row of the purchase table or of the sales table: its primary key, the
      product it refers to, the quantity moved and the date of the movement. */
  datatype Entry = Entry(id: nat, product: nat, quantity: int, date: int)

  /** `filter(product_id=p)`: the rows that refer to product `p`, in table order. */
  function Of(rows: seq<Entry>, p: nat): (r: seq<Entry>)
    ensures |r| <= |rows|
    ensures forall e :: e in r <==> e in rows && e.product == p
  {
    if rows == [] then []
    else if rows[0].product == p then [rows[0]] + Of(rows[1..], p)
    else Of(rows[1..], p)
  }

  /** `filter(product_id=p).aggregate(Coalesce(Sum('quantity'), 0))`: the total
      quantity of the rows for product `p`. Rows of other products add nothing,
      so a product without rows (the empty sum included) totals 0; over rows
      whose quantities are never negative the total is never negative. */
  function Total(rows: seq<Entry>, p: nat): (r: int)
    ensures (forall e :: e in rows ==> e.product != p) ==> r == 0
    ensures (forall e :: e in rows ==> e.quantity >= 0) ==> r >= 0
  {
    if rows == [] then 0
    else
      assert rows[0] in rows && forall e :: e in rows[1..] ==> e in rows;
      (if rows[0].product == p then rows[0].quantity else 0) + Total(rows[1..], p)
  }

  /** Appending one row changes only the total of that row's product, by its quantity. */
  lemma {:induction false} TotalAppend(rows: seq<Entry>, e: Entry, p: nat)
    ensures Total(rows + [e], p) == Total(rows, p) + (if e.product == p then e.quantity else 0)
  {
    if rows == [] {
      assert rows + [e] == [e];
    } else {
      assert (rows + [e])[1..] == rows[1..] + [e];
      TotalAppend(rows[1..], e, p);
    }
  }

  /** Filtering a table on product `p` keeps every row the total of `p` counts. */
  lemma {:induction false} TotalOf(rows: seq<Entry>, p: nat)
    ensures Total(Of(rows, p), p) == Total(rows, p)
  {
    if rows != [] {
      TotalOf(rows[1..], p);
      if rows[0].product == p {
        assert ([rows[0]] + Of(rows[1..], p))[1..] == Of(rows[1..], p);
      }
    }
  }

  /** The primary keys of a table grow strictly along the table (auto-increment
      keys of an append-only table). */
  predicate IdsIncreasing(rows: seq<Entry>)
  {
    forall i, j :: 0 <= i < j < |rows| ==> rows[i].id < rows[j].id
  }

  /** Every primary key in the table is below the next key to be handed out. */
  predicate IdsBelow(rows: seq<Entry>, next: nat)
  {
    forall i :: 0 <= i < |rows| ==> rows[i].id < next
  }

  /** A filter of a table with increasing keys has increasing keys. */
  lemma {:induction false} OfKeepsIds(rows: seq<Entry>, p: nat)
    requires IdsIncreasing(rows)
    ensures IdsIncreasing(Of(rows, p))
  {
    if rows != [] {
      assert IdsIncreasing(rows[1..]);
      OfKeepsIds(rows[1..], p);
      if rows[0].product == p {
        var r := [rows[0]] + Of(rows[1..], p);
        forall i, j | 0 <= i < j < |r| ensures r[i].id < r[j].id {
          if i == 0 {
            assert r[j] in Of(rows[1..], p);
            var k :| 0 <= k < |rows[1..]| && rows[1..][k] == r[j];
            assert rows[k + 1] == r[j];
          }
        }
      }
    }
  }

  /** Stock never goes negative: for every product, the quantity sold so far is
      at most the quantity purchased so far. */
  ghost predicate InStock(purchases: seq<Entry>, sales: seq<Entry>)
  {
    forall p: nat :: Total(sales, p) <= Total(purchases, p)
  }

  /** The sales view's guard: a sale of `quantity` units of `product` is accepted
      only when the purchased total covers the sold total plus the new quantity. */
  predicate SaleAllowed(purchases: seq<Entry>, sales: seq<Entry>, product: nat, quantity: int)
  {
    !(Total(purchases, product) < Total(sales, product) + quantity)
  }

  /** The guard is exact: a sale keeps its own product in stock if and only if
      the guard accepts it, and it leaves every other product's totals alone. */
  lemma SaleAllowedIffInStock(purchases: seq<Entry>, sales: seq<Entry>, s: Entry)
    ensures SaleAllowed(purchases, sales, s.product, s.quantity)
      <==> Total(sales + [s], s.product) <= Total(purchases, s.product)
    ensures forall p: nat :: p != s.product ==> Total(sales + [s], p) == Total(sales, p)
  {
    TotalAppend(sales, s, s.product);
    forall p: nat | p != s.product ensures Total(sales + [s], p) == Total(sales, p) {
      TotalAppend(sales, s, p);
    }
  }

  /** A sale the guard accepts keeps every product in stock. */
  lemma GuardedSaleKeepsStock(purchases: seq<Entry>, sales: seq<Entry>, s: Entry)
    requires InStock(purchases, sales)
    requires SaleAllowed(purchases, sales, s.product, s.quantity)
    ensures InStock(purchases, sales + [s])
  {
    SaleAllowedIffInStock(purchases, sales, s);
  }

  /** A purchase of a non-negative quantity keeps every product in stock. */
  lemma PurchaseKeepsStock(purchases: seq<Entry>, sales: seq<Entry>, e: Entry)
    requires InStock(purchases, sales)
    requires e.quantity >= 0
    ensures InStock(purchases + [e], sales)
  {
    forall p: nat ensures Total(sales, p) <= Total(purchases + [e], p) {
      TotalAppend(purchases, e, p);
    }
  }
}
