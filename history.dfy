/**
 * The movement history of one product that the inventory view returns: the
 * product's purchases tagged type 1 and its sales tagged type 2, each priced at
 * the product's current unit price, joined and ordered by date.
 */
module History {
  import opened Ledger

  /** The `type` column of a history row. */
  datatype Kind = Purchased | Sold

  /** The integer `InventorySerializer` sends in a row's `type` field: '1' for
      purchases, '2' for sales. The model's rows keep the `Kind` itself; this
      function records the encoding the response uses for it. */
  function KindCode(k: Kind): (code: int)
    ensures code == 1 <==> k == Purchased
    ensures code == 2 <==> k == Sold
  {
    match k
    case Purchased => 1
    case Sold => 2
  }

  /** One history row: the id of the purchase or sales row, its quantity, its
      kind, its date and the product's unit price. */
  datatype Movement = Movement(id: nat, quantity: int, kind: Kind, date: int, unit: int)

  /** `values('id', 'quantity', type=Value(kind), date=..., unit=F('product__price'))`
      over rows already filtered on one product. */
  function Tag(rows: seq<Entry>, kind: Kind, unit: int): (r: seq<Movement>)
    ensures |r| == |rows|
    ensures forall i :: 0 <= i < |rows| ==>
      r[i].id == rows[i].id && r[i].quantity == rows[i].quantity && r[i].date == rows[i].date
    ensures forall m :: m in r ==> m.kind == kind && m.unit == unit
  {
    if rows == [] then []
    else [Movement(rows[0].id, rows[0].quantity, kind, rows[0].date, unit)] + Tag(rows[1..], kind, unit)
  }

  /** Rows in non-decreasing date order (`order_by('date')`). */
  predicate Sorted(ms: seq<Movement>)
  {
    forall i, j :: 0 <= i < j < |ms| ==> ms[i].date <= ms[j].date
  }

  /** Inserts `m` into a date-sorted sequence after every row with an earlier date. */
  function Insert(m: Movement, s: seq<Movement>): (r: seq<Movement>)
    requires Sorted(s)
    ensures Sorted(r)
    ensures multiset(r) == multiset(s) + multiset{m}
    ensures |r| == |s| + 1 && (r[0] == m || (s != [] && r[0] == s[0]))
  {
    if s == [] || m.date <= s[0].date then [m] + s
    else
      var rest := Insert(m, s[1..]);
      assert s == [s[0]] + s[1..];
      assert s[0].date <= rest[0].date;
      [s[0]] + rest
  }

  /** `order_by(F('date'))`: a date-sorted permutation of the rows. The database
      does not fix the order of rows with equal dates; this one keeps the
      earlier-listed row first. */
  function SortByDate(ms: seq<Movement>): (r: seq<Movement>)
    ensures Sorted(r)
    ensures multiset(r) == multiset(ms)
    ensures |r| == |ms|
  {
    if ms == [] then []
    else
      assert ms == [ms[0]] + ms[1..];
      Insert(ms[0], SortByDate(ms[1..]))
  }

  /** The history of product `p` priced at `unit`: `purchase.union(sales).order_by('date')`. */
  function HistoryOf(purchases: seq<Entry>, sales: seq<Entry>, p: nat, unit: int): seq<Movement>
  {
    SortByDate(Tag(Of(purchases, p), Purchased, unit) + Tag(Of(sales, p), Sold, unit))
  }

  /** The signed quantity of a row: purchases add to the stock, sales take from it. */
  function Signed(m: Movement): int
  {
    if m.kind == Purchased then m.quantity else -m.quantity
  }

  /** The stock left after every row of a history. */
  function Net(ms: seq<Movement>): int
  {
    if ms == [] then 0 else Signed(ms[0]) + Net(ms[1..])
  }

  lemma {:induction false} NetAppend(a: seq<Movement>, b: seq<Movement>)
    ensures Net(a + b) == Net(a) + Net(b)
  {
    if a == [] {
      assert a + b == b;
    } else {
      assert (a + b)[1..] == a[1..] + b;
      NetAppend(a[1..], b);
    }
  }

  lemma {:induction false} NetInsert(m: Movement, s: seq<Movement>)
    requires Sorted(s)
    ensures Net(Insert(m, s)) == Signed(m) + Net(s)
  {
    if s != [] && m.date > s[0].date {
      NetInsert(m, s[1..]);
      assert Insert(m, s)[1..] == Insert(m, s[1..]);
    } else {
      assert Insert(m, s)[1..] == s;
    }
  }

  /** Reordering by date does not change the stock the rows add up to. */
  lemma {:induction false} NetSort(ms: seq<Movement>)
    ensures Net(SortByDate(ms)) == Net(ms)
  {
    if ms != [] {
      NetSort(ms[1..]);
      NetInsert(ms[0], SortByDate(ms[1..]));
    }
  }

  /** Tagged rows add up to their total, signed by their kind. */
  lemma {:induction false} NetTag(rows: seq<Entry>, kind: Kind, unit: int, p: nat)
    requires forall e :: e in rows ==> e.product == p
    ensures Net(Tag(rows, kind, unit)) == (if kind == Purchased then Total(rows, p) else -Total(rows, p))
  {
    if rows != [] {
      assert rows[0] in rows;
      assert Tag(rows, kind, unit)[1..] == Tag(rows[1..], kind, unit);
      NetTag(rows[1..], kind, unit, p);
    }
  }

  /** What the history of product `p` holds: exactly the product's purchases and
      sales, each once, with its kind and the unit price, ordered by date. */
  lemma HistoryShape(purchases: seq<Entry>, sales: seq<Entry>, p: nat, unit: int)
    ensures Sorted(HistoryOf(purchases, sales, p, unit))
    ensures |HistoryOf(purchases, sales, p, unit)| == |Of(purchases, p)| + |Of(sales, p)|
    ensures multiset(HistoryOf(purchases, sales, p, unit))
      == multiset(Tag(Of(purchases, p), Purchased, unit)) + multiset(Tag(Of(sales, p), Sold, unit))
    ensures forall m :: m in HistoryOf(purchases, sales, p, unit) ==> m.unit == unit
  {
    var a := Tag(Of(purchases, p), Purchased, unit);
    var b := Tag(Of(sales, p), Sold, unit);
    var h := HistoryOf(purchases, sales, p, unit);
    forall m | m in h ensures m.unit == unit {
      assert m in multiset(a + b);
    }
  }

  /** The history of product `p` adds up to its purchased total minus its sold
      total: the stock on hand. */
  lemma HistoryNet(purchases: seq<Entry>, sales: seq<Entry>, p: nat, unit: int)
    ensures Net(HistoryOf(purchases, sales, p, unit)) == Total(purchases, p) - Total(sales, p)
  {
    var a := Tag(Of(purchases, p), Purchased, unit);
    var b := Tag(Of(sales, p), Sold, unit);
    NetSort(a + b);
    NetAppend(a, b);
    NetTag(Of(purchases, p), Purchased, unit, p);
    NetTag(Of(sales, p), Sold, unit, p);
    TotalOf(purchases, p);
    TotalOf(sales, p);
  }

  /** While every product is in stock, the history of any product ends at a
      non-negative stock. */
  lemma InStockHistoryNonNegative(purchases: seq<Entry>, sales: seq<Entry>, p: nat, unit: int)
    requires InStock(purchases, sales)
    ensures Net(HistoryOf(purchases, sales, p, unit)) >= 0
  {
    HistoryNet(purchases, sales, p, unit);
  }

  /** No two rows of a sequence are equal. */
  predicate Distinct(ms: seq<Movement>)
  {
    forall i, j :: 0 <= i < j < |ms| ==> ms[i] != ms[j]
  }

  /** Rows tagged from a table with increasing keys are pairwise distinct. */
  lemma TagKeepsDistinct(rows: seq<Entry>, kind: Kind, unit: int)
    requires IdsIncreasing(rows)
    ensures Distinct(Tag(rows, kind, unit))
  {
    var t := Tag(rows, kind, unit);
    forall i, j | 0 <= i < j < |t| ensures t[i] != t[j] {
      assert t[i].id == rows[i].id < rows[j].id == t[j].id;
    }
  }

  /** Joining two duplicate-free sequences of different kinds gives a
      duplicate-free sequence. */
  lemma JoinKeepsDistinct(a: seq<Movement>, b: seq<Movement>)
    requires Distinct(a) && Distinct(b)
    requires forall x :: x in a ==> x.kind == Purchased
    requires forall y :: y in b ==> y.kind == Sold
    ensures Distinct(a + b)
  {
    var u := a + b;
    forall i, j | 0 <= i < j < |u| ensures u[i] != u[j] {
      if j < |a| {
        assert u[i] == a[i] && u[j] == a[j];
      } else if i >= |a| {
        assert u[i] == b[i - |a|] && u[j] == b[j - |a|];
      } else {
        assert u[i] == a[i] && u[j] == b[j - |a|];
        assert u[i].kind != u[j].kind;
      }
    }
  }

  /** The union of the tagged purchases and the tagged sales has no duplicate
      rows when each table's keys are increasing, so the duplicate elimination
      of SQL's UNION removes nothing and the union is the concatenation. */
  lemma UnionHasNoDuplicates(purchases: seq<Entry>, sales: seq<Entry>, p: nat, unit: int)
    requires IdsIncreasing(purchases) && IdsIncreasing(sales)
    ensures Distinct(Tag(Of(purchases, p), Purchased, unit) + Tag(Of(sales, p), Sold, unit))
  {
    OfKeepsIds(purchases, p);
    OfKeepsIds(sales, p);
    TagKeepsDistinct(Of(purchases, p), Purchased, unit);
    TagKeepsDistinct(Of(sales, p), Sold, unit);
    JoinKeepsDistinct(Tag(Of(purchases, p), Purchased, unit), Tag(Of(sales, p), Sold, unit));
  }

  lemma {:induction false} InsertKeepsDistinct(m: Movement, s: seq<Movement>)
    requires Sorted(s) && Distinct(s) && m !in s
    ensures Distinct(Insert(m, s))
  {
    if s != [] && m.date > s[0].date {
      assert Distinct(s[1..]);
      InsertKeepsDistinct(m, s[1..]);
      var rest := Insert(m, s[1..]);
      assert s[0] !in s[1..];
      assert s[0] !in multiset(rest);
    }
  }

  /** Ordering by date neither adds nor merges rows: a duplicate-free input gives
      a duplicate-free history. */
  lemma {:induction false} SortKeepsDistinct(ms: seq<Movement>)
    requires Distinct(ms)
    ensures Distinct(SortByDate(ms))
  {
    if ms != [] {
      assert Distinct(ms[1..]);
      SortKeepsDistinct(ms[1..]);
      assert ms[0] !in ms[1..];
      assert ms[0] !in multiset(SortByDate(ms[1..]));
      InsertKeepsDistinct(ms[0], SortByDate(ms[1..]));
    }
  }
}
