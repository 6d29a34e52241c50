/** The integer side of the report page (frontend/src/components/Reporting.js):
    units sold and initial stock per product, the summary counts, the low
    stock table with its status and action columns, and the table footer. */
module Reporting {
  import opened Model

  // ------------------------------------------------------- sales per product

  /** `sales.filter(sale => sale.productId === id)` */
  function SalesOf(sales: seq<Sale>, id: string): (r: seq<Sale>)
    ensures |r| <= |sales|
    ensures forall s :: s in r <==> s in sales && s.productId == id
  {
    if sales == [] then []
    else (if sales[0].productId == id then [sales[0]] else []) + SalesOf(sales[1..], id)
  }

  /** `reduce((sum, sale) => sum + sale.quantity, 0)` */
  function SumQuantities(sales: seq<Sale>): int
  {
    if sales == [] then 0 else sales[0].quantity + SumQuantities(sales[1..])
  }

  ghost predicate NonNegativeSales(sales: seq<Sale>)
  {
    forall k :: 0 <= k < |sales| ==> sales[k].quantity >= 0
  }

  lemma {:induction false} SumQuantitiesNonNegative(sales: seq<Sale>)
    requires NonNegativeSales(sales)
    ensures SumQuantities(sales) >= 0
  {
    if sales != [] {
      SumQuantitiesNonNegative(sales[1..]);
    }
  }

  /** Units sold of the product with this id: nothing when no sale names
      it, never negative when no sale is. */
  function TotalSold(sales: seq<Sale>, id: string): (n: int)
    ensures (forall k :: 0 <= k < |sales| ==> sales[k].productId != id) ==> n == 0
    ensures NonNegativeSales(sales) ==> n >= 0
  {
    var r := SalesOf(sales, id);
    assert r != [] ==> r[0] in r;
    SoldOfNonNegative(sales, id);
    SumQuantities(r)
  }

  lemma SoldOfNonNegative(sales: seq<Sale>, id: string)
    ensures NonNegativeSales(sales) ==> SumQuantities(SalesOf(sales, id)) >= 0
  {
    if NonNegativeSales(sales) {
      var r := SalesOf(sales, id);
      forall k | 0 <= k < |r| ensures r[k].quantity >= 0 {
        assert r[k] in sales;
      }
      SumQuantitiesNonNegative(r);
    }
  }

  lemma {:induction false} SalesOfConcat(a: seq<Sale>, b: seq<Sale>, id: string)
    ensures SalesOf(a + b, id) == SalesOf(a, id) + SalesOf(b, id)
  {
    if a == [] {
      assert a + b == b;
    } else {
      assert (a + b)[1..] == a[1..] + b;
      SalesOfConcat(a[1..], b, id);
    }
  }

  lemma {:induction false} SumQuantitiesConcat(a: seq<Sale>, b: seq<Sale>)
    ensures SumQuantities(a + b) == SumQuantities(a) + SumQuantities(b)
  {
    if a == [] {
      assert a + b == b;
    } else {
      assert (a + b)[1..] == a[1..] + b;
      SumQuantitiesConcat(a[1..], b);
    }
  }

  /** Units sold split over two parts of the sales list. */
  lemma TotalSoldConcat(a: seq<Sale>, b: seq<Sale>, id: string)
    ensures TotalSold(a + b, id) == TotalSold(a, id) + TotalSold(b, id)
  {
    SalesOfConcat(a, b, id);
    SumQuantitiesConcat(SalesOf(a, id), SalesOf(b, id));
  }

  /** A single sale adds its quantity to its own product's count only. */
  lemma TotalSoldOne(s: Sale, id: string)
    ensures TotalSold([s], id) == if s.productId == id then s.quantity else 0
  {
    assert [s][1..] == [];
    assert SalesOf([s], id) == if s.productId == id then [s] else [];
    assert SumQuantities([s]) == s.quantity + SumQuantities([]);
  }

  // -------------------------------------------------------------- the table

  /** One row of `productsWithSalesData` (its money columns left out). */
  datatype ReportRow = ReportRow(product: Product, initialStock: int, totalSold: int)

  function Row(p: Product, sales: seq<Sale>): ReportRow
  {
    var sold := TotalSold(sales, p.id);
    ReportRow(p, p.quantity + sold, sold)
  }

  /** `products.map(...)`: one row per product, in product order, carrying
      the product unchanged; the stock before any sale is the current stock
      plus the units sold. */
  function Report(products: seq<Product>, sales: seq<Sale>): (rows: seq<ReportRow>)
    ensures |rows| == |products|
    ensures forall i :: 0 <= i < |rows| ==> rows[i] == Row(products[i], sales)
  {
    if products == [] then []
    else [Row(products[0], sales)] + Report(products[1..], sales)
  }

  /** With no negative sale, every row's initial stock is at least its current
      stock. */
  lemma InitialStockBound(products: seq<Product>, sales: seq<Sale>)
    requires NonNegativeSales(sales)
    ensures forall i :: 0 <= i < |products| ==>
      Report(products, sales)[i].initialStock >= Report(products, sales)[i].product.quantity
  {
    forall i | 0 <= i < |products|
      ensures Report(products, sales)[i].initialStock >= products[i].quantity
    {
      assert TotalSold(sales, products[i].id) >= 0;
    }
  }

  // ------------------------------------------------------------- the summary

  /** `sales.length`: zero exactly when there is no sale. */
  function TotalSalesCount(sales: seq<Sale>): (n: nat)
    ensures n == 0 <==> sales == []
  {
    |sales|
  }

  /** `productsWithSalesData.filter(product => product.totalSold > 0).length` */
  function ProductsSold(rows: seq<ReportRow>): (n: nat)
    ensures n <= |rows|
    ensures n == 0 <==> forall i :: 0 <= i < |rows| ==> rows[i].totalSold <= 0
    ensures n == |rows| <==> forall i :: 0 <= i < |rows| ==> rows[i].totalSold > 0
  {
    if rows == [] then 0
    else (if rows[0].totalSold > 0 then 1 else 0) + ProductsSold(rows[1..])
  }

  /** The count over two parts of the rows adds up; with the one-row case it
      fixes the count at the number of rows that sold something. */
  lemma {:induction false} ProductsSoldConcat(a: seq<ReportRow>, b: seq<ReportRow>)
    ensures ProductsSold(a + b) == ProductsSold(a) + ProductsSold(b)
  {
    if a == [] {
      assert a + b == b;
    } else {
      assert (a + b)[1..] == a[1..] + b;
      ProductsSoldConcat(a[1..], b);
    }
  }

  /** A single row counts once exactly when it sold something. */
  lemma ProductsSoldOne(row: ReportRow)
    ensures ProductsSold([row]) == if row.totalSold > 0 then 1 else 0
  {
    assert [row][1..] == [];
  }

  /** The "Products Sold" card: never more products sold than products. */
  lemma ProductsSoldAtMostProducts(products: seq<Product>, sales: seq<Sale>)
    ensures ProductsSold(Report(products, sales)) <= |products|
  {
  }

  /** Every sale refers to a product in the list. */
  ghost predicate NoOrphans(products: seq<Product>, sales: seq<Sale>)
  {
    forall k :: 0 <= k < |sales| ==> HasProduct(products, sales[k].productId)
  }

  // ---------------------------------------------------------------- footer

  /** Sum of the "Sold" column. */
  function SoldColumnTotal(rows: seq<ReportRow>): int
  {
    if rows == [] then 0 else rows[0].totalSold + SoldColumnTotal(rows[1..])
  }

  function InitialStockTotal(rows: seq<ReportRow>): int
  {
    if rows == [] then 0 else rows[0].initialStock + InitialStockTotal(rows[1..])
  }

  function CurrentStockTotal(rows: seq<ReportRow>): int
  {
    if rows == [] then 0 else rows[0].product.quantity + CurrentStockTotal(rows[1..])
  }

  /** The footer row: totals of Initial Stock, Current Stock and Sold. */
  datatype Footer = Footer(initialStock: int, currentStock: int, sold: int)

  /** The footer as written at Reporting.js:143-145: the "Sold" cell shows
      `totalSalesCount`, the number of sale records. On balanced rows it
      balances exactly when the units sold happen to equal that number. */
  function FooterAsWritten(rows: seq<ReportRow>, sales: seq<Sale>): (f: Footer)
    ensures (forall i :: 0 <= i < |rows| ==> rows[i].initialStock == rows[i].product.quantity + rows[i].totalSold) ==>
      (f.initialStock == f.currentStock + f.sold <==> SoldColumnTotal(rows) == |sales|)
  {
    var f := Footer(InitialStockTotal(rows), CurrentStockTotal(rows), TotalSalesCount(sales));
    if forall i :: 0 <= i < |rows| ==> rows[i].initialStock == rows[i].product.quantity + rows[i].totalSold
    then FooterIdentity(rows); f
    else f
  }

  /** The footer with the "Sold" cell totalling its column, like its two
      neighbours. Initial stock is then current stock plus units sold in the
      footer as in every row. */
  function ReportFooter(rows: seq<ReportRow>): (f: Footer)
    requires forall i :: 0 <= i < |rows| ==> rows[i].initialStock == rows[i].product.quantity + rows[i].totalSold
    ensures f.initialStock == f.currentStock + f.sold
  {
    FooterIdentity(rows);
    Footer(InitialStockTotal(rows), CurrentStockTotal(rows), SoldColumnTotal(rows))
  }

  lemma {:induction false} FooterIdentity(rows: seq<ReportRow>)
    requires forall i :: 0 <= i < |rows| ==> rows[i].initialStock == rows[i].product.quantity + rows[i].totalSold
    ensures InitialStockTotal(rows) == CurrentStockTotal(rows) + SoldColumnTotal(rows)
  {
    if rows != [] {
      FooterIdentity(rows[1..]);
    }
  }

  /** The rows of a report always satisfy the footer's precondition. */
  lemma ReportRowsBalanced(products: seq<Product>, sales: seq<Sale>)
    ensures var rows := Report(products, sales);
      forall i :: 0 <= i < |rows| ==> rows[i].initialStock == rows[i].product.quantity + rows[i].totalSold
  {
  }

  /** With unique product ids and no orphaned sale, the corrected "Sold"
      total is the number of units in all sales. */
  lemma {:induction false} SoldTotalIsAllUnits(products: seq<Product>, sales: seq<Sale>)
    requires UniqueProductIds(products) && NoOrphans(products, sales)
    ensures SoldColumnTotal(Report(products, sales)) == SumQuantities(sales)
  {
    if sales == [] {
      SoldTotalNoSales(products);
    } else {
      var s := sales[0];
      var rest := sales[1..];
      assert sales == [s] + rest;
      assert NoOrphans(products, rest) by {
        forall k | 0 <= k < |rest| ensures HasProduct(products, rest[k].productId) {
          assert rest[k] == sales[k + 1];
        }
      }
      SoldTotalIsAllUnits(products, rest);
      assert HasProduct(products, sales[0].productId);
      SoldTotalSplit(products, s, rest);
    }
  }

  lemma {:induction false} SoldTotalNoSales(products: seq<Product>)
    ensures SoldColumnTotal(Report(products, [])) == 0
  {
    if products != [] {
      SoldTotalNoSales(products[1..]);
    }
  }

  /** Peeling the first sale off: with unique ids it adds its quantity to
      the column once if its product is listed, and not at all otherwise. */
  lemma {:induction false} SoldTotalSplit(products: seq<Product>, s: Sale, rest: seq<Sale>)
    requires UniqueProductIds(products)
    ensures SoldColumnTotal(Report(products, [s] + rest))
         == SoldColumnTotal(Report(products, rest)) + if HasProduct(products, s.productId) then s.quantity else 0
  {
    if products != [] {
      var tail := products[1..];
      assert UniqueProductIds(tail) by {
        forall i, j | 0 <= i < j < |tail| ensures tail[i].id != tail[j].id {
          assert tail[i] == products[i + 1] && tail[j] == products[j + 1];
        }
      }
      SoldTotalSplit(tail, s, rest);
      TotalSoldConcat([s], rest, products[0].id);
      TotalSoldOne(s, products[0].id);
      if products[0].id == s.productId {
        assert !HasProduct(tail, s.productId) by {
          forall j | 0 <= j < |tail| ensures tail[j].id != s.productId {
            assert tail[j] == products[j + 1];
          }
        }
      } else if HasProduct(products, s.productId) {
        var j :| 0 <= j < |products| && products[j].id == s.productId;
        assert tail[j - 1].id == s.productId;
      } else {
        assert !HasProduct(tail, s.productId) by {
          forall j | 0 <= j < |tail| ensures tail[j].id != s.productId {
            assert tail[j] == products[j + 1];
          }
        }
      }
    }
  }

  /** One product, one sale of three units: the footer as written says 1
      under "Sold" while the column holds 3, and its Initial Stock total is
      not Current Stock plus Sold. */
  lemma FooterMismatch()
    ensures var p := Product("1", "Tea", "", "Beverages", "Hot Drinks", 5, 17, "", "t0");
      var sales := [Sale("2", "1", 3, 15, "d", 0)];
      var rows := Report([p], sales);
      var f := FooterAsWritten(rows, sales);
      f.sold == 1 && SoldColumnTotal(rows) == 3 && f.initialStock != f.currentStock + f.sold
  {
    var p := Product("1", "Tea", "", "Beverages", "Hot Drinks", 5, 17, "", "t0");
    var sales := [Sale("2", "1", 3, 15, "d", 0)];
    TotalSoldOne(sales[0], "1");
    var rows := Report([p], sales);
    assert rows == [ReportRow(p, 20, 3)];
    assert rows[1..] == [];
    assert InitialStockTotal(rows) == 20 + InitialStockTotal([]);
    assert CurrentStockTotal(rows) == 17 + CurrentStockTotal([]);
    assert SoldColumnTotal(rows) == 3 + SoldColumnTotal([]);
  }

  // --------------------------------------------------------- low stock table

  const LowStockThreshold := 10

  /** `products.filter(p => p.quantity < 10)` */
  function LowStockFilter(ps: seq<Product>): (r: seq<Product>)
    ensures forall p :: p in r <==> p in ps && p.quantity < LowStockThreshold
  {
    if ps == [] then []
    else (if ps[0].quantity < LowStockThreshold then [ps[0]] else []) + LowStockFilter(ps[1..])
  }

  /** Filtering two parts of the list and joining them is filtering the
      whole; with the one-product case this fixes order and multiplicity. */
  lemma {:induction false} LowStockFilterConcat(a: seq<Product>, b: seq<Product>)
    ensures LowStockFilter(a + b) == LowStockFilter(a) + LowStockFilter(b)
  {
    if a == [] {
      assert a + b == b;
    } else {
      assert (a + b)[1..] == a[1..] + b;
      LowStockFilterConcat(a[1..], b);
    }
  }

  /** A single product is kept exactly when its quantity is below ten. */
  lemma LowStockFilterOne(p: Product)
    ensures LowStockFilter([p]) == if p.quantity < LowStockThreshold then [p] else []
  {
    assert [p][1..] == [];
  }

  ghost predicate SortedByQuantity(r: seq<Product>)
  {
    forall i, j :: 0 <= i < j < |r| ==> r[i].quantity <= r[j].quantity
  }

  /** Places `p` in front of the first element whose quantity is not below
      its own. */
  function Insert(p: Product, s: seq<Product>): seq<Product>
  {
    if s == [] || p.quantity <= s[0].quantity then [p] + s
    else [s[0]] + Insert(p, s[1..])
  }

  lemma {:induction false} InsertPermutes(p: Product, s: seq<Product>)
    ensures multiset(Insert(p, s)) == multiset(s) + multiset{p}
  {
    if s != [] && p.quantity > s[0].quantity {
      InsertPermutes(p, s[1..]);
      assert s == [s[0]] + s[1..];
    }
  }

  lemma {:induction false} InsertSorted(p: Product, s: seq<Product>)
    requires SortedByQuantity(s)
    ensures SortedByQuantity(Insert(p, s))
  {
    if s != [] && p.quantity > s[0].quantity {
      var t := Insert(p, s[1..]);
      InsertSorted(p, s[1..]);
      InsertPermutes(p, s[1..]);
      forall j | 0 <= j < |t| ensures s[0].quantity <= t[j].quantity {
        assert t[j] in multiset(t);
        if t[j] != p {
          assert t[j] in multiset(s[1..]);
          var k :| 0 <= k < |s[1..]| && s[1..][k] == t[j];
          assert s[k + 1] == t[j];
        }
      }
      assert Insert(p, s) == [s[0]] + t;
    }
  }

  /** A stable sort by ascending quantity, as
      `sort((a, b) => a.quantity - b.quantity)` is. */
  function SortByQuantity(s: seq<Product>): (r: seq<Product>)
    ensures SortedByQuantity(r)
    ensures multiset(r) == multiset(s)
  {
    if s == [] then []
    else
      var t := SortByQuantity(s[1..]);
      InsertSorted(s[0], t);
      InsertPermutes(s[0], t);
      assert s == [s[0]] + s[1..];
      Insert(s[0], t)
  }

  /** The "Low Stock Alert" table: a rearrangement of the products whose
      quantity is below ten, by non-decreasing quantity. */
  function LowStockProducts(ps: seq<Product>): (r: seq<Product>)
    ensures SortedByQuantity(r)
    ensures multiset(r) == multiset(LowStockFilter(ps))
    ensures forall p :: p in r <==> p in ps && p.quantity < LowStockThreshold
  {
    var r := SortByQuantity(LowStockFilter(ps));
    assert forall p :: p in r <==> p in multiset(r);
    r
  }

  /** The products of one quantity, in the order they come. */
  function WithQuantity(s: seq<Product>, q: int): seq<Product>
  {
    if s == [] then [] else (if s[0].quantity == q then [s[0]] else []) + WithQuantity(s[1..], q)
  }

  lemma {:induction false} InsertStable(p: Product, s: seq<Product>, q: int)
    ensures WithQuantity(Insert(p, s), q) == (if p.quantity == q then [p] else []) + WithQuantity(s, q)
  {
    if s == [] || p.quantity <= s[0].quantity {
      WithQuantityCons(p, s, q);
    } else {
      var t := Insert(p, s[1..]);
      InsertStable(p, s[1..], q);
      assert Insert(p, s) == [s[0]] + t;
      WithQuantityCons(s[0], t, q);
      WithQuantityCons(s[0], s[1..], q);
      assert s == [s[0]] + s[1..];
      if p.quantity == q {
        assert WithQuantity(Insert(p, s), q) == [p] + WithQuantity(s[1..], q);
      } else {
        assert WithQuantity(Insert(p, s), q) == (if s[0].quantity == q then [s[0]] else []) + WithQuantity(s[1..], q);
      }
    }
  }

  lemma WithQuantityCons(x: Product, t: seq<Product>, q: int)
    ensures WithQuantity([x] + t, q) == (if x.quantity == q then [x] else []) + WithQuantity(t, q)
  {
    assert ([x] + t)[1..] == t;
  }

  lemma {:induction false} SortStable(s: seq<Product>, q: int)
    ensures WithQuantity(SortByQuantity(s), q) == WithQuantity(s, q)
  {
    if s != [] {
      SortStable(s[1..], q);
      InsertStable(s[0], SortByQuantity(s[1..]), q);
    }
  }

  /** Products of equal quantity keep their relative order in the table. */
  lemma LowStockStable(ps: seq<Product>, q: int)
    ensures WithQuantity(LowStockProducts(ps), q) == WithQuantity(LowStockFilter(ps), q)
  {
    SortStable(LowStockFilter(ps), q);
  }

  /** The "Status" column. */
  function StockStatus(quantity: int): (r: string)
    ensures r == "Out of Stock" <==> quantity == 0
    ensures r == "Low Stock" <==> quantity != 0
  {
    if quantity == 0 then "Out of Stock" else "Low Stock"
  }

  /** The "Action Needed" column. */
  function StockAction(quantity: int): (r: string)
    ensures r == "URGENT: Restock immediately" <==> quantity == 0
    ensures r == "Restock soon" <==> quantity != 0 && quantity < 3
    ensures r == "Monitor closely" <==> quantity >= 3
  {
    if quantity == 0 then "URGENT: Restock immediately"
    else if quantity < 3 then "Restock soon"
    else "Monitor closely"
  }

  /** For every product of the low stock table whose quantity is not
      negative: out of stock exactly at zero; restock soon at one or two;
      monitor closely from three to nine. */
  lemma LowStockClassification(ps: seq<Product>)
    ensures forall p :: p in LowStockProducts(ps) && p.quantity >= 0 ==>
      && (StockStatus(p.quantity) == "Out of Stock" <==> p.quantity == 0)
      && (StockStatus(p.quantity) == "Low Stock" <==> 1 <= p.quantity <= 9)
      && (StockAction(p.quantity) == "URGENT: Restock immediately" <==> p.quantity == 0)
      && (StockAction(p.quantity) == "Restock soon" <==> 1 <= p.quantity <= 2)
      && (StockAction(p.quantity) == "Monitor closely" <==> 3 <= p.quantity <= 9)
  {
  }
}
