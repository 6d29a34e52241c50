/** Properties of backend/server.js that relate several requests: round
    trips between creating and deleting a sale, what deleting a product does
    to the sales list, the stock that never goes negative under well-formed
    requests, and the report's initial stock that no sale request moves. */
module ServerProps {
  import opened Model
  import opened Api
  import Reporting

  // ------------------------------------------------------------ round trips

  /** Recording a sale under a fresh id and then deleting it gives back the
      document exactly as it was: the stock is restored and the sale gone. */
  lemma CreateThenDeleteSale(d: Doc, productId: string, quantity: int, total: int, stamp: SaleStamp)
    requires !HasSale(d.sales, stamp.id)
    requires CreateSale(d, productId, quantity, total, stamp, true).response.Ok?
    ensures var created := CreateSale(d, productId, quantity, total, stamp, true).doc;
      var o := DeleteSale(created, stamp.id, true);
      o.response == Ok(SaleDeleted) && o.doc == d
  {
    DeleteAppended(d, ProductIndex(d.products, productId).value, Stamped(productId, quantity, total, stamp),
                   CreateSale(d, productId, quantity, total, stamp, true).doc);
  }

  /** The document a sale appended against the product at i leaves,
      with that sale deleted again. */
  lemma DeleteAppended(d: Doc, i: nat, sale: Sale, created: Doc)
    requires !HasSale(d.sales, sale.id) && ProductIndex(d.products, sale.productId) == Some(i)
    requires created == Doc(d.products[i := d.products[i].(quantity := d.products[i].quantity - sale.quantity)],
                            d.sales + [sale])
    ensures DeleteSale(created, sale.id, true) == Outcome(d, Ok(SaleDeleted))
  {
    SaleIndexAppendFresh(d.sales, sale);
    IndexAfterUpdate(d.products, i, created.products[i], sale.productId);
    DeleteSaleAt(created, sale.id, |d.sales|, i, d.products[i]);
    assert created.sales[..|d.sales|] + created.sales[|d.sales| + 1..] == d.sales;
    assert created.products[i := d.products[i]] == d.products;
  }

  /** Deleting the sale at k whose product sits at i, with the product's
      restored record named. */
  lemma DeleteSaleAt(d: Doc, saleId: string, k: nat, i: nat, restored: Product)
    requires SaleIndex(d.sales, saleId) == Some(k)
    requires ProductIndex(d.products, d.sales[k].productId) == Some(i)
    requires restored == d.products[i].(quantity := d.products[i].quantity + d.sales[k].quantity)
    ensures DeleteSale(d, saleId, true).doc == Doc(d.products[i := restored], d.sales[..k] + d.sales[k + 1..])
  {
  }

  /** Editing the sale at k whose product sits at i. */
  lemma UpdateSaleAt(d: Doc, saleId: string, quantity: int, total: int, k: nat, i: nat)
    requires UpdateSale(d, saleId, quantity, total, true).response.Ok?
    requires SaleIndex(d.sales, saleId) == Some(k)
    requires ProductIndex(d.products, d.sales[k].productId) == Some(i)
    ensures UpdateSale(d, saleId, quantity, total, true).doc
         == Doc(d.products[i := d.products[i].(quantity := d.products[i].quantity - (quantity - d.sales[k].quantity))],
                d.sales[k := d.sales[k].(quantity := quantity, total := total)])
  {
  }

  /** Deleting a sale after editing it leaves the same document as deleting
      it straight away: the edit's stock change is undone by the larger or
      smaller restoration. */
  lemma UpdateThenDeleteSale(d: Doc, saleId: string, quantity: int, total: int)
    requires UpdateSale(d, saleId, quantity, total, true).response.Ok?
    ensures DeleteSale(UpdateSale(d, saleId, quantity, total, true).doc, saleId, true).doc
         == DeleteSale(d, saleId, true).doc
  {
    var k := SaleIndex(d.sales, saleId).value;
    var i := ProductIndex(d.products, d.sales[k].productId).value;
    UpdateSaleAt(d, saleId, quantity, total, k, i);
    DeleteAfterEdit(d, UpdateSale(d, saleId, quantity, total, true).doc, saleId, quantity, total, k, i);
  }

  /** The document an edit of the sale at k leaves, deleted again. */
  lemma DeleteAfterEdit(d: Doc, edited: Doc, saleId: string, quantity: int, total: int, k: nat, i: nat)
    requires SaleIndex(d.sales, saleId) == Some(k)
    requires ProductIndex(d.products, d.sales[k].productId) == Some(i)
    requires edited == Doc(d.products[i := d.products[i].(quantity := d.products[i].quantity - (quantity - d.sales[k].quantity))],
                           d.sales[k := d.sales[k].(quantity := quantity, total := total)])
    ensures DeleteSale(edited, saleId, true).doc == DeleteSale(d, saleId, true).doc
  {
    var restored := d.products[i].(quantity := d.products[i].quantity + d.sales[k].quantity);
    DeleteEdited(d, edited, saleId, quantity, total, k, i, restored);
    DeleteSaleAt(d, saleId, k, i, restored);
  }

  /** Deleting the edited sale restores the product as deleting the
      unedited one would. */
  lemma DeleteEdited(d: Doc, edited: Doc, saleId: string, quantity: int, total: int, k: nat, i: nat, restored: Product)
    requires SaleIndex(d.sales, saleId) == Some(k)
    requires ProductIndex(d.products, d.sales[k].productId) == Some(i)
    requires edited == Doc(d.products[i := d.products[i].(quantity := d.products[i].quantity - (quantity - d.sales[k].quantity))],
                           d.sales[k := d.sales[k].(quantity := quantity, total := total)])
    requires restored == d.products[i].(quantity := d.products[i].quantity + d.sales[k].quantity)
    ensures DeleteSale(edited, saleId, true).doc == Doc(d.products[i := restored], d.sales[..k] + d.sales[k + 1..])
  {
    var s' := d.sales[k].(quantity := quantity, total := total);
    SaleIndexAfterUpdate(d.sales, k, s', saleId);
    IndexAfterUpdate(d.products, i, edited.products[i], d.sales[k].productId);
    SpliceAfterUpdate(d.sales, k, s');
    UpdateTwice(d.products, i, edited.products[i], restored);
    DeleteSaleAt(edited, saleId, k, i, restored);
  }

  lemma SpliceAfterUpdate<T>(xs: seq<T>, k: nat, x: T)
    requires k < |xs|
    ensures xs[k := x][..k] + xs[k := x][k + 1..] == xs[..k] + xs[k + 1..]
  {
    assert xs[k := x][..k] == xs[..k];
    assert xs[k := x][k + 1..] == xs[k + 1..];
  }

  lemma UpdateTwice<T>(xs: seq<T>, i: nat, a: T, b: T)
    requires i < |xs|
    ensures xs[i := a][i := b] == xs[i := b]
  {
  }

  /** The sale a successful POST /api/sales returns is the entry
      GET /api/sales then lists last. */
  lemma CreatedSaleIsListed(d: Doc, productId: string, quantity: int, total: int, stamp: SaleStamp)
    requires CreateSale(d, productId, quantity, total, stamp, true).response.Ok?
    ensures var o := CreateSale(d, productId, quantity, total, stamp, true);
      var listed := ListSales(o.doc);
      |listed| == |d.sales| + 1 && listed[|d.sales|] == o.response.value
      && listed[..|d.sales|] == ListSales(d.(products := o.doc.products))
  {
  }

  /** A product created under a fresh id is found by that id, at the end of
      the list, and it is the only record carrying the id. */
  lemma CreatedProductIsListed(d: Doc, b: ProductBody, id: string, createdAt: string)
    requires RequiredPresent(b) && !HasProduct(d.products, id)
    ensures var o := CreateProduct(d, b, id, createdAt, true);
      && FindProduct(o.doc.products, id) == Some(o.response.value)
      && ProductIndex(o.doc.products, id) == Some(|d.products|)
      && forall j :: 0 <= j < |o.doc.products| && o.doc.products[j].id == id ==> j == |d.products|
  {
    var o := CreateProduct(d, b, id, createdAt, true);
    ProductIndexAppendFresh(d.products, o.response.value);
  }

  /** The required-field check is JavaScript truthiness: a price or a
      quantity of 0 is refused as missing, whatever else the body holds. */
  lemma ZeroRefusedAsMissing(d: Doc, b: ProductBody, id: string, createdAt: string, saved: bool)
    requires b.price == 0 || b.quantity == 0 || b.name == ""
    ensures !RequiredPresent(b)
    ensures CreateProduct(d, b, id, createdAt, saved) == Outcome(d, Err(MissingFields))
  {
  }

  /** Sending the same edit twice leaves what sending it once did: the
      merged record is found again under its id and merges to itself. */
  lemma UpdateProductTwice(d: Doc, id: string, b: ProductBody)
    ensures var once := UpdateProduct(d, id, b, true);
      UpdateProduct(once.doc, id, b, true) == once
  {
    var once := UpdateProduct(d, id, b, true);
    if HasProduct(d.products, id) {
      var i := ProductIndex(d.products, id).value;
      var p := Merge(d.products[i], b);
      IndexAfterUpdate(d.products, i, p, id);
      assert Merge(p, b) == p;
      assert once.doc.products[i := p] == once.doc.products;
    }
  }

  /** Deleting a product (ids unique) leaves every sale in place, and each
      sale that referred to it is then listed as "Unknown Product" with no
      image and a price of 0. */
  lemma DeleteProductOrphansSales(d: Doc, id: string)
    requires UniqueProductIds(d.products) && HasProduct(d.products, id)
    ensures var o := DeleteProduct(d, id, true);
      && o.doc.sales == d.sales
      && forall k :: 0 <= k < |d.sales| && d.sales[k].productId == id ==>
           var e := ListSales(o.doc)[k];
           e.sale == d.sales[k] && e.productName == UnknownProduct && e.productImage == "" && e.price == 0
  {
    var i := ProductIndex(d.products, id).value;
    var rest := d.products[..i] + d.products[i + 1..];
    assert !HasProduct(rest, id) by {
      forall j | 0 <= j < |rest| ensures rest[j].id != id {
        if j < i {
          assert rest[j] == d.products[j];
        } else {
          assert rest[j] == d.products[j + 1];
        }
      }
    }
  }

  // --------------------------------------------------- non-negative stock

  /** The requests the server routes, without their persistence outcome. */
  datatype Request =
    | PostProduct(body: ProductBody, id: string, createdAt: string)
    | PutProduct(id: string, body: ProductBody)
    | RemoveProduct(id: string)
    | PostSale(productId: string, quantity: int, total: int, stamp: SaleStamp)
    | PutSale(saleId: string, quantity: int, total: int)
    | RemoveSale(saleId: string)
    | PostAdjustment(productId: string, kind: string, n: int)

  /** A request and whether its writeData succeeded. */
  datatype Call = Call(request: Request, saved: bool)

  /** The document after one request. */
  function Apply(d: Doc, c: Call): Doc
  {
    match c.request
    case PostProduct(b, id, createdAt) => CreateProduct(d, b, id, createdAt, c.saved).doc
    case PutProduct(id, b) => UpdateProduct(d, id, b, c.saved).doc
    case RemoveProduct(id) => DeleteProduct(d, id, c.saved).doc
    case PostSale(pid, q, t, stamp) => CreateSale(d, pid, q, t, stamp, c.saved).doc
    case PutSale(sid, q, t) => UpdateSale(d, sid, q, t, c.saved).doc
    case RemoveSale(sid) => DeleteSale(d, sid, c.saved).doc
    case PostAdjustment(pid, kind, n) => AdjustStock(d, pid, kind, n, c.saved).doc
  }

  /** The document after a sequence of requests, one after the other. */
  function Run(d: Doc, calls: seq<Call>): Doc
    decreases |calls|
  {
    if calls == [] then d else Run(Apply(d, calls[0]), calls[1..])
  }

  /** Every quantity a request brings in is at least zero. */
  predicate NonNegativeRequest(r: Request)
  {
    match r
    case PostProduct(b, _, _) => b.quantity >= 0
    case PutProduct(_, b) => b.quantity >= 0
    case RemoveProduct(_) => true
    case PostSale(_, q, _, _) => q >= 0
    case PutSale(_, q, _) => q >= 0
    case RemoveSale(_) => true
    case PostAdjustment(_, kind, n) => kind == "add" ==> n >= 0
  }

  /** No product has negative stock and no sale a negative quantity. */
  ghost predicate Stocked(d: Doc)
  {
    && (forall p :: p in d.products ==> p.quantity >= 0)
    && (forall s :: s in d.sales ==> s.quantity >= 0)
  }

  lemma UpdatedIn<T>(xs: seq<T>, i: nat, x: T)
    requires i < |xs|
    ensures forall y :: y in xs[i := x] ==> y == x || y in xs
  {
    forall y | y in xs[i := x] ensures y == x || y in xs {
      var j :| 0 <= j < |xs[i := x]| && xs[i := x][j] == y;
      if j != i {
        assert xs[j] == y;
      }
    }
  }

  lemma SplicedIn<T>(xs: seq<T>, i: nat)
    requires i < |xs|
    ensures forall y :: y in xs[..i] + xs[i + 1..] ==> y in xs
  {
    forall y | y in xs[..i] + xs[i + 1..] ensures y in xs {
      if y in xs[..i] {
        var j :| 0 <= j < i && xs[..i][j] == y;
        assert xs[j] == y;
      } else {
        var j :| 0 <= j < |xs[i + 1..]| && xs[i + 1..][j] == y;
        assert xs[i + 1 + j] == y;
      }
    }
  }

  /** One request with non-negative quantities keeps every stock level and
      every sale quantity at or above zero: sales are refused when stock is
      short, an edit only draws what is there, and a deduction clamps at 0. */
  lemma ApplyKeepsStocked(d: Doc, c: Call)
    requires Stocked(d) && NonNegativeRequest(c.request)
    ensures Stocked(Apply(d, c))
  {
    match c.request
    case PostProduct(b, id, createdAt) =>
    case PutProduct(id, b) =>
      if UpdateProduct(d, id, b, c.saved).response.Ok? {
        UpdatedIn(d.products, ProductIndex(d.products, id).value, UpdateProduct(d, id, b, c.saved).response.value);
      }
    case RemoveProduct(id) =>
      if DeleteProduct(d, id, c.saved).response.Ok? {
        SplicedIn(d.products, ProductIndex(d.products, id).value);
      }
    case PostSale(pid, q, t, stamp) => PostSaleKeepsStocked(d, pid, q, t, stamp, c.saved);
    case PutSale(sid, q, t) => PutSaleKeepsStocked(d, sid, q, t, c.saved);
    case RemoveSale(sid) => RemoveSaleKeepsStocked(d, sid, c.saved);
    case PostAdjustment(pid, kind, n) =>
      if AdjustStock(d, pid, kind, n, c.saved).response.Ok? {
        UpdatedIn(d.products, ProductIndex(d.products, pid).value, AdjustStock(d, pid, kind, n, c.saved).response.value);
      }
  }

  /** The document with the product at i and the sales replaced. */
  lemma ReplacedStocked(d: Doc, i: nat, p: Product, sales: seq<Sale>, after: Doc)
    requires Stocked(d) && i < |d.products| && p.quantity >= 0
    requires forall s :: s in sales ==> s.quantity >= 0
    requires after == Doc(d.products[i := p], sales)
    ensures Stocked(after)
  {
    UpdatedIn(d.products, i, p);
  }

  lemma PostSaleKeepsStocked(d: Doc, pid: string, q: int, t: int, stamp: SaleStamp, saved: bool)
    requires Stocked(d) && q >= 0
    ensures Stocked(CreateSale(d, pid, q, t, stamp, saved).doc)
  {
    if CreateSale(d, pid, q, t, stamp, saved).response.Ok? {
      var i := ProductIndex(d.products, pid).value;
      ReplacedStocked(d, i, d.products[i].(quantity := d.products[i].quantity - q),
                      d.sales + [Stamped(pid, q, t, stamp)], CreateSale(d, pid, q, t, stamp, saved).doc);
    }
  }

  lemma PutSaleKeepsStocked(d: Doc, sid: string, q: int, t: int, saved: bool)
    requires Stocked(d) && q >= 0
    ensures Stocked(UpdateSale(d, sid, q, t, saved).doc)
  {
    if UpdateSale(d, sid, q, t, saved).response.Ok? {
      var k := SaleIndex(d.sales, sid).value;
      var s := d.sales[k];
      var i := ProductIndex(d.products, s.productId).value;
      assert s in d.sales && d.products[i] in d.products;
      UpdatedIn(d.sales, k, s.(quantity := q, total := t));
      ReplacedStocked(d, i, d.products[i].(quantity := d.products[i].quantity - (q - s.quantity)),
                      d.sales[k := s.(quantity := q, total := t)], UpdateSale(d, sid, q, t, saved).doc);
    }
  }

  lemma RemoveSaleKeepsStocked(d: Doc, sid: string, saved: bool)
    requires Stocked(d)
    ensures Stocked(DeleteSale(d, sid, saved).doc)
  {
    if DeleteSale(d, sid, saved).response.Ok? {
      var k := SaleIndex(d.sales, sid).value;
      var s := d.sales[k];
      assert s in d.sales;
      SplicedIn(d.sales, k);
      if HasProduct(d.products, s.productId) {
        var i := ProductIndex(d.products, s.productId).value;
        ReplacedStocked(d, i, d.products[i].(quantity := d.products[i].quantity + s.quantity),
                        d.sales[..k] + d.sales[k + 1..], DeleteSale(d, sid, saved).doc);
      }
    }
  }

  /** Any sequence of requests with non-negative quantities, each persisted
      or not, keeps every product's stock at or above zero. */
  lemma {:induction false} RunKeepsStocked(d: Doc, calls: seq<Call>)
    requires Stocked(d)
    requires forall k :: 0 <= k < |calls| ==> NonNegativeRequest(calls[k].request)
    ensures Stocked(Run(d, calls))
    ensures forall p :: p in Run(d, calls).products ==> p.quantity >= 0
    decreases |calls|
  {
    if calls != [] {
      ApplyKeepsStocked(d, calls[0]);
      RunKeepsStocked(Apply(d, calls[0]), calls[1..]);
    }
  }

  // ---------------------------------------- initial stock in the report

  /** The report's "Initial Stock" column. */
  ghost predicate SameInitialStock(before: Doc, after: Doc)
  {
    && |after.products| == |before.products|
    && forall j :: 0 <= j < |before.products| ==>
         Reporting.Report(after.products, after.sales)[j].initialStock
         == Reporting.Report(before.products, before.sales)[j].initialStock
  }

  /** The initial stock compared product by product. */
  lemma SameInitialStockByRow(before: Doc, after: Doc)
    requires |after.products| == |before.products|
    requires forall j :: 0 <= j < |before.products| ==>
      after.products[j].quantity + Reporting.TotalSold(after.sales, after.products[j].id)
      == before.products[j].quantity + Reporting.TotalSold(before.sales, before.products[j].id)
    ensures SameInitialStock(before, after)
  {
  }

  /** A sale appended against the product at i, whose stock drops by the
      sale's quantity. */
  lemma AppendKeepsInitialStock(d: Doc, i: nat, sale: Sale, created: Doc)
    requires UniqueProductIds(d.products) && i < |d.products| && d.products[i].id == sale.productId
    requires created == Doc(d.products[i := d.products[i].(quantity := d.products[i].quantity - sale.quantity)],
                            d.sales + [sale])
    ensures SameInitialStock(d, created)
  {
    var ps := d.products[i := d.products[i].(quantity := d.products[i].quantity - sale.quantity)];
    forall j | 0 <= j < |d.products|
      ensures ps[j].quantity + Reporting.TotalSold(d.sales + [sale], ps[j].id)
           == d.products[j].quantity + Reporting.TotalSold(d.sales, d.products[j].id)
    {
      Reporting.TotalSoldConcat(d.sales, [sale], d.products[j].id);
      Reporting.TotalSoldOne(sale, d.products[j].id);
      assert j != i ==> d.products[j].id != sale.productId;
    }
    SameInitialStockByRow(d, Doc(ps, d.sales + [sale]));
  }

  /** With unique product ids, recording a sale moves units from a product's
      stock to its sold count and leaves its initial stock where it was. */
  lemma CreateSaleKeepsInitialStock(d: Doc, productId: string, quantity: int, total: int, stamp: SaleStamp, saved: bool)
    requires UniqueProductIds(d.products)
    ensures SameInitialStock(d, CreateSale(d, productId, quantity, total, stamp, saved).doc)
  {
    if CreateSale(d, productId, quantity, total, stamp, saved).response.Ok? {
      AppendKeepsInitialStock(d, ProductIndex(d.products, productId).value, Stamped(productId, quantity, total, stamp),
                              CreateSale(d, productId, quantity, total, stamp, saved).doc);
    }
  }

  /** The sales list split around position k. */
  lemma SplitAt(ss: seq<Sale>, k: nat)
    requires k < |ss|
    ensures ss == ss[..k] + [ss[k]] + ss[k + 1..]
  {
  }

  /** Sold count of a product after the sale at k is replaced by s'. */
  lemma TotalSoldReplace(ss: seq<Sale>, k: nat, s': Sale, id: string)
    requires k < |ss|
    ensures Reporting.TotalSold(ss[k := s'], id)
         == Reporting.TotalSold(ss, id)
            - Reporting.TotalSold([ss[k]], id) + Reporting.TotalSold([s'], id)
  {
    SplitAt(ss, k);
    assert ss[k := s'] == ss[..k] + [s'] + ss[k + 1..];
    Reporting.TotalSoldConcat(ss[..k] + [ss[k]], ss[k + 1..], id);
    Reporting.TotalSoldConcat(ss[..k], [ss[k]], id);
    Reporting.TotalSoldConcat(ss[..k] + [s'], ss[k + 1..], id);
    Reporting.TotalSoldConcat(ss[..k], [s'], id);
  }

  /** Sold count of a product after the sale at k is removed. */
  lemma TotalSoldRemove(ss: seq<Sale>, k: nat, id: string)
    requires k < |ss|
    ensures Reporting.TotalSold(ss[..k] + ss[k + 1..], id)
         == Reporting.TotalSold(ss, id) - Reporting.TotalSold([ss[k]], id)
  {
    SplitAt(ss, k);
    Reporting.TotalSoldConcat(ss[..k] + [ss[k]], ss[k + 1..], id);
    Reporting.TotalSoldConcat(ss[..k], [ss[k]], id);
    Reporting.TotalSoldConcat(ss[..k], ss[k + 1..], id);
  }

  /** The sale at k replaced by s' of the same product, whose stock at i
      takes the difference. */
  lemma EditKeepsInitialStock(d: Doc, k: nat, i: nat, s': Sale, edited: Doc)
    requires UniqueProductIds(d.products) && k < |d.sales| && i < |d.products|
    requires d.products[i].id == d.sales[k].productId && s'.productId == d.sales[k].productId
    requires edited == Doc(d.products[i := d.products[i].(quantity := d.products[i].quantity - (s'.quantity - d.sales[k].quantity))],
                           d.sales[k := s'])
    ensures SameInitialStock(d, edited)
  {
    var s := d.sales[k];
    var ps := d.products[i := d.products[i].(quantity := d.products[i].quantity - (s'.quantity - s.quantity))];
    forall j | 0 <= j < |d.products|
      ensures ps[j].quantity + Reporting.TotalSold(d.sales[k := s'], ps[j].id)
           == d.products[j].quantity + Reporting.TotalSold(d.sales, d.products[j].id)
    {
      TotalSoldReplace(d.sales, k, s', d.products[j].id);
      Reporting.TotalSoldOne(s, d.products[j].id);
      Reporting.TotalSoldOne(s', d.products[j].id);
      assert j != i ==> d.products[j].id != s.productId;
    }
    SameInitialStockByRow(d, Doc(ps, d.sales[k := s']));
  }

  /** Editing a sale shifts the quantity difference between stock and sold
      count of the same product. */
  lemma UpdateSaleKeepsInitialStock(d: Doc, saleId: string, quantity: int, total: int, saved: bool)
    requires UniqueProductIds(d.products)
    ensures SameInitialStock(d, UpdateSale(d, saleId, quantity, total, saved).doc)
  {
    if UpdateSale(d, saleId, quantity, total, saved).response.Ok? {
      UpdateSaleOkKeepsInitialStock(d, saleId, quantity, total);
    }
  }

  lemma UpdateSaleOkKeepsInitialStock(d: Doc, saleId: string, quantity: int, total: int)
    requires UniqueProductIds(d.products)
    requires UpdateSale(d, saleId, quantity, total, true).response.Ok?
    ensures SameInitialStock(d, UpdateSale(d, saleId, quantity, total, true).doc)
  {
    var k := SaleIndex(d.sales, saleId).value;
    var i := ProductIndex(d.products, d.sales[k].productId).value;
    EditKeepsInitialStock(d, k, i, d.sales[k].(quantity := quantity, total := total), UpdateSale(d, saleId, quantity, total, true).doc);
  }

  /** The sale at k removed, its units given back to the product at i. */
  lemma RestockKeepsInitialStock(d: Doc, k: nat, i: nat, after: Doc)
    requires UniqueProductIds(d.products) && k < |d.sales| && i < |d.products|
    requires d.products[i].id == d.sales[k].productId
    requires after == Doc(d.products[i := d.products[i].(quantity := d.products[i].quantity + d.sales[k].quantity)],
                          d.sales[..k] + d.sales[k + 1..])
    ensures SameInitialStock(d, after)
  {
    var s := d.sales[k];
    var ps := d.products[i := d.products[i].(quantity := d.products[i].quantity + s.quantity)];
    forall j | 0 <= j < |d.products|
      ensures ps[j].quantity + Reporting.TotalSold(d.sales[..k] + d.sales[k + 1..], ps[j].id)
           == d.products[j].quantity + Reporting.TotalSold(d.sales, d.products[j].id)
    {
      TotalSoldRemove(d.sales, k, d.products[j].id);
      Reporting.TotalSoldOne(s, d.products[j].id);
      assert j != i ==> d.products[j].id != s.productId;
    }
    SameInitialStockByRow(d, Doc(ps, d.sales[..k] + d.sales[k + 1..]));
  }

  /** The sale at k, whose product is gone, removed. */
  lemma OrphanKeepsInitialStock(d: Doc, k: nat, after: Doc)
    requires k < |d.sales| && !HasProduct(d.products, d.sales[k].productId)
    requires after == Doc(d.products, d.sales[..k] + d.sales[k + 1..])
    ensures SameInitialStock(d, after)
  {
    var s := d.sales[k];
    forall j | 0 <= j < |d.products|
      ensures d.products[j].quantity + Reporting.TotalSold(d.sales[..k] + d.sales[k + 1..], d.products[j].id)
           == d.products[j].quantity + Reporting.TotalSold(d.sales, d.products[j].id)
    {
      TotalSoldRemove(d.sales, k, d.products[j].id);
      Reporting.TotalSoldOne(s, d.products[j].id);
    }
    SameInitialStockByRow(d, Doc(d.products, d.sales[..k] + d.sales[k + 1..]));
  }

  /** Deleting a sale gives its units back to the stock they were counted
      against; a sale of a deleted product changes no row. */
  lemma DeleteSaleKeepsInitialStock(d: Doc, saleId: string, saved: bool)
    requires UniqueProductIds(d.products)
    ensures SameInitialStock(d, DeleteSale(d, saleId, saved).doc)
  {
    if DeleteSale(d, saleId, saved).response.Ok? {
      var k := SaleIndex(d.sales, saleId).value;
      if HasProduct(d.products, d.sales[k].productId) {
        RestockKeepsInitialStock(d, k, ProductIndex(d.products, d.sales[k].productId).value, DeleteSale(d, saleId, saved).doc);
      } else {
        OrphanKeepsInitialStock(d, k, DeleteSale(d, saleId, saved).doc);
      }
    }
  }

  // -------------------------------------------------------------- scenarios

  /** A fresh store: "Tea" with 20 in stock, then a sale of 3 for 15. The
      stock becomes 17 and the sales list shows one "Tea" entry. */
  lemma TeaScenario()
    ensures var body := ProductBody("Tea", None, "Beverages", "Hot Drinks", 5, 20, None);
      var created := CreateProduct(Doc([], []), body, "p1", "t0", true);
      var sold := CreateSale(created.doc, "p1", 3, 15, SaleStamp("s1", "d1", 1), true);
      && sold.response.Ok?
      && sold.doc.products[0].quantity == 17
      && |ListSales(sold.doc)| == 1 && ListSales(sold.doc)[0].productName == "Tea"
  {
    var body := ProductBody("Tea", None, "Beverages", "Hot Drinks", 5, 20, None);
    var created := CreateProduct(Doc([], []), body, "p1", "t0", true);
    assert HasProduct(created.doc.products, "p1") by {
      assert created.doc.products[0].id == "p1";
    }
  }

  /** Deducting 100 from a stock of 5 leaves 0, without an error. */
  lemma DeductClampsScenario(p: Product)
    requires p.quantity == 5
    ensures var o := AdjustStock(Doc([p], []), p.id, "deduct", 100, true);
      o.response.Ok? && o.response.value.quantity == 0
  {
    assert HasProduct([p], p.id) by {
      assert [p][0].id == p.id;
    }
  }
}
