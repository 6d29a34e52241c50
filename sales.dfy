/** The Sales page of the frontend: the quantities typed next to each product
    (`sellQuantities`), the bulk sale that validates every selected line
    before posting any of them, the local stock update after a full success,
    and the revenue preview. The POST of each line is the server's own
    create-sale operation on the same store. */
module SalesPage {
  import opened Model
  import Api
  import Server

  // -------------------------------------------------------------- selection

  /** One key of `sellQuantities` with its number, in `Object.entries` order. */
  datatype Entry = Entry(id: string, quantity: int)

  /** The keys of a JavaScript object are distinct. */
  ghost predicate DistinctKeys(entries: seq<Entry>)
  {
    forall i, j :: 0 <= i < j < |entries| ==> entries[i].id != entries[j].id
  }

  ghost predicate HasKey(entries: seq<Entry>, id: string)
  {
    exists k :: 0 <= k < |entries| && entries[k].id == id
  }

  /** `sellQuantities[id] || 0`. */
  function SellQuantity(entries: seq<Entry>, id: string): (r: int)
    ensures !HasKey(entries, id) ==> r == 0
    ensures DistinctKeys(entries) ==>
      forall k :: 0 <= k < |entries| && entries[k].id == id ==> r == entries[k].quantity
  {
    if |entries| == 0 then 0
    else if entries[0].id == id then entries[0].quantity
    else
      var r := SellQuantity(entries[1..], id);
      assert forall k :: 1 <= k < |entries| ==> entries[k] == entries[1..][k - 1];
      r
  }

  /** handleSellChange: `{ ...prev, [id]: Number(value) }`. A key already
      present keeps its place; a new key goes last. */
  function SetSellQuantity(entries: seq<Entry>, id: string, v: int): (r: seq<Entry>)
    ensures SellQuantity(r, id) == v
    ensures forall other :: other != id ==> SellQuantity(r, other) == SellQuantity(entries, other)
    ensures |r| == if HasKey(entries, id) then |entries| else |entries| + 1
    ensures forall k :: 0 <= k < |r| ==> r[k].id == id || r[k] in entries
  {
    if |entries| == 0 then [Entry(id, v)]
    else if entries[0].id == id then [Entry(id, v)] + entries[1..]
    else
      var rest := SetSellQuantity(entries[1..], id, v);
      HasKeyPastHead(entries, id);
      assert ([entries[0]] + rest)[1..] == rest;
      [entries[0]] + rest
  }

  /** The updated object still has distinct keys. */
  lemma {:induction false} SetKeepsDistinctKeys(entries: seq<Entry>, id: string, v: int)
    requires DistinctKeys(entries)
    ensures DistinctKeys(SetSellQuantity(entries, id, v))
  {
    var r := SetSellQuantity(entries, id, v);
    if |entries| > 0 && entries[0].id == id {
      forall a, b | 0 <= a < b < |r| ensures r[a].id != r[b].id {
        assert r[a].id == entries[a].id && r[b].id == entries[b].id;
      }
    } else if |entries| > 0 {
      var rest := SetSellQuantity(entries[1..], id, v);
      forall a, b | 0 <= a < b < |entries| - 1 ensures entries[1..][a].id != entries[1..][b].id {
        assert entries[1..][a] == entries[a + 1] && entries[1..][b] == entries[b + 1];
      }
      SetKeepsDistinctKeys(entries[1..], id, v);
      forall k | 0 <= k < |rest| ensures rest[k].id != entries[0].id {
        if rest[k].id != id {
          var j :| 0 <= j < |entries[1..]| && entries[1..][j] == rest[k];
          assert entries[j + 1] == rest[k];
        }
      }
      forall a, b | 0 <= a < b < |r| ensures r[a].id != r[b].id {
        assert r[b] == rest[b - 1];
        if a > 0 {
          assert r[a] == rest[a - 1];
        }
      }
    }
  }

  /** Where the new value lands: over the old entry of the same key, the
      others in place, or after all of them when the key is new. */
  lemma {:induction false} SetSellQuantityPlaces(entries: seq<Entry>, id: string, v: int)
    requires DistinctKeys(entries)
    ensures HasKey(entries, id) ==>
      var r := SetSellQuantity(entries, id, v);
      |r| == |entries| &&
      forall k :: 0 <= k < |entries| ==> r[k] == if entries[k].id == id then Entry(id, v) else entries[k]
    ensures !HasKey(entries, id) ==> SetSellQuantity(entries, id, v) == entries + [Entry(id, v)]
  {
    if |entries| > 0 {
      var r := SetSellQuantity(entries, id, v);
      if entries[0].id == id {
        forall k | 0 < k < |entries| ensures entries[k].id != id {
          assert entries[0].id != entries[k].id;
        }
      } else {
        var rest := SetSellQuantity(entries[1..], id, v);
        HasKeyPastHead(entries, id);
        TailDistinct(entries);
        SetSellQuantityPlaces(entries[1..], id, v);
        assert r == [entries[0]] + rest;
        if HasKey(entries, id) {
          forall k | 0 < k < |entries|
            ensures r[k] == if entries[k].id == id then Entry(id, v) else entries[k]
          {
            assert r[k] == rest[k - 1] && entries[1..][k - 1] == entries[k];
          }
        } else {
          assert entries == [entries[0]] + entries[1..];
        }
      }
    }
  }

  /** A key other than the first is a key of the rest. */
  lemma HasKeyPastHead(entries: seq<Entry>, id: string)
    requires |entries| > 0 && entries[0].id != id
    ensures HasKey(entries, id) <==> HasKey(entries[1..], id)
  {
    if HasKey(entries, id) {
      var k :| 0 <= k < |entries| && entries[k].id == id;
      assert entries[1..][k - 1] == entries[k];
    }
    if HasKey(entries[1..], id) {
      var k :| 0 <= k < |entries[1..]| && entries[1..][k].id == id;
      assert entries[k + 1] == entries[1..][k];
    }
  }

  /** One selected line: the product `find` returned, and the quantity. */
  datatype Line = Line(product: Option<Product>, quantity: int)

  /** `Object.entries(sellQuantities).filter(([id, q]) => q > 0)
      .map(([id, q]) => ({ product: products.find(...), quantity: q }))`. */
  function SelectLines(entries: seq<Entry>, products: seq<Product>): (r: seq<Line>)
    ensures |r| <= |entries|
    ensures |r| == 0 <==> forall k :: 0 <= k < |entries| ==> entries[k].quantity <= 0
    ensures forall k :: 0 <= k < |r| ==> r[k].quantity > 0
  {
    if |entries| == 0 then []
    else
      var rest := SelectLines(entries[1..], products);
      assert forall k :: 1 <= k < |entries| ==> entries[k] == entries[1..][k - 1];
      if entries[0].quantity > 0 then
        var r := [Line(FindProduct(products, entries[0].id), entries[0].quantity)] + rest;
        assert forall k :: 1 <= k < |r| ==> r[k] == rest[k - 1];
        r
      else rest
  }

  /** Every entry with a positive quantity has its line in the selection. */
  lemma {:induction false} SelectLinesCovers(entries: seq<Entry>, products: seq<Product>)
    ensures forall e :: e in entries && e.quantity > 0 ==> Line(FindProduct(products, e.id), e.quantity) in SelectLines(entries, products)
  {
    if |entries| > 0 {
      var rest := SelectLines(entries[1..], products);
      SelectLinesCovers(entries[1..], products);
      SelectLinesHead(entries, products, rest);
      assert forall e :: e in entries ==> e == entries[0] || e in entries[1..];
    }
  }

  /** Selecting from two runs of entries is selecting from each in turn:
      with the one-entry case this fixes the lines and their order. */
  lemma {:induction false} SelectLinesConcat(a: seq<Entry>, b: seq<Entry>, products: seq<Product>)
    ensures SelectLines(a + b, products) == SelectLines(a, products) + SelectLines(b, products)
  {
    if |a| == 0 {
      assert a + b == b;
    } else {
      SelectLinesConcat(a[1..], b, products);
      SelectLinesConcatStep(a, b, products);
    }
  }

  /** The inductive step of SelectLinesConcat: the first entry of `a` is
      also the first entry of `a + b`. */
  lemma SelectLinesConcatStep(a: seq<Entry>, b: seq<Entry>, products: seq<Product>)
    requires |a| > 0
    requires SelectLines(a[1..] + b, products) == SelectLines(a[1..], products) + SelectLines(b, products)
    ensures SelectLines(a + b, products) == SelectLines(a, products) + SelectLines(b, products)
  {
    var x := if a[0].quantity > 0 then [Line(FindProduct(products, a[0].id), a[0].quantity)] else [];
    ConcatTail(a, b);
    SelectLinesHead(a + b, products, SelectLines(a[1..] + b, products));
    SelectLinesHead(a, products, SelectLines(a[1..], products));
    Regroup(SelectLines(a + b, products), SelectLines(a, products), x, SelectLines(a[1..], products), SelectLines(b, products));
  }

  lemma ConcatTail(a: seq<Entry>, b: seq<Entry>)
    requires |a| > 0
    ensures |a + b| > 0 && (a + b)[0] == a[0] && (a + b)[1..] == a[1..] + b
  {
  }

  lemma Regroup(whole: seq<Line>, left: seq<Line>, x: seq<Line>, front: seq<Line>, back: seq<Line>)
    requires whole == x + (front + back) && left == x + front
    ensures whole == left + back
  {
  }

  /** The first entry's line, if any, before the lines of the rest. */
  lemma SelectLinesHead(entries: seq<Entry>, products: seq<Product>, rest: seq<Line>)
    requires |entries| > 0 && rest == SelectLines(entries[1..], products)
    ensures SelectLines(entries, products)
         == (if entries[0].quantity > 0 then [Line(FindProduct(products, entries[0].id), entries[0].quantity)] else []) + rest
  {
  }

  /** One entry gives one line, with the product `find` returns, exactly
      when its quantity is positive. */
  lemma SelectLinesOne(e: Entry, products: seq<Product>)
    ensures SelectLines([e], products) == if e.quantity > 0 then [Line(FindProduct(products, e.id), e.quantity)] else []
  {
    assert [e][1..] == [];
  }

  /** `Object.values(sellQuantities).some(q => q > 0)`: enables the sell button. */
  function HasProductsToSell(entries: seq<Entry>): (b: bool)
    ensures b <==> exists k :: 0 <= k < |entries| && entries[k].quantity > 0
  {
    |entries| > 0 && (entries[0].quantity > 0 || HasProductsToSell(entries[1..]))
  }

  /** The sell button is enabled exactly when a bulk sale would get past the
      empty-selection check. */
  lemma {:induction false} SellButtonMatchesSelection(entries: seq<Entry>, products: seq<Product>)
    ensures HasProductsToSell(entries) <==> |SelectLines(entries, products)| > 0
  {
    if |entries| > 0 {
      SellButtonMatchesSelection(entries[1..], products);
    }
  }

  // ------------------------------------------------------------- validation

  /** What the page shows in its error banner. */
  datatype Notice =
    | NoNotice
    | EnterQuantities
    | NotFound
    | ShortOfStock(name: string, available: int)
    | RecordFailed(message: string)

  /** Decimal rendering of an integer, as a template literal prints it. */
  function Decimal(n: int): (r: string)
    ensures |r| > 0
    decreases if n < 0 then 1 - n else n
  {
    if n < 0 then "-" + Decimal(-n)
    else if n < 10 then [['0','1','2','3','4','5','6','7','8','9'][n]]
    else Decimal(n / 10) + Decimal(n % 10)
  }

  /** The banner text; the banner is shown exactly when it is non-empty. */
  function NoticeText(n: Notice): (r: string)
    ensures r == "" <==> n.NoNotice?
  {
    match n
    case NoNotice => ""
    case EnterQuantities => "Please enter quantities for at least one product"
    case NotFound => "Product not found"
    case ShortOfStock(name, available) =>
      "Insufficient stock for " + name + ". Only " + Decimal(available) + " available."
    case RecordFailed(message) => "Error recording sales: " + message
  }

  /** A line passes validation: its product exists and has the stock. */
  predicate LineOk(line: Line)
  {
    line.product.Some? && line.product.value.quantity >= line.quantity
  }

  ghost predicate Ready(lines: seq<Line>)
  {
    forall k :: 0 <= k < |lines| ==> LineOk(lines[k])
  }

  ghost predicate Found(lines: seq<Line>)
  {
    forall k :: 0 <= k < |lines| ==> lines[k].product.Some?
  }

  /** The notice for a line that fails validation. */
  function Problem(line: Line): Notice
  {
    if line.product.None? then NotFound
    else ShortOfStock(line.product.value.name, line.product.value.quantity)
  }

  /** The validation loop: the FIRST line that fails decides the notice. */
  function FirstProblem(lines: seq<Line>): (r: Notice)
    ensures r == NoNotice <==> Ready(lines)
    ensures forall k :: 0 <= k < |lines| && Ready(lines[..k]) && !LineOk(lines[k]) ==> r == Problem(lines[k])
  {
    if |lines| == 0 then NoNotice
    else if !LineOk(lines[0]) then Problem(lines[0])
    else
      var r := FirstProblem(lines[1..]);
      assert forall k :: 1 <= k <= |lines| ==> lines[..k][1..] == lines[1..][..k - 1];
      assert forall k :: 1 <= k < |lines| ==> lines[k] == lines[1..][k - 1];
      r
  }

  // ------------------------------------------------------------------ posts

  function LineTotal(line: Line): int
    requires line.product.Some?
  {
    line.product.value.price * line.quantity
  }

  /** The sales the server records for the given lines, one stamp each. */
  function Recorded(lines: seq<Line>, stamps: seq<Api.SaleStamp>): (r: seq<Sale>)
    requires Found(lines) && |stamps| >= |lines|
  {
    seq(|lines|, k requires 0 <= k < |lines| =>
      Api.Stamped(lines[k].product.value.id, lines[k].quantity, LineTotal(lines[k]), stamps[k]))
  }

  /** Sum of the totals of the lines whose product was found. */
  function Revenue(lines: seq<Line>): int
  {
    if |lines| == 0 then 0
    else (if lines[0].product.Some? then LineTotal(lines[0]) else 0) + Revenue(lines[1..])
  }

  /** Where the post loop stopped: the document, the counters
      `successfulSales` and `totalRevenue`, and the thrown message if any. */
  datatype PostRun = PostRun(doc: Doc, posted: nat, revenue: int, failure: Option<string>)

  /** `errorData.error || \`Failed to record sale for ${product.name}\``. */
  function FailureMessage(e: Api.ApiError, name: string): (r: string)
    ensures r != ""
    ensures e.message != "" ==> r == e.message
  {
    if e.message != "" then e.message else "Failed to record sale for " + name
  }

  /** The POST of one line: `{ productId: product.id, quantity, total:
      product.price * quantity }`. */
  function Post(d: Doc, line: Line, stamp: Api.SaleStamp, saved: bool): Api.Outcome<EnrichedSale>
    requires line.product.Some?
  {
    Api.CreateSale(d, line.product.value.id, line.quantity, LineTotal(line), stamp, saved)
  }

  /** A run of later lines seen from an earlier point of the loop, after k
      more successful posts that brought in `revenue`. */
  function Resume(rest: PostRun, k: nat, revenue: int): PostRun
  {
    PostRun(rest.doc, rest.posted + k, revenue + rest.revenue, rest.failure)
  }

  /** The post loop: one POST /api/sales per line, in order, stopping at the
      first reply that is not ok. */
  function RunPosts(d: Doc, lines: seq<Line>, stamps: seq<Api.SaleStamp>, saved: seq<bool>): (r: PostRun)
    requires Found(lines) && |stamps| >= |lines| && |saved| >= |lines|
    ensures r.posted <= |lines|
    ensures r.failure.None? <==> r.posted == |lines|
    decreases |lines|
  {
    if |lines| == 0 then PostRun(d, 0, 0, None)
    else
      var o := Post(d, lines[0], stamps[0], saved[0]);
      match o.response
      case Err(e) => PostRun(d, 0, 0, Some(FailureMessage(e, lines[0].product.value.name)))
      case Ok(_) => Resume(RunPosts(o.doc, lines[1..], stamps[1..], saved[1..]), 1, LineTotal(lines[0]))
  }

  /** The counters of the post loop: `totalRevenue` is the revenue of the
      lines posted, and the server holds exactly their sales, appended in
      order. */
  lemma {:induction false} RunPostsRecords(d: Doc, lines: seq<Line>, stamps: seq<Api.SaleStamp>, saved: seq<bool>)
    requires Found(lines) && |stamps| >= |lines| && |saved| >= |lines|
    ensures RunPosts(d, lines, stamps, saved).revenue == Revenue(lines[..RunPosts(d, lines, stamps, saved).posted])
    ensures RunPosts(d, lines, stamps, saved).doc.sales
         == d.sales + Recorded(lines[..RunPosts(d, lines, stamps, saved).posted], stamps)
    decreases |lines|
  {
    if |lines| == 0 {
    } else {
      var o := Post(d, lines[0], stamps[0], saved[0]);
      if o.response.Err? {
        assert lines[..0] == [];
      } else {
        var rest := RunPosts(o.doc, lines[1..], stamps[1..], saved[1..]);
        RunPostsRecords(o.doc, lines[1..], stamps[1..], saved[1..]);
        RunPostsStep(d, lines, stamps, rest.posted);
      }
    }
  }

  /** The run stopped at line `r.posted`: that line's POST, against the
      document the earlier posts left, was refused, and the refusal's
      message is what the loop throws. */
  ghost predicate FailedAt(r: PostRun, lines: seq<Line>, stamps: seq<Api.SaleStamp>, saved: seq<bool>)
  {
    && Found(lines) && r.posted < |lines| && |stamps| >= |lines| && |saved| >= |lines|
    && Post(r.doc, lines[r.posted], stamps[r.posted], saved[r.posted]).response.Err?
    && r.failure == Some(FailureMessage(Post(r.doc, lines[r.posted], stamps[r.posted], saved[r.posted]).response.error,
                                        lines[r.posted].product.value.name))
  }

  /** The loop stops at a line the server refused, in the state the earlier
      posts left, and shows that refusal's message. */
  lemma {:induction false} RunPostsFailure(d: Doc, lines: seq<Line>, stamps: seq<Api.SaleStamp>, saved: seq<bool>)
    requires Found(lines) && |stamps| >= |lines| && |saved| >= |lines|
    ensures RunPosts(d, lines, stamps, saved).failure.Some? ==> FailedAt(RunPosts(d, lines, stamps, saved), lines, stamps, saved)
    decreases |lines|
  {
    if |lines| > 0 {
      var o := Post(d, lines[0], stamps[0], saved[0]);
      if o.response.Ok? {
        var rest := RunPosts(o.doc, lines[1..], stamps[1..], saved[1..]);
        RunPostsFailure(o.doc, lines[1..], stamps[1..], saved[1..]);
        RunPostsHead(d, lines, stamps, saved);
        if rest.failure.Some? {
          FailedAtShift(rest, lines, stamps, saved, LineTotal(lines[0]));
        }
      }
    }
  }

  /** A stop in the later lines, seen from one line earlier. */
  lemma FailedAtShift(rest: PostRun, lines: seq<Line>, stamps: seq<Api.SaleStamp>, saved: seq<bool>, revenue: int)
    requires |lines| > 0 && Found(lines) && |stamps| >= |lines| && |saved| >= |lines|
    requires FailedAt(rest, lines[1..], stamps[1..], saved[1..])
    ensures FailedAt(Resume(rest, 1, revenue), lines, stamps, saved)
  {
    var n := rest.posted;
    assert lines[1..][n] == lines[n + 1] && stamps[1..][n] == stamps[n + 1] && saved[1..][n] == saved[n + 1];
  }

  /** The first turn of the post loop, when its POST succeeds. */
  lemma RunPostsHead(d: Doc, lines: seq<Line>, stamps: seq<Api.SaleStamp>, saved: seq<bool>)
    requires Found(lines) && |stamps| >= |lines| && |saved| >= |lines| && |lines| > 0
    ensures Post(d, lines[0], stamps[0], saved[0]).response.Ok? ==>
      RunPosts(d, lines, stamps, saved)
      == Resume(RunPosts(Post(d, lines[0], stamps[0], saved[0]).doc, lines[1..], stamps[1..], saved[1..]),
                1, LineTotal(lines[0]))
  {
  }

  /** One turn of the post loop at line k: the POST of that line, then the
      remaining lines against the document it leaves. */
  lemma RunPostsFrom(d: Doc, lines: seq<Line>, stamps: seq<Api.SaleStamp>, saved: seq<bool>, k: nat)
    requires Found(lines) && |stamps| >= |lines| && |saved| >= |lines| && k < |lines|
    ensures Post(d, lines[k], stamps[k], saved[k]).response.Ok? ==>
      RunPosts(d, lines[k..], stamps[k..], saved[k..])
      == Resume(RunPosts(Post(d, lines[k], stamps[k], saved[k]).doc, lines[k + 1..], stamps[k + 1..], saved[k + 1..]),
                1, LineTotal(lines[k]))
    ensures Post(d, lines[k], stamps[k], saved[k]).response.Err? ==>
      RunPosts(d, lines[k..], stamps[k..], saved[k..])
      == PostRun(d, 0, 0, Some(FailureMessage(Post(d, lines[k], stamps[k], saved[k]).response.error,
                                              lines[k].product.value.name)))
  {
    assert lines[k..][0] == lines[k] && stamps[k..][0] == stamps[k] && saved[k..][0] == saved[k];
    assert lines[k..][1..] == lines[k + 1..] && stamps[k..][1..] == stamps[k + 1..] && saved[k..][1..] == saved[k + 1..];
  }

  /** How the prefixes seen by one step of the post loop line up. */
  lemma RunPostsStep(d: Doc, lines: seq<Line>, stamps: seq<Api.SaleStamp>, n: nat)
    requires Found(lines) && |stamps| >= |lines| && n < |lines|
    ensures lines[..n + 1][1..] == lines[1..][..n]
    ensures Revenue(lines[..n + 1]) == LineTotal(lines[0]) + Revenue(lines[1..][..n])
    ensures Recorded(lines[..n + 1], stamps)
         == [Api.Stamped(lines[0].product.value.id, lines[0].quantity, LineTotal(lines[0]), stamps[0])]
            + Recorded(lines[1..][..n], stamps[1..])
  {
    assert lines[..n + 1][1..] == lines[1..][..n];
    assert lines[..n + 1][0] == lines[0];
  }

  /** calculateTotalRevenue: the preview under the selection, counting only
      positive quantities whose product is found. */
  function RevenuePreview(entries: seq<Entry>, products: seq<Product>): (r: int)
    ensures (forall k :: 0 <= k < |entries| ==> entries[k].quantity <= 0) ==> r == 0
    ensures (forall p :: p in products ==> p.price >= 0) ==> r >= 0
  {
    if |entries| == 0 then 0
    else
      var e := entries[0];
      var here := if e.quantity > 0 && FindProduct(products, e.id).Some?
                  then FindProduct(products, e.id).value.price * e.quantity else 0;
      here + RevenuePreview(entries[1..], products)
  }

  /** The preview and the revenue of the selected lines agree on every
      selection. */
  lemma {:induction false} RevenuePreviewIsRevenue(entries: seq<Entry>, products: seq<Product>)
    ensures RevenuePreview(entries, products) == Revenue(SelectLines(entries, products))
  {
    if |entries| > 0 {
      RevenuePreviewIsRevenue(entries[1..], products);
      var line := Line(FindProduct(products, entries[0].id), entries[0].quantity);
      var rest := SelectLines(entries[1..], products);
      if entries[0].quantity > 0 {
        assert SelectLines(entries, products) == [line] + rest;
        assert ([line] + rest)[1..] == rest;
      }
    }
  }

  // -------------------------------------------------------- the local update

  /** A product after `quantitySold` units left it, when that is positive. */
  function AfterSelling(p: Product, n: int): Product
  {
    if n > 0 then p.(quantity := p.quantity - n) else p
  }

  /** `prevProducts.map(...)`: every product with a positive sell quantity
      loses exactly that many units; the rest are left as they were. */
  function LocalAfterSale(products: seq<Product>, entries: seq<Entry>): (r: seq<Product>)
    ensures |r| == |products|
    ensures forall m :: 0 <= m < |products| && SellQuantity(entries, products[m].id) > 0 ==>
      r[m] == products[m].(quantity := products[m].quantity - SellQuantity(entries, products[m].id))
    ensures forall m :: 0 <= m < |products| && SellQuantity(entries, products[m].id) <= 0 ==> r[m] == products[m]
  {
    seq(|products|, m requires 0 <= m < |products| => AfterSelling(products[m], SellQuantity(entries, products[m].id)))
  }

  /** The quantity each entry asked for lands on each product carrying its
      id, and a product nobody asked for keeps its stock. */
  lemma LocalAfterSaleExact(products: seq<Product>, entries: seq<Entry>, k: nat, m: nat)
    requires DistinctKeys(entries)
    requires k < |entries| && m < |products| && products[m].id == entries[k].id
    ensures entries[k].quantity > 0 ==>
      LocalAfterSale(products, entries)[m].quantity == products[m].quantity - entries[k].quantity
    ensures entries[k].quantity <= 0 ==> LocalAfterSale(products, entries)[m] == products[m]
  {
  }

  // ------------------------------------------------------------- bulk sale

  /** What the bulk sale returns: refused before any POST, stopped after
      some POSTs, or completed (the figures of the success alert). */
  datatype BulkOutcome = Refused | Stopped(successfulSales: nat) | Completed(successfulSales: nat, totalRevenue: int)

  /** The page's state and the server's document after a bulk sale. */
  datatype BulkResult = BulkResult(products: seq<Product>, entries: seq<Entry>, notice: Notice,
                                   doc: Doc, outcome: BulkOutcome)

  /** handleBulkSale on the page's products and selection against the
      server's document `d`. `stamps` and `saved` give each POST its clock
      readings and the outcome of its file write. */
  function BulkSale(products: seq<Product>, entries: seq<Entry>, d: Doc,
                    stamps: seq<Api.SaleStamp>, saved: seq<bool>): (r: BulkResult)
    requires |stamps| >= |entries| && |saved| >= |entries|
    ensures r.outcome.Refused? <==> |SelectLines(entries, products)| == 0 || !Ready(SelectLines(entries, products))
    ensures r.outcome.Refused? ==> r.doc == d && r.products == products && r.entries == entries
    ensures r.outcome.Refused? ==>
      r.notice == if |SelectLines(entries, products)| == 0 then EnterQuantities else FirstProblem(SelectLines(entries, products))
    ensures r.outcome.Stopped? ==>
      && r.products == products && r.entries == entries && r.notice.RecordFailed?
      && r.outcome.successfulSales < |SelectLines(entries, products)|
      && r.doc.sales == d.sales + Recorded(SelectLines(entries, products)[..r.outcome.successfulSales], stamps)
    ensures r.outcome.Completed? ==>
      && r.products == LocalAfterSale(products, entries) && r.entries == [] && r.notice == NoNotice
      && r.outcome.successfulSales == |SelectLines(entries, products)|
      && r.outcome.totalRevenue == RevenuePreview(entries, products)
      && r.doc.sales == d.sales + Recorded(SelectLines(entries, products), stamps)
  {
    var lines := SelectLines(entries, products);
    if |lines| == 0 then BulkResult(products, entries, EnterQuantities, d, Refused)
    else
      var problem := FirstProblem(lines);
      if problem != NoNotice then BulkResult(products, entries, problem, d, Refused)
      else
        var run := RunPosts(d, lines, stamps, saved);
        RunPostsRecords(d, lines, stamps, saved);
        if run.failure.Some? then
          BulkResult(products, entries, RecordFailed(run.failure.value), run.doc, Stopped(run.posted))
        else
          RevenuePreviewIsRevenue(entries, products);
          assert lines[..|lines|] == lines;
          BulkResult(LocalAfterSale(products, entries), [], NoNotice, run.doc, Completed(run.posted, run.revenue))
  }

  // ------------------------------------- the local view against the server

  /** The quantity the lines take from the product with `id`: the first line
      whose product carries the id. */
  function Taken(lines: seq<Line>, id: string): int
  {
    if |lines| == 0 then 0
    else if lines[0].product.Some? && lines[0].product.value.id == id then lines[0].quantity
    else Taken(lines[1..], id)
  }

  ghost predicate DistinctLineIds(lines: seq<Line>)
  {
    forall i, j :: 0 <= i < j < |lines| && lines[i].product.Some? && lines[j].product.Some? ==>
      lines[i].product.value.id != lines[j].product.value.id
  }

  /** Every selected product is the one its own id finds, and that id is a
      key of the selection. */
  lemma {:induction false} SelectedLinesFound(entries: seq<Entry>, products: seq<Product>)
    ensures forall k :: 0 <= k < |SelectLines(entries, products)| && SelectLines(entries, products)[k].product.Some? ==>
      FindProduct(products, SelectLines(entries, products)[k].product.value.id) == SelectLines(entries, products)[k].product
    ensures forall k :: 0 <= k < |SelectLines(entries, products)| && SelectLines(entries, products)[k].product.Some? ==>
      HasKey(entries, SelectLines(entries, products)[k].product.value.id)
  {
    if |entries| > 0 {
      var e := entries[0];
      var rest := SelectLines(entries[1..], products);
      SelectedLinesFound(entries[1..], products);
      TailKeys(entries);
      if e.quantity > 0 {
        var line := Line(FindProduct(products, e.id), e.quantity);
        var lines := [line] + rest;
        assert SelectLines(entries, products) == lines;
        forall k | 0 <= k < |lines| && lines[k].product.Some?
          ensures FindProduct(products, lines[k].product.value.id) == lines[k].product
          ensures HasKey(entries, lines[k].product.value.id)
        {
          if k == 0 {
            assert lines[0] == line && line.product.value.id == e.id;
            assert entries[0].id == e.id;
          } else {
            assert lines[k] == rest[k - 1];
          }
        }
      }
    }
  }

  /** With distinct keys, no two selected lines name the same product. */
  lemma {:induction false} SelectedLinesDistinct(entries: seq<Entry>, products: seq<Product>)
    requires DistinctKeys(entries)
    ensures DistinctLineIds(SelectLines(entries, products))
  {
    if |entries| > 0 {
      var e := entries[0];
      var rest := SelectLines(entries[1..], products);
      TailDistinct(entries);
      SelectedLinesDistinct(entries[1..], products);
      if e.quantity > 0 {
        SelectedLinesFound(entries[1..], products);
        TailWithoutKey(entries, e.id);
        var line := Line(FindProduct(products, e.id), e.quantity);
        forall k | 0 <= k < |rest| && rest[k].product.Some? && line.product.Some?
          ensures rest[k].product.value.id != line.product.value.id
        {
          assert HasKey(entries[1..], rest[k].product.value.id);
        }
        ConsDistinct(line, rest);
        assert SelectLines(entries, products) == [line] + rest;
      } else {
        assert SelectLines(entries, products) == rest;
      }
    }
  }

  lemma TailDistinct(entries: seq<Entry>)
    requires |entries| > 0 && DistinctKeys(entries)
    ensures DistinctKeys(entries[1..])
  {
    forall i, j | 0 <= i < j < |entries[1..]| ensures entries[1..][i].id != entries[1..][j].id {
      assert entries[1..][i] == entries[i + 1] && entries[1..][j] == entries[j + 1];
    }
  }

  /** A line naming a product no later line names, before distinct lines. */
  lemma ConsDistinct(line: Line, rest: seq<Line>)
    requires DistinctLineIds(rest)
    requires forall k :: 0 <= k < |rest| && rest[k].product.Some? && line.product.Some? ==>
      rest[k].product.value.id != line.product.value.id
    ensures DistinctLineIds([line] + rest)
  {
    var lines := [line] + rest;
    forall a, b | 0 <= a < b < |lines| && lines[a].product.Some? && lines[b].product.Some?
      ensures lines[a].product.value.id != lines[b].product.value.id
    {
      assert lines[b] == rest[b - 1];
      if a > 0 {
        assert lines[a] == rest[a - 1];
      }
    }
  }

  /** A key of the rest of the entries is a key of all of them. */
  lemma TailKeys(entries: seq<Entry>)
    requires |entries| > 0
    ensures forall id :: HasKey(entries[1..], id) ==> HasKey(entries, id)
  {
    forall id | HasKey(entries[1..], id) ensures HasKey(entries, id) {
      var k :| 0 <= k < |entries[1..]| && entries[1..][k].id == id;
      assert entries[k + 1].id == id;
    }
  }

  /** The rest of the entries has no key `id` when all of them have none, or
      when the keys are distinct and the first one is `id`. */
  lemma TailWithoutKey(entries: seq<Entry>, id: string)
    requires |entries| > 0
    requires !HasKey(entries, id) || (DistinctKeys(entries) && entries[0].id == id)
    ensures !HasKey(entries[1..], id)
  {
    forall k | 0 <= k < |entries| - 1
      ensures entries[1..][k].id != id
    {
      assert entries[1..][k] == entries[k + 1];
    }
  }

  /** Without an entry for `id`, no selected line takes from it. */
  lemma {:induction false} TakenWithoutKey(entries: seq<Entry>, products: seq<Product>, id: string)
    requires !HasKey(entries, id)
    ensures Taken(SelectLines(entries, products), id) == 0
  {
    if |entries| > 0 {
      assert entries[0].id != id;
      TailWithoutKey(entries, id);
      TakenWithoutKey(entries[1..], products, id);
      var rest := SelectLines(entries[1..], products);
      if entries[0].quantity > 0 {
        var line := Line(FindProduct(products, entries[0].id), entries[0].quantity);
        assert SelectLines(entries, products) == [line] + rest;
        assert ([line] + rest)[1..] == rest;
      }
    }
  }

  /** With distinct keys, what the lines take from an existing product is its
      sell quantity when positive, and nothing otherwise. */
  lemma {:induction false} TakenIsSellQuantity(entries: seq<Entry>, products: seq<Product>, id: string)
    requires DistinctKeys(entries) && HasProduct(products, id)
    ensures Taken(SelectLines(entries, products), id)
         == if SellQuantity(entries, id) > 0 then SellQuantity(entries, id) else 0
  {
    if |entries| > 0 {
      var e := entries[0];
      var rest := SelectLines(entries[1..], products);
      assert DistinctKeys(entries[1..]) by {
        forall i, j | 0 <= i < j < |entries[1..]| ensures entries[1..][i].id != entries[1..][j].id {
          assert entries[1..][i] == entries[i + 1] && entries[1..][j] == entries[j + 1];
        }
      }
      if e.quantity > 0 {
        var line := Line(FindProduct(products, e.id), e.quantity);
        assert SelectLines(entries, products) == [line] + rest;
        assert ([line] + rest)[1..] == rest;
      }
      if e.id == id {
        TailWithoutKey(entries, id);
        TakenWithoutKey(entries[1..], products, id);
      } else {
        TakenIsSellQuantity(entries[1..], products, id);
      }
    }
  }

  /** Overwriting one product leaves what `find` returns for any other id. */
  lemma FindAfterUpdate(ps: seq<Product>, i: nat, p: Product, id: string)
    requires i < |ps| && p.id == ps[i].id && id != p.id
    ensures FindProduct(ps[i := p], id) == FindProduct(ps, id)
  {
    IndexAfterUpdate(ps, i, p, id);
  }

  /** Lines ready to post against `d`: each names a product the server
      finds as the page saw it, with the stock for it, one line per
      product, and every write succeeding. */
  ghost predicate Postable(d: Doc, lines: seq<Line>, stamps: seq<Api.SaleStamp>, saved: seq<bool>)
  {
    && Found(lines) && |stamps| >= |lines| && |saved| >= |lines|
    && (forall k :: 0 <= k < |lines| ==> saved[k] && lines[k].quantity > 0 && LineOk(lines[k]))
    && (forall k :: 0 <= k < |lines| ==> FindProduct(d.products, lines[k].product.value.id) == lines[k].product)
    && DistinctLineIds(lines) && UniqueProductIds(d.products)
  }

  /** Posting lines that are ready: no post fails. */
  lemma {:induction false} AllPostsSucceed(d: Doc, lines: seq<Line>, stamps: seq<Api.SaleStamp>, saved: seq<bool>)
    requires Postable(d, lines, stamps, saved)
    ensures RunPosts(d, lines, stamps, saved).failure.None?
    decreases |lines|
  {
    if |lines| > 0 {
      var next := AcceptedStep(d, lines, stamps, saved);
      PostableRest(d, lines, stamps, saved, next);
      AllPostsSucceed(next, lines[1..], stamps[1..], saved[1..]);
    }
  }

  /** Posting lines that are ready: each product loses what its line asked
      for and no other stock changes. */
  lemma {:induction false} AllPostsStock(d: Doc, lines: seq<Line>, stamps: seq<Api.SaleStamp>, saved: seq<bool>)
    requires Postable(d, lines, stamps, saved)
    ensures |RunPosts(d, lines, stamps, saved).doc.products| == |d.products|
    ensures forall m :: 0 <= m < |d.products| ==>
      RunPosts(d, lines, stamps, saved).doc.products[m] == AfterSelling(d.products[m], Taken(lines, d.products[m].id))
    decreases |lines|
  {
    if |lines| > 0 {
      var next := AcceptedStep(d, lines, stamps, saved);
      PostableRest(d, lines, stamps, saved, next);
      AllPostsStock(next, lines[1..], stamps[1..], saved[1..]);
      AfterFirstAndRest(d.products, lines, ProductIndex(d.products, lines[0].product.value.id).value,
                        RunPosts(next, lines[1..], stamps[1..], saved[1..]).doc.products);
    }
  }

  /** After the first line is posted, the rest are still ready. */
  lemma PostableRest(d: Doc, lines: seq<Line>, stamps: seq<Api.SaleStamp>, saved: seq<bool>, next: Doc)
    requires Postable(d, lines, stamps, saved) && |lines| > 0
    requires next.products == d.products[ProductIndex(d.products, lines[0].product.value.id).value
                                         := lines[0].product.value.(quantity := lines[0].product.value.quantity - lines[0].quantity)]
    ensures Postable(next, lines[1..], stamps[1..], saved[1..])
  {
    var i := ProductIndex(d.products, lines[0].product.value.id).value;
    RestFound(d.products, lines, i, next.products);
    UniqueAfterUpdate(d.products, i, next.products);
    RestDistinct(lines);
    ShiftedReady(lines, saved);
  }

  /** The products the other lines name are still found as they were. */
  lemma RestFound(ps: seq<Product>, lines: seq<Line>, i: nat, ps': seq<Product>)
    requires |lines| > 0 && Found(lines) && DistinctLineIds(lines) && i < |ps|
    requires forall k :: 0 <= k < |lines| ==> FindProduct(ps, lines[k].product.value.id) == lines[k].product
    requires ProductIndex(ps, lines[0].product.value.id) == Some(i)
    requires ps' == ps[i := lines[0].product.value.(quantity := lines[0].product.value.quantity - lines[0].quantity)]
    ensures forall k :: 0 <= k < |lines| - 1 ==> FindProduct(ps', lines[1..][k].product.value.id) == lines[1..][k].product
  {
    forall k | 0 <= k < |lines| - 1
      ensures FindProduct(ps', lines[1..][k].product.value.id) == lines[1..][k].product
    {
      assert lines[1..][k] == lines[k + 1];
      FindAfterUpdate(ps, i, ps'[i], lines[k + 1].product.value.id);
    }
  }

  /** Overwriting one product's stock keeps ids unique. */
  lemma UniqueAfterUpdate(ps: seq<Product>, i: nat, ps': seq<Product>)
    requires UniqueProductIds(ps) && i < |ps| && |ps'| == |ps| && ps'[i].id == ps[i].id
    requires forall m :: 0 <= m < |ps| && m != i ==> ps'[m] == ps[m]
    ensures UniqueProductIds(ps')
  {
    forall a, b | 0 <= a < b < |ps'| ensures ps'[a].id != ps'[b].id {
      assert ps'[a].id == ps[a].id && ps'[b].id == ps[b].id;
    }
  }

  lemma RestDistinct(lines: seq<Line>)
    requires |lines| > 0 && Found(lines) && DistinctLineIds(lines)
    ensures Found(lines[1..]) && DistinctLineIds(lines[1..])
  {
    var rest := lines[1..];
    forall a, b | 0 <= a < b < |rest| && rest[a].product.Some? && rest[b].product.Some?
      ensures rest[a].product.value.id != rest[b].product.value.id
    {
      assert rest[a] == lines[a + 1] && rest[b] == lines[b + 1];
    }
  }

  lemma ShiftedReady(lines: seq<Line>, saved: seq<bool>)
    requires |lines| > 0 && |saved| >= |lines|
    requires forall k :: 0 <= k < |lines| ==> saved[k] && lines[k].quantity > 0 && LineOk(lines[k])
    ensures forall k :: 0 <= k < |lines| - 1 ==> saved[1..][k] && lines[1..][k].quantity > 0 && LineOk(lines[1..][k])
  {
    forall k | 0 <= k < |lines| - 1
      ensures saved[1..][k] && lines[1..][k].quantity > 0 && LineOk(lines[1..][k])
    {
      assert lines[1..][k] == lines[k + 1] && saved[1..][k] == saved[k + 1];
    }
  }

  /** The first turn of the post loop on a line that passed validation, its
      write succeeding: the rest of the loop runs on the document it leaves. */
  lemma AcceptedStep(d: Doc, lines: seq<Line>, stamps: seq<Api.SaleStamp>, saved: seq<bool>) returns (next: Doc)
    requires Found(lines) && |stamps| >= |lines| && |saved| >= |lines| && |lines| > 0
    requires saved[0] && LineOk(lines[0])
    requires FindProduct(d.products, lines[0].product.value.id) == lines[0].product
    ensures next.products == d.products[ProductIndex(d.products, lines[0].product.value.id).value
                                        := lines[0].product.value.(quantity := lines[0].product.value.quantity - lines[0].quantity)]
    ensures RunPosts(d, lines, stamps, saved).failure == RunPosts(next, lines[1..], stamps[1..], saved[1..]).failure
    ensures RunPosts(d, lines, stamps, saved).doc == RunPosts(next, lines[1..], stamps[1..], saved[1..]).doc
  {
    next := Post(d, lines[0], stamps[0], saved[0]).doc;
    PostAccepted(d, lines[0], stamps[0], saved[0]);
    RunPostsHead(d, lines, stamps, saved);
  }

  /** The POST of a line whose product the server holds with enough stock,
      the write succeeding. */
  lemma PostAccepted(d: Doc, line: Line, stamp: Api.SaleStamp, saved: bool)
    requires line.product.Some? && LineOk(line) && saved
    requires FindProduct(d.products, line.product.value.id) == line.product
    ensures Post(d, line, stamp, saved).response.Ok?
    ensures Post(d, line, stamp, saved).doc.products
         == d.products[ProductIndex(d.products, line.product.value.id).value
                       := line.product.value.(quantity := line.product.value.quantity - line.quantity)]
  {
  }

  /** The stock after the first line and then the rest, product by product. */
  lemma AfterFirstAndRest(ps: seq<Product>, lines: seq<Line>, i: nat, after: seq<Product>)
    requires |lines| > 0 && Found(lines) && i < |ps| && DistinctLineIds(lines) && UniqueProductIds(ps)
    requires ps[i] == lines[0].product.value && lines[0].quantity > 0
    requires var ps' := ps[i := ps[i].(quantity := ps[i].quantity - lines[0].quantity)];
      |after| == |ps'| && forall m :: 0 <= m < |ps'| ==> after[m] == AfterSelling(ps'[m], Taken(lines[1..], ps'[m].id))
    ensures |after| == |ps|
    ensures forall m :: 0 <= m < |ps| ==> after[m] == AfterSelling(ps[m], Taken(lines, ps[m].id))
  {
    TakenAfterFirst(ps, lines, i);
  }

  /** The first line takes from index i only; the rest take nothing there. */
  lemma TakenAfterFirst(ps: seq<Product>, lines: seq<Line>, i: nat)
    requires |lines| > 0 && Found(lines) && i < |ps| && DistinctLineIds(lines) && UniqueProductIds(ps)
    requires ps[i].id == lines[0].product.value.id
    ensures Taken(lines, ps[i].id) == lines[0].quantity && Taken(lines[1..], ps[i].id) == 0
    ensures forall m :: 0 <= m < |ps| && m != i ==> Taken(lines[1..], ps[m].id) == Taken(lines, ps[m].id)
  {
    forall k | 0 <= k < |lines[1..]| && lines[1..][k].product.Some?
      ensures lines[1..][k].product.value.id != ps[i].id
    {
      assert lines[1..][k] == lines[k + 1];
    }
    TakenOfOthers(lines[1..], ps[i].id);
    forall m | 0 <= m < |ps| && m != i ensures Taken(lines[1..], ps[m].id) == Taken(lines, ps[m].id) {
      assert ps[m].id != ps[i].id;
    }
  }

  /** A product no line names is not taken from. */
  lemma {:induction false} TakenOfOthers(lines: seq<Line>, id: string)
    requires forall k :: 0 <= k < |lines| && lines[k].product.Some? ==> lines[k].product.value.id != id
    ensures Taken(lines, id) == 0
  {
    if |lines| > 0 {
      assert forall k :: 1 <= k < |lines| ==> lines[1..][k - 1] == lines[k];
      TakenOfOthers(lines[1..], id);
    }
  }

  /** With the page showing the server's products (ids unique), distinct
      keys in the selection, and every write succeeding, a bulk sale is
      either refused before posting or completes, and then the page's local
      stock equals the server's. */
  lemma BulkSaleAgreesWithServer(products: seq<Product>, entries: seq<Entry>, d: Doc,
                                 stamps: seq<Api.SaleStamp>, saved: seq<bool>)
    requires |stamps| >= |entries| && |saved| >= |entries|
    requires forall k :: 0 <= k < |entries| ==> saved[k]
    requires d.products == products && UniqueProductIds(products) && DistinctKeys(entries)
    ensures BulkSale(products, entries, d, stamps, saved).outcome.Refused?
         || (BulkSale(products, entries, d, stamps, saved).outcome.Completed?
             && BulkSale(products, entries, d, stamps, saved).doc.products
                == BulkSale(products, entries, d, stamps, saved).products)
  {
    var lines := SelectLines(entries, products);
    if |lines| > 0 && Ready(lines) {
      SelectionPosts(products, entries, d, stamps, saved);
    }
  }

  /** The posts of a valid selection against the same products all succeed
      and leave on the server the stock the page computes locally. */
  lemma SelectionPosts(products: seq<Product>, entries: seq<Entry>, d: Doc,
                       stamps: seq<Api.SaleStamp>, saved: seq<bool>)
    requires |stamps| >= |entries| && |saved| >= |entries|
    requires forall k :: 0 <= k < |entries| ==> saved[k]
    requires d.products == products && UniqueProductIds(products) && DistinctKeys(entries)
    requires Ready(SelectLines(entries, products))
    ensures RunPosts(d, SelectLines(entries, products), stamps, saved).failure.None?
    ensures RunPosts(d, SelectLines(entries, products), stamps, saved).doc.products == LocalAfterSale(products, entries)
  {
    SelectionPostable(products, entries, d, stamps, saved);
    AllPostsSucceed(d, SelectLines(entries, products), stamps, saved);
    AllPostsStock(d, SelectLines(entries, products), stamps, saved);
    StockMatchesLocal(products, entries, RunPosts(d, SelectLines(entries, products), stamps, saved).doc.products);
  }

  /** A valid selection against the page's own products is ready to post. */
  lemma SelectionPostable(products: seq<Product>, entries: seq<Entry>, d: Doc,
                          stamps: seq<Api.SaleStamp>, saved: seq<bool>)
    requires |stamps| >= |entries| && |saved| >= |entries|
    requires forall k :: 0 <= k < |entries| ==> saved[k]
    requires d.products == products && UniqueProductIds(products) && DistinctKeys(entries)
    requires Ready(SelectLines(entries, products))
    ensures Postable(d, SelectLines(entries, products), stamps, saved)
  {
    var lines := SelectLines(entries, products);
    SelectedLinesFound(entries, products);
    SelectedLinesDistinct(entries, products);
    assert forall k :: 0 <= k < |lines| ==> LineOk(lines[k]);
  }

  /** Stock that lost, product by product, what the selected lines take is
      the page's local update. */
  lemma StockMatchesLocal(products: seq<Product>, entries: seq<Entry>, after: seq<Product>)
    requires UniqueProductIds(products) && DistinctKeys(entries) && |after| == |products|
    requires forall m :: 0 <= m < |products| ==>
      after[m] == AfterSelling(products[m], Taken(SelectLines(entries, products), products[m].id))
    ensures after == LocalAfterSale(products, entries)
  {
    var local := LocalAfterSale(products, entries);
    forall m | 0 <= m < |products|
      ensures after[m] == local[m]
    {
      assert HasProduct(products, products[m].id);
      TakenIsSellQuantity(entries, products, products[m].id);
    }
  }

  /** The Sales component's state. */
  class SalesView {
    var products: seq<Product>
    var sellQuantities: seq<Entry>
    var error: Notice

    /** The page once its products have been fetched. */
    constructor (fetched: seq<Product>)
      ensures products == fetched && sellQuantities == [] && error == NoNotice
    {
      products, sellQuantities, error := fetched, [], NoNotice;
    }

    /** handleBulkSale, posting to `server`. */
    method HandleBulkSale(server: Server.Store, stamps: seq<Api.SaleStamp>, saved: seq<bool>)
      returns (o: BulkOutcome)
      requires |stamps| >= |sellQuantities| && |saved| >= |sellQuantities|
      modifies this, server
      ensures BulkSale(old(products), old(sellQuantities), old(server.Document()), stamps, saved)
           == BulkResult(products, sellQuantities, error, server.Document(), o)
    {
      var lines := SelectLines(sellQuantities, products);
      if |lines| == 0 {
        error := EnterQuantities;
        return Refused;
      }
      var problem := Validate(lines);
      if problem != NoNotice {
        error := problem;
        return Refused;
      }
      var successfulSales, totalRevenue, failure := PostLines(server, lines, stamps, saved);
      if failure.Some? {
        error := RecordFailed(failure.value);
        return Stopped(successfulSales);
      }
      products := LocalAfterSale(products, sellQuantities);
      sellQuantities := [];
      error := NoNotice;
      return Completed(successfulSales, totalRevenue);
    }
  }

  /** The validation loop of handleBulkSale: every line is checked before
      anything is posted, and the first failing line names the notice. */
  method Validate(lines: seq<Line>) returns (problem: Notice)
    ensures problem == FirstProblem(lines)
  {
    var k := 0;
    while k < |lines|
      invariant 0 <= k <= |lines|
      invariant FirstProblem(lines) == FirstProblem(lines[k..])
    {
      var line := lines[k];
      assert lines[k..][0] == line && lines[k..][1..] == lines[k + 1..];
      if line.product.None? {
        return NotFound;
      }
      if line.product.value.quantity < line.quantity {
        return ShortOfStock(line.product.value.name, line.product.value.quantity);
      }
      k := k + 1;
    }
    assert lines[k..] == [];
    return NoNotice;
  }

  /** The post loop of handleBulkSale: one POST per line, counting the
      successful sales and their revenue, and stopping at the first error. */
  method PostLines(server: Server.Store, lines: seq<Line>, stamps: seq<Api.SaleStamp>, saved: seq<bool>)
    returns (successfulSales: nat, totalRevenue: int, failure: Option<string>)
    requires Found(lines) && |stamps| >= |lines| && |saved| >= |lines|
    modifies server
    ensures var run := RunPosts(old(server.Document()), lines, stamps, saved);
      && server.Document() == run.doc && successfulSales == run.posted
      && totalRevenue == run.revenue && failure == run.failure
  {
    ghost var whole := RunPosts(server.Document(), lines, stamps, saved);
    assert lines[0..] == lines && stamps[0..] == stamps && saved[0..] == saved;
    successfulSales, totalRevenue := 0, 0;
    var k := 0;
    while k < |lines|
      invariant 0 <= k <= |lines| && successfulSales == k
      invariant whole == Resume(RunPosts(server.Document(), lines[k..], stamps[k..], saved[k..]), k, totalRevenue)
    {
      var p := lines[k].product.value;
      var total := LineTotal(lines[k]);
      RunPostsFrom(server.Document(), lines, stamps, saved, k);
      ghost var o := Post(server.Document(), lines[k], stamps[k], saved[k]);
      var response := server.CreateSale(p.id, lines[k].quantity, total, stamps[k], saved[k]);
      assert server.Document() == o.doc && response == o.response;
      if response.Ok? {
        successfulSales := successfulSales + 1;
        totalRevenue := totalRevenue + total;
      } else {
        return successfulSales, totalRevenue, Some(FailureMessage(response.error, p.name));
      }
      k := k + 1;
    }
    assert lines[k..] == [];
    failure := None;
  }
}
