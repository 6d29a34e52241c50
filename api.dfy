/** What each handler of backend/server.js does to the document, as a pure
    function from the document it loaded to the document it writes back and
    the response it sends. The `saved` parameter is the outcome of
    `writeData`: when the write fails the response is a 500 and, since every
    handler re-reads the file, nothing of the in-memory change survives. */
module Api {
  import opened Model

  datatype ApiError = ApiError(status: int, message: string)

  datatype Response<T> = Ok(value: T) | Err(error: ApiError)

  /** The document after a request, and the reply to it. */
  datatype Outcome<T> = Outcome(doc: Doc, response: Response<T>)

  const MissingFields := ApiError(400, "Missing required fields")
  const ProductNotFound := ApiError(404, "Product not found")
  const SaleNotFound := ApiError(404, "Sale not found")
  const InsufficientStock := ApiError(400, "Insufficient stock")
  const InvalidAdjustment := ApiError(400, "Invalid adjustment type")
  const SaveProductFailed := ApiError(500, "Failed to save product")
  const UpdateProductFailed := ApiError(500, "Failed to update product")
  const DeleteProductFailed := ApiError(500, "Failed to delete product")
  const SaveSaleFailed := ApiError(500, "Failed to save sale")
  const UpdateSaleFailed := ApiError(500, "Failed to update sale")
  const DeleteSaleFailed := ApiError(500, "Failed to delete sale")
  const AdjustStockFailed := ApiError(500, "Failed to adjust stock")

  const ProductDeleted := "Product deleted successfully"
  const SaleDeleted := "Sale deleted successfully"
  const UnknownProduct := "Unknown Product"

  /** The JSON body of POST and PUT /api/products. A required field that is
      absent is the empty string (or 0); the two optional strings are
      `None` when absent. */
  datatype ProductBody = ProductBody(
    name: string,
    description: Option<string>,
    category: string,
    subCategory: string,
    price: int,
    quantity: int,
    imageUrl: Option<string>)

  /** The clock readings a new sale is stamped with: `Date.now()` as a string
      id, the date part of the ISO time, and `Date.now()` as a number. */
  datatype SaleStamp = SaleStamp(id: string, date: string, timestamp: int)

  /** JavaScript `v || fallback` on an optional string. */
  function OrElse(v: Option<string>, fallback: string): (r: string)
    ensures r == fallback <==> v.None? || v.value == "" || v.value == fallback
    ensures r != fallback ==> v == Some(r)
  {
    if v.Some? && v.value != "" then v.value else fallback
  }

  /** `!name || !category || !subCategory || !price || !quantity` is false:
      every required field is truthy, so a price or quantity of 0 fails. */
  predicate RequiredPresent(b: ProductBody)
  {
    b.name != "" && b.category != "" && b.subCategory != "" && b.price != 0 && b.quantity != 0
  }

  /** `Math.max(0, q - n)`, the floor of a deduction. */
  function Deduct(q: int, n: int): (r: int)
    ensures r >= 0 && r >= q - n
    ensures r == 0 || r == q - n
  {
    if q - n > 0 then q - n else 0
  }

  function Commit<T>(before: Doc, after: Doc, value: T, saved: bool, failure: ApiError): Outcome<T>
  {
    if saved then Outcome(after, Ok(value)) else Outcome(before, Err(failure))
  }

  // ---------------------------------------------------------------- products

  /** POST /api/products */
  function CreateProduct(d: Doc, b: ProductBody, id: string, createdAt: string, saved: bool): (o: Outcome<Product>)
    ensures !RequiredPresent(b) ==> o == Outcome(d, Err(MissingFields))
    ensures RequiredPresent(b) && !saved ==> o == Outcome(d, Err(SaveProductFailed))
    ensures o.response.Ok? <==> RequiredPresent(b) && saved
    ensures o.response.Ok? ==>
      var p := o.response.value;
      && o.doc == Doc(d.products + [p], d.sales)
      && p.id == id && p.createdAt == createdAt
      && p.name == b.name && p.category == b.category && p.subCategory == b.subCategory
      && p.price == b.price && p.quantity == b.quantity
      && p.description == OrElse(b.description, "") && p.imageUrl == OrElse(b.imageUrl, "")
  {
    if !RequiredPresent(b) then Outcome(d, Err(MissingFields))
    else
      var p := Product(id, b.name, OrElse(b.description, ""), b.category, b.subCategory,
                       b.price, b.quantity, OrElse(b.imageUrl, ""), createdAt);
      Commit(d, d.(products := d.products + [p]), p, saved, SaveProductFailed)
  }

  /** The record PUT /api/products/:id writes over `was`: id and createdAt
      (and nothing else) survive from the spread of the old record, and the
      optional strings fall back to their old values. */
  function Merge(was: Product, b: ProductBody): (p: Product)
    ensures p.id == was.id && p.createdAt == was.createdAt
    ensures p.name == b.name && p.category == b.category && p.subCategory == b.subCategory
    ensures p.price == b.price && p.quantity == b.quantity
    ensures b.description.None? || b.description == Some("") ==> p.description == was.description
    ensures b.imageUrl.None? || b.imageUrl == Some("") ==> p.imageUrl == was.imageUrl
    ensures b.description.Some? && b.description.value != "" ==> p.description == b.description.value
    ensures b.imageUrl.Some? && b.imageUrl.value != "" ==> p.imageUrl == b.imageUrl.value
  {
    was.(name := b.name,
         description := OrElse(b.description, was.description),
         category := b.category,
         subCategory := b.subCategory,
         price := b.price,
         quantity := b.quantity,
         imageUrl := OrElse(b.imageUrl, was.imageUrl))
  }

  /** PUT /api/products/:id */
  function UpdateProduct(d: Doc, id: string, b: ProductBody, saved: bool): (o: Outcome<Product>)
    ensures !HasProduct(d.products, id) ==> o == Outcome(d, Err(ProductNotFound))
    ensures HasProduct(d.products, id) && !saved ==> o == Outcome(d, Err(UpdateProductFailed))
    ensures o.response.Ok? <==> HasProduct(d.products, id) && saved
    ensures o.response.Ok? ==>
      var i := ProductIndex(d.products, id).value;
      var was := d.products[i];
      var p := o.response.value;
      && o.doc == Doc(d.products[i := p], d.sales)
      && p.id == was.id && p.createdAt == was.createdAt
      && p.name == b.name && p.category == b.category && p.subCategory == b.subCategory
      && p.price == b.price && p.quantity == b.quantity
      && p.description == OrElse(b.description, was.description)
      && p.imageUrl == OrElse(b.imageUrl, was.imageUrl)
  {
    match ProductIndex(d.products, id)
    case None => Outcome(d, Err(ProductNotFound))
    case Some(i) =>
      var p := Merge(d.products[i], b);
      Commit(d, d.(products := d.products[i := p]), p, saved, UpdateProductFailed)
  }

  /** DELETE /api/products/:id. Sales are left alone. */
  function DeleteProduct(d: Doc, id: string, saved: bool): (o: Outcome<string>)
    ensures !HasProduct(d.products, id) ==> o == Outcome(d, Err(ProductNotFound))
    ensures HasProduct(d.products, id) && !saved ==> o == Outcome(d, Err(DeleteProductFailed))
    ensures o.response.Ok? <==> HasProduct(d.products, id) && saved
    ensures o.response.Ok? ==>
      var i := ProductIndex(d.products, id).value;
      && o.response.value == ProductDeleted
      && o.doc == Doc(d.products[..i] + d.products[i + 1..], d.sales)
  {
    match ProductIndex(d.products, id)
    case None => Outcome(d, Err(ProductNotFound))
    case Some(i) =>
      Commit(d, d.(products := d.products[..i] + d.products[i + 1..]), ProductDeleted, saved, DeleteProductFailed)
  }

  // ------------------------------------------------------------------- sales

  /** The read-side join: a sale with the current name, image and price of
      the first product carrying its productId, or the "Unknown Product"
      placeholders when there is none. */
  function Enrich(s: Sale, ps: seq<Product>): (e: EnrichedSale)
    ensures e.sale == s
    ensures !HasProduct(ps, s.productId) ==>
      e.productName == UnknownProduct && e.productImage == "" && e.price == 0
    ensures HasProduct(ps, s.productId) ==>
      var p := ps[ProductIndex(ps, s.productId).value];
      e.productName == p.name && e.productImage == p.imageUrl && e.price == p.price
  {
    match FindProduct(ps, s.productId)
    case None => EnrichedSale(s, UnknownProduct, "", 0)
    case Some(p) => EnrichedSale(s, p.name, p.imageUrl, p.price)
  }

  /** GET /api/sales: one enriched entry per stored sale, in stored order. */
  function ListSales(d: Doc): (r: seq<EnrichedSale>)
    ensures |r| == |d.sales|
    ensures forall k :: 0 <= k < |r| ==> r[k] == Enrich(d.sales[k], d.products)
  {
    seq(|d.sales|, k requires 0 <= k < |d.sales| => Enrich(d.sales[k], d.products))
  }

  function Stamped(productId: string, quantity: int, total: int, stamp: SaleStamp): Sale
  {
    Sale(stamp.id, productId, quantity, total, stamp.date, stamp.timestamp)
  }

  /** POST /api/sales */
  function CreateSale(d: Doc, productId: string, quantity: int, total: int, stamp: SaleStamp, saved: bool)
    : (o: Outcome<EnrichedSale>)
    ensures !HasProduct(d.products, productId) ==> o == Outcome(d, Err(ProductNotFound))
    ensures HasProduct(d.products, productId) && FindProduct(d.products, productId).value.quantity < quantity ==>
      o == Outcome(d, Err(InsufficientStock))
    ensures HasProduct(d.products, productId) && FindProduct(d.products, productId).value.quantity >= quantity && !saved ==>
      o == Outcome(d, Err(SaveSaleFailed))
    ensures o.response.Err? ==> o.doc == d
    ensures o.response.Ok? <==>
      HasProduct(d.products, productId) && FindProduct(d.products, productId).value.quantity >= quantity && saved
    ensures o.response.Ok? ==>
      ProductIndex(d.products, productId).Some? &&
      var i := ProductIndex(d.products, productId).value;
      var sale := Stamped(productId, quantity, total, stamp);
      && o.doc.sales == d.sales + [sale]
      && o.doc.products == d.products[i := d.products[i].(quantity := d.products[i].quantity - quantity)]
      && o.response.value == Enrich(sale, o.doc.products)
  {
    match ProductIndex(d.products, productId)
    case None => Outcome(d, Err(ProductNotFound))
    case Some(i) =>
      var p := d.products[i];
      if p.quantity < quantity then Outcome(d, Err(InsufficientStock))
      else
        var sale := Stamped(productId, quantity, total, stamp);
        var p' := p.(quantity := p.quantity - quantity);
        IndexAfterUpdate(d.products, i, p', productId);
        Commit(d, Doc(d.products[i := p'], d.sales + [sale]),
               EnrichedSale(sale, p'.name, p'.imageUrl, p'.price), saved, SaveSaleFailed)
  }

  /** PUT /api/sales/:id: re-applies the difference between the new and the
      recorded quantity to the product's stock. */
  function UpdateSale(d: Doc, saleId: string, quantity: int, total: int, saved: bool): (o: Outcome<EnrichedSale>)
    ensures SaleIndex(d.sales, saleId).None? ==> o == Outcome(d, Err(SaleNotFound))
    ensures SaleIndex(d.sales, saleId).Some? ==>
      var s := d.sales[SaleIndex(d.sales, saleId).value];
      var delta := quantity - s.quantity;
      && (ProductIndex(d.products, s.productId).None? ==> o == Outcome(d, Err(ProductNotFound)))
      && (ProductIndex(d.products, s.productId).Some? && delta > 0 && FindProduct(d.products, s.productId).value.quantity < delta ==>
            o == Outcome(d, Err(InsufficientStock)))
      && (ProductIndex(d.products, s.productId).Some? && !saved &&
          (delta <= 0 || FindProduct(d.products, s.productId).value.quantity >= delta) ==>
            o == Outcome(d, Err(UpdateSaleFailed)))
      && (o.response.Ok? <==>
            ProductIndex(d.products, s.productId).Some? && saved &&
            (delta <= 0 || FindProduct(d.products, s.productId).value.quantity >= delta))
    ensures o.response.Err? ==> o.doc == d
    ensures o.response.Ok? ==>
      SaleIndex(d.sales, saleId).Some? && ProductIndex(d.products, d.sales[SaleIndex(d.sales, saleId).value].productId).Some? &&
      var k := SaleIndex(d.sales, saleId).value;
      var s := d.sales[k];
      var i := ProductIndex(d.products, s.productId).value;
      var s' := s.(quantity := quantity, total := total);
      && o.doc.sales == d.sales[k := s']
      && o.doc.products == d.products[i := d.products[i].(quantity := d.products[i].quantity - (quantity - s.quantity))]
      && o.response.value == Enrich(s', o.doc.products)
  {
    match SaleIndex(d.sales, saleId)
    case None => Outcome(d, Err(SaleNotFound))
    case Some(k) =>
      var s := d.sales[k];
      match ProductIndex(d.products, s.productId)
      case None => Outcome(d, Err(ProductNotFound))
      case Some(i) =>
        var p := d.products[i];
        var delta := quantity - s.quantity;
        if delta > 0 && p.quantity < delta then Outcome(d, Err(InsufficientStock))
        else
          var s' := s.(quantity := quantity, total := total);
          var p' := p.(quantity := p.quantity - delta);
          IndexAfterUpdate(d.products, i, p', s.productId);
          Commit(d, Doc(d.products[i := p'], d.sales[k := s']),
                 EnrichedSale(s', p'.name, p'.imageUrl, p'.price), saved, UpdateSaleFailed)
  }

  /** DELETE /api/sales/:id: gives the sold quantity back to the product if
      it still exists. */
  function DeleteSale(d: Doc, saleId: string, saved: bool): (o: Outcome<string>)
    ensures !HasSale(d.sales, saleId) ==> o == Outcome(d, Err(SaleNotFound))
    ensures HasSale(d.sales, saleId) && !saved ==> o == Outcome(d, Err(DeleteSaleFailed))
    ensures o.response.Ok? <==> HasSale(d.sales, saleId) && saved
    ensures o.response.Ok? ==>
      var k := SaleIndex(d.sales, saleId).value;
      var s := d.sales[k];
      && o.response.value == SaleDeleted
      && o.doc.sales == d.sales[..k] + d.sales[k + 1..]
      && (!HasProduct(d.products, s.productId) ==> o.doc.products == d.products)
      && (HasProduct(d.products, s.productId) ==>
            var i := ProductIndex(d.products, s.productId).value;
            o.doc.products == d.products[i := d.products[i].(quantity := d.products[i].quantity + s.quantity)])
  {
    match SaleIndex(d.sales, saleId)
    case None => Outcome(d, Err(SaleNotFound))
    case Some(k) =>
      var s := d.sales[k];
      var ps := match ProductIndex(d.products, s.productId)
                case None => d.products
                case Some(i) => d.products[i := d.products[i].(quantity := d.products[i].quantity + s.quantity)];
      Commit(d, Doc(ps, d.sales[..k] + d.sales[k + 1..]), SaleDeleted, saved, DeleteSaleFailed)
  }

  // ------------------------------------------------------------------- stock

  /** POST /api/stock/adjust. The product is looked up before the
      adjustment type is examined. */
  function AdjustStock(d: Doc, productId: string, kind: string, n: int, saved: bool): (o: Outcome<Product>)
    ensures !HasProduct(d.products, productId) ==> o == Outcome(d, Err(ProductNotFound))
    ensures HasProduct(d.products, productId) && kind != "add" && kind != "deduct" ==>
      o == Outcome(d, Err(InvalidAdjustment))
    ensures HasProduct(d.products, productId) && (kind == "add" || kind == "deduct") && !saved ==>
      o == Outcome(d, Err(AdjustStockFailed))
    ensures o.response.Err? ==> o.doc == d
    ensures o.response.Ok? <==> HasProduct(d.products, productId) && (kind == "add" || kind == "deduct") && saved
    ensures o.response.Ok? ==>
      var i := ProductIndex(d.products, productId).value;
      var was := d.products[i];
      var p := o.response.value;
      && o.doc == Doc(d.products[i := p], d.sales)
      && p == was.(quantity := p.quantity)
      && (kind == "add" ==> p.quantity == was.quantity + n)
      && (kind == "deduct" ==> p.quantity >= 0 && p.quantity >= was.quantity - n &&
                               (p.quantity == 0 || p.quantity == was.quantity - n))
  {
    match ProductIndex(d.products, productId)
    case None => Outcome(d, Err(ProductNotFound))
    case Some(i) =>
      var p := d.products[i];
      if kind == "add" then
        var p' := p.(quantity := p.quantity + n);
        Commit(d, d.(products := d.products[i := p']), p', saved, AdjustStockFailed)
      else if kind == "deduct" then
        var p' := p.(quantity := Deduct(p.quantity, n));
        Commit(d, d.(products := d.products[i := p']), p', saved, AdjustStockFailed)
      else Outcome(d, Err(InvalidAdjustment))
  }
}
