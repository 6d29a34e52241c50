/** The Express handlers of backend/server.js as methods of one object that
    holds the persisted document. Each method copies the document (readData),
    changes the copy step by step as the handler does (push, splice, an
    assignment to one field of one record) and commits the copy through
    WriteData. Each is proved to do what the matching function of Api says. */
module Server {
  import opened Model
  import Api

  class Store {
    var products: seq<Product>
    var sales: seq<Sale>

    function Document(): Doc
      reads this
    {
      Doc(products, sales)
    }

    /** The server starting with no data file writes an empty document. */
    constructor ()
      ensures Document() == Doc([], [])
    {
      products, sales := [], [];
    }

    /** readData */
    method ReadData() returns (data: Doc)
      ensures data == Document()
    {
      data := Doc(products, sales);
    }

    /** writeData: the whole document replaces the old one when the write
        succeeds, and nothing is written when it fails. */
    method WriteData(data: Doc, saved: bool) returns (ok: bool)
      modifies this
      ensures ok == saved
      ensures Document() == if saved then data else old(Document())
    {
      if saved {
        products, sales := data.products, data.sales;
      }
      ok := saved;
    }

    /** GET /api/products */
    method ListProducts() returns (r: seq<Product>)
      ensures r == Document().products
    {
      var data := ReadData();
      r := data.products;
    }

    /** POST /api/products */
    method CreateProduct(b: Api.ProductBody, id: string, createdAt: string, saved: bool)
      returns (r: Api.Response<Product>)
      modifies this
      ensures var o := Api.CreateProduct(old(Document()), b, id, createdAt, saved);
        Document() == o.doc && r == o.response
    {
      var data := ReadData();
      if !Api.RequiredPresent(b) {
        return Api.Err(Api.MissingFields);
      }
      var p := Product(id, b.name, Api.OrElse(b.description, ""), b.category, b.subCategory,
                       b.price, b.quantity, Api.OrElse(b.imageUrl, ""), createdAt);
      data := data.(products := data.products + [p]);
      var ok := WriteData(data, saved);
      r := if ok then Api.Ok(p) else Api.Err(Api.SaveProductFailed);
    }

    /** PUT /api/products/:id */
    method UpdateProduct(id: string, b: Api.ProductBody, saved: bool) returns (r: Api.Response<Product>)
      modifies this
      ensures var o := Api.UpdateProduct(old(Document()), id, b, saved);
        Document() == o.doc && r == o.response
    {
      var data := ReadData();
      var index := ProductIndex(data.products, id);
      if index.None? {
        return Api.Err(Api.ProductNotFound);
      }
      var i := index.value;
      data := data.(products := data.products[i := Api.Merge(data.products[i], b)]);
      var ok := WriteData(data, saved);
      r := if ok then Api.Ok(data.products[i]) else Api.Err(Api.UpdateProductFailed);
    }

    /** DELETE /api/products/:id */
    method DeleteProduct(id: string, saved: bool) returns (r: Api.Response<string>)
      modifies this
      ensures var o := Api.DeleteProduct(old(Document()), id, saved);
        Document() == o.doc && r == o.response
    {
      var data := ReadData();
      var index := ProductIndex(data.products, id);
      if index.None? {
        return Api.Err(Api.ProductNotFound);
      }
      var i := index.value;
      data := data.(products := data.products[..i] + data.products[i + 1..]);
      var ok := WriteData(data, saved);
      r := if ok then Api.Ok(Api.ProductDeleted) else Api.Err(Api.DeleteProductFailed);
    }

    /** GET /api/sales */
    method ListSales() returns (r: seq<EnrichedSale>)
      ensures r == Api.ListSales(Document())
    {
      var data := ReadData();
      r := Api.ListSales(data);
    }

    /** POST /api/sales */
    method CreateSale(productId: string, quantity: int, total: int, stamp: Api.SaleStamp, saved: bool)
      returns (r: Api.Response<EnrichedSale>)
      modifies this
      ensures var o := Api.CreateSale(old(Document()), productId, quantity, total, stamp, saved);
        Document() == o.doc && r == o.response
    {
      var data := ReadData();
      var index := ProductIndex(data.products, productId);
      if index.None? {
        return Api.Err(Api.ProductNotFound);
      }
      var i := index.value;
      if data.products[i].quantity < quantity {
        return Api.Err(Api.InsufficientStock);
      }
      var sale := Api.Stamped(productId, quantity, total, stamp);
      data := data.(sales := data.sales + [sale]);
      data := data.(products := data.products[i := data.products[i].(quantity := data.products[i].quantity - quantity)]);
      var ok := WriteData(data, saved);
      var p := data.products[i];
      r := if ok then Api.Ok(EnrichedSale(sale, p.name, p.imageUrl, p.price)) else Api.Err(Api.SaveSaleFailed);
    }

    /** PUT /api/sales/:id */
    method UpdateSale(saleId: string, quantity: int, total: int, saved: bool)
      returns (r: Api.Response<EnrichedSale>)
      modifies this
      ensures var o := Api.UpdateSale(old(Document()), saleId, quantity, total, saved);
        Document() == o.doc && r == o.response
    {
      var data := ReadData();
      var saleIndex := SaleIndex(data.sales, saleId);
      if saleIndex.None? {
        return Api.Err(Api.SaleNotFound);
      }
      var k := saleIndex.value;
      var original := data.sales[k];
      var index := ProductIndex(data.products, original.productId);
      if index.None? {
        return Api.Err(Api.ProductNotFound);
      }
      var i := index.value;
      var difference := quantity - original.quantity;
      if difference > 0 && data.products[i].quantity < difference {
        return Api.Err(Api.InsufficientStock);
      }
      ghost var before := data;
      data := data.(sales := data.sales[k := data.sales[k].(quantity := quantity)]);
      data := data.(sales := data.sales[k := data.sales[k].(total := total)]);
      data := data.(products := data.products[i := data.products[i].(quantity := data.products[i].quantity - difference)]);
      var p := data.products[i];
      assert Api.UpdateSale(before, saleId, quantity, total, saved)
          == Api.Commit(before, data, EnrichedSale(data.sales[k], p.name, p.imageUrl, p.price), saved, Api.UpdateSaleFailed);
      var ok := WriteData(data, saved);
      r := if ok then Api.Ok(EnrichedSale(data.sales[k], p.name, p.imageUrl, p.price)) else Api.Err(Api.UpdateSaleFailed);
    }

    /** DELETE /api/sales/:id */
    method DeleteSale(saleId: string, saved: bool) returns (r: Api.Response<string>)
      modifies this
      ensures var o := Api.DeleteSale(old(Document()), saleId, saved);
        Document() == o.doc && r == o.response
    {
      var data := ReadData();
      var saleIndex := SaleIndex(data.sales, saleId);
      if saleIndex.None? {
        return Api.Err(Api.SaleNotFound);
      }
      var k := saleIndex.value;
      var deleted := data.sales[k];
      var index := ProductIndex(data.products, deleted.productId);
      if index.Some? {
        var i := index.value;
        data := data.(products := data.products[i := data.products[i].(quantity := data.products[i].quantity + deleted.quantity)]);
      }
      data := data.(sales := data.sales[..k] + data.sales[k + 1..]);
      var ok := WriteData(data, saved);
      r := if ok then Api.Ok(Api.SaleDeleted) else Api.Err(Api.DeleteSaleFailed);
    }

    /** POST /api/stock/adjust */
    method AdjustStock(productId: string, kind: string, n: int, saved: bool) returns (r: Api.Response<Product>)
      modifies this
      ensures var o := Api.AdjustStock(old(Document()), productId, kind, n, saved);
        Document() == o.doc && r == o.response
    {
      var data := ReadData();
      var index := ProductIndex(data.products, productId);
      if index.None? {
        return Api.Err(Api.ProductNotFound);
      }
      var i := index.value;
      if kind == "add" {
        data := data.(products := data.products[i := data.products[i].(quantity := data.products[i].quantity + n)]);
      } else if kind == "deduct" {
        data := data.(products := data.products[i := data.products[i].(quantity := Api.Deduct(data.products[i].quantity, n))]);
      } else {
        return Api.Err(Api.InvalidAdjustment);
      }
      var ok := WriteData(data, saved);
      r := if ok then Api.Ok(data.products[i]) else Api.Err(Api.AdjustStockFailed);
    }
  }
}
