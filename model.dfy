/** The records kept in the café's single JSON document, and the first-match
    lookups (`find` / `findIndex`) that every handler uses to locate them. */
module Model {

  datatype Option<T> = None | Some(value: T)

  /** A product as stored in the `products` array. Money is an integer amount
      (the source uses JavaScript numbers); `quantity` is the stock level. */
  datatype Product = Product(
    id: string,
    name: string,
    description: string,
    category: string,
    subCategory: string,
    price: int,
    quantity: int,
    imageUrl: string,
    createdAt: string)

  /** A sale as stored in the `sales` array. */
  datatype Sale = Sale(
    id: string,
    productId: string,
    quantity: int,
    total: int,
    date: string,
    timestamp: int)

  /** A sale as the server hands it to the frontend: the stored record plus a
      snapshot of its product's name, image and price. */
  datatype EnrichedSale = EnrichedSale(
    sale: Sale,
    productName: string,
    productImage: string,
    price: int)

  /** The whole persisted document. */
  datatype Doc = Doc(products: seq<Product>, sales: seq<Sale>)

  /** No two products share an id. The server never checks this; ids come
      from the clock. */
  ghost predicate UniqueProductIds(ps: seq<Product>)
  {
    forall i, j :: 0 <= i < j < |ps| ==> ps[i].id != ps[j].id
  }

  ghost predicate HasProduct(ps: seq<Product>, id: string)
  {
    exists j :: 0 <= j < |ps| && ps[j].id == id
  }

  ghost predicate HasSale(ss: seq<Sale>, id: string)
  {
    exists j :: 0 <= j < |ss| && ss[j].id == id
  }

  /** `products.findIndex(p => p.id === id)`: the FIRST index carrying `id`,
      `None` standing for -1. */
  function ProductIndex(ps: seq<Product>, id: string): (r: Option<nat>)
    ensures r.None? <==> !HasProduct(ps, id)
    ensures r.Some? ==> r.value < |ps| && ps[r.value].id == id
    ensures r.Some? ==> forall j :: 0 <= j < r.value ==> ps[j].id != id
  {
    if |ps| == 0 then None
    else if ps[0].id == id then Some(0)
    else
      match ProductIndex(ps[1..], id)
      case None =>
        assert forall j :: 1 <= j < |ps| ==> ps[j] == ps[1..][j - 1];
        None
      case Some(k) => Some(k + 1)
  }

  /** `sales.findIndex(s => s.id === id)`. */
  function SaleIndex(ss: seq<Sale>, id: string): (r: Option<nat>)
    ensures r.None? <==> !HasSale(ss, id)
    ensures r.Some? ==> r.value < |ss| && ss[r.value].id == id
    ensures r.Some? ==> forall j :: 0 <= j < r.value ==> ss[j].id != id
  {
    if |ss| == 0 then None
    else if ss[0].id == id then Some(0)
    else
      match SaleIndex(ss[1..], id)
      case None =>
        assert forall j :: 1 <= j < |ss| ==> ss[j] == ss[1..][j - 1];
        None
      case Some(k) => Some(k + 1)
  }

  /** `products.find(p => p.id === id)`: the record `ProductIndex` points at. */
  function FindProduct(ps: seq<Product>, id: string): (r: Option<Product>)
    ensures r.None? <==> !HasProduct(ps, id)
    ensures r.Some? ==> r.value in ps && r.value.id == id
    ensures r.Some? ==> ProductIndex(ps, id).Some? && r.value == ps[ProductIndex(ps, id).value]
  {
    match ProductIndex(ps, id)
    case None => None
    case Some(i) => Some(ps[i])
  }

  /** Overwriting a record with one of the same id moves no lookup. */
  lemma {:induction false} IndexAfterUpdate(ps: seq<Product>, i: nat, p: Product, id: string)
    requires i < |ps| && p.id == ps[i].id
    ensures ProductIndex(ps[i := p], id) == ProductIndex(ps, id)
  {
    if i > 0 && ps[0].id != id {
      assert ps[i := p][1..] == ps[1..][i - 1 := p];
      IndexAfterUpdate(ps[1..], i - 1, p, id);
    }
  }

  /** Overwriting a sale with one of the same id moves no lookup. */
  lemma {:induction false} SaleIndexAfterUpdate(ss: seq<Sale>, k: nat, s: Sale, id: string)
    requires k < |ss| && s.id == ss[k].id
    ensures SaleIndex(ss[k := s], id) == SaleIndex(ss, id)
  {
    if k > 0 && ss[0].id != id {
      assert ss[k := s][1..] == ss[1..][k - 1 := s];
      SaleIndexAfterUpdate(ss[1..], k - 1, s, id);
    }
  }

  /** A record appended under an id nobody had is found at the end. */
  lemma ProductIndexAppendFresh(ps: seq<Product>, p: Product)
    requires !HasProduct(ps, p.id)
    ensures ProductIndex(ps + [p], p.id) == Some(|ps|)
  {
    assert (ps + [p])[|ps|].id == p.id;
    assert forall j :: 0 <= j < |ps| ==> (ps + [p])[j] == ps[j];
  }

  lemma SaleIndexAppendFresh(ss: seq<Sale>, s: Sale)
    requires !HasSale(ss, s.id)
    ensures SaleIndex(ss + [s], s.id) == Some(|ss|)
  {
    assert (ss + [s])[|ss|].id == s.id;
    assert forall j :: 0 <= j < |ss| ==> (ss + [s])[j] == ss[j];
  }
}
