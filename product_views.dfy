/**
 * The product endpoints and the read-through cache in front of the
 * product listing.
 *
 * Every catalog write (create, update, destroy) saves to the product table
 * first and then deletes the one cache key 'product_list'. `list` answers
 * from that key when it holds a non-empty listing; otherwise it computes the
 * listing from the table for the query at hand and stores it under the same
 * key for 300 seconds. The key does not depend on the query, and placing an
 * order (which lowers stock in the same table) does not touch the cache.
 */
module ProductViews {

  import opened Outcomes
  import opened Models
  import Ledger

  const ProductListKey: string := "product_list"
  /** Seconds a stored listing lives. */
  const ListTimeout: nat := 300

  /** A product as it appears in a listing. */
  datatype ProductView = ProductView(id: ProductId, product: Product)

  datatype OrderingField = CreatedAt | Price
  datatype Ordering = Ordering(field: OrderingField, descending: bool)
  /** Oldest first, when the query names no ordering. */
  const DefaultOrdering: Ordering := Ordering(CreatedAt, false)

  /** The `category` and `price` exact-match filters and the `ordering` parameter. */
  datatype ListQuery = ListQuery(category: Option<CategoryId>, price: Option<int>, ordering: Option<Ordering>)
  const PlainQuery: ListQuery := ListQuery(None, None, None)

  datatype CacheEntry = CacheEntry(data: seq<ProductView>, timeout: nat)

  /** The writable fields of a product. */
  datatype ProductInput = ProductInput(name: string, price: int, stock: int, category: CategoryId)

  datatype ViewError = NotAuthenticated | NotFound

  // ---------------------------------------------------------------------------
  // Permissions: `IsAuthenticatedOrReadOnly`

  datatype HttpMethod = GET | HEAD | OPTIONS | POST | PUT | PATCH | DELETE

  predicate Safe(m: HttpMethod) {
    m == GET || m == HEAD || m == OPTIONS
  }

  predicate Permitted(m: HttpMethod, requester: Option<UserId>) {
    Safe(m) || requester.Some?
  }

  /** Anyone may read; creating, updating and deleting need a signed-in user. */
  lemma ReadsOpenWritesNeedLogin(requester: Option<UserId>)
    ensures Permitted(GET, requester)
    ensures forall m :: !Safe(m) ==> (Permitted(m, requester) <==> requester.Some?)
    ensures !Permitted(POST, None) && !Permitted(PUT, None) && !Permitted(PATCH, None) && !Permitted(DELETE, None)
  {
  }

  // ---------------------------------------------------------------------------
  // The computed listing

  /** The product table in primary-key order, for keys below `bound`. */
  function Rows(products: map<ProductId, Product>, bound: nat): (r: seq<ProductView>)
    ensures forall v :: v in r <==> v.id < bound && v.id in products && products[v.id] == v.product
    ensures forall i, j :: 0 <= i < j < |r| ==> r[i].id < r[j].id
  {
    if bound == 0 then []
    else
      var id := bound - 1;
      Rows(products, id) + if id in products then [ProductView(id, products[id])] else []
  }

  predicate Matches(q: ListQuery, v: ProductView) {
    && (q.category.None? || v.product.category == q.category.value)
    && (q.price.None? || v.product.price == q.price.value)
  }

  predicate DistinctIds(s: seq<ProductView>) {
    forall i, j :: 0 <= i < j < |s| ==> s[i].id != s[j].id
  }

  /** The rows the query's filters keep, in their original order. */
  function Filter(q: ListQuery, s: seq<ProductView>): (r: seq<ProductView>)
    ensures forall v :: v in r <==> v in s && Matches(q, v)
    ensures DistinctIds(s) ==> DistinctIds(r)
  {
    if s == [] then []
    else
      var rest := Filter(q, s[1..]);
      assert forall v :: v in s[1..] ==> v in s;
      assert DistinctIds(s) ==> forall v :: v in s[1..] ==> v.id != s[0].id;
      if Matches(q, s[0]) then [s[0]] + rest else rest
  }

  function OrderingOf(q: ListQuery): Ordering {
    if q.ordering.Some? then q.ordering.value else DefaultOrdering
  }

  function Field(f: OrderingField, v: ProductView): int {
    match f
    case CreatedAt => v.product.createdAt
    case Price => v.product.price
  }

  /** `a` may come before `b` under ordering `o`. */
  predicate Precedes(o: Ordering, a: ProductView, b: ProductView) {
    if o.descending then Field(o.field, a) >= Field(o.field, b) else Field(o.field, a) <= Field(o.field, b)
  }

  predicate Sorted(o: Ordering, s: seq<ProductView>) {
    forall i, j :: 0 <= i < j < |s| ==> Precedes(o, s[i], s[j])
  }

  function Insert(o: Ordering, v: ProductView, s: seq<ProductView>): (r: seq<ProductView>)
    ensures multiset(r) == multiset(s) + multiset{v}
  {
    if s == [] || Precedes(o, v, s[0]) then [v] + s
    else
      assert s == [s[0]] + s[1..];
      [s[0]] + Insert(o, v, s[1..])
  }

  lemma {:induction false} InsertSorted(o: Ordering, v: ProductView, s: seq<ProductView>)
    requires Sorted(o, s)
    ensures Sorted(o, Insert(o, v, s))
  {
    if s != [] && !Precedes(o, v, s[0]) {
      var rest := Insert(o, v, s[1..]);
      InsertSorted(o, v, s[1..]);
      forall x | x in rest ensures Precedes(o, s[0], x) {
        assert x in multiset(rest);
        if x != v {
          assert x in s[1..];
        }
      }
    }
  }

  lemma {:induction false} InsertDistinct(o: Ordering, v: ProductView, s: seq<ProductView>)
    requires DistinctIds(s) && forall x :: x in s ==> x.id != v.id
    ensures DistinctIds(Insert(o, v, s))
  {
    if s != [] && !Precedes(o, v, s[0]) {
      var rest := Insert(o, v, s[1..]);
      InsertDistinct(o, v, s[1..]);
      forall x | x in rest ensures x.id != s[0].id {
        assert x in multiset(rest);
        if x != v {
          var k :| 0 <= k < |s[1..]| && s[1..][k] == x;
          assert s[k + 1] == x;
        }
      }
    }
  }

  /** Insertion sort under ordering `o`. */
  function SortBy(o: Ordering, s: seq<ProductView>): (r: seq<ProductView>)
    ensures multiset(r) == multiset(s)
  {
    if s == [] then []
    else
      assert s == [s[0]] + s[1..];
      Insert(o, s[0], SortBy(o, s[1..]))
  }

  lemma {:induction false} SortBySorted(o: Ordering, s: seq<ProductView>)
    ensures Sorted(o, SortBy(o, s))
  {
    if s != [] {
      SortBySorted(o, s[1..]);
      InsertSorted(o, s[0], SortBy(o, s[1..]));
    }
  }

  lemma {:induction false} SortByDistinct(o: Ordering, s: seq<ProductView>)
    requires DistinctIds(s)
    ensures DistinctIds(SortBy(o, s))
  {
    if s != [] {
      var rest := SortBy(o, s[1..]);
      SortByDistinct(o, s[1..]);
      forall x | x in rest ensures x.id != s[0].id {
        assert x in multiset(s[1..]);
        var k :| 0 <= k < |s[1..]| && s[1..][k] == x;
        assert s[k + 1] == x;
      }
      InsertDistinct(o, s[0], rest);
    }
  }

  /** What the framework's `list` computes: the products below `bound` that
      pass the query's filters, each once, in the query's ordering. */
  function Listing(products: map<ProductId, Product>, bound: nat, q: ListQuery): (r: seq<ProductView>)
    ensures forall v :: v in r <==> v.id < bound && v.id in products && products[v.id] == v.product && Matches(q, v)
    ensures DistinctIds(r)
    ensures Sorted(OrderingOf(q), r)
  {
    var kept := Filter(q, Rows(products, bound));
    var r := SortBy(OrderingOf(q), kept);
    SortBySorted(OrderingOf(q), kept);
    SortByDistinct(OrderingOf(q), kept);
    assert forall v :: v in r <==> v in multiset(kept);
    r
  }

  /** With no filter, every stored product below the bound is listed. */
  lemma ListsEveryStoredProduct(products: map<ProductId, Product>, bound: nat, id: ProductId)
    requires id in products && id < bound
    ensures ProductView(id, products[id]) in Listing(products, bound, PlainQuery)
  {
  }

  /** Without an ordering parameter the listing runs from the oldest product
      to the newest. */
  lemma DefaultListingOldestFirst(products: map<ProductId, Product>, bound: nat, q: ListQuery, i: nat, j: nat)
    requires q.ordering.None? && i < j < |Listing(products, bound, q)|
    ensures Listing(products, bound, q)[i].product.createdAt <= Listing(products, bound, q)[j].product.createdAt
  {
  }

  /** Placing an order that requests a listed product changes what a fresh
      listing shows (that product's stock), so a listing stored before the
      order no longer matches the table. */
  lemma OrderChangesListing(products: map<ProductId, Product>, lines: seq<Ledger.Line>, bound: nat, q: ListQuery, id: ProductId)
    requires Ledger.Known(products, lines) && id in products && id < bound
    requires Matches(q, ProductView(id, products[id])) && Ledger.Requested(id, lines) != 0
    ensures Listing(Ledger.Apply(products, lines), bound, q) != Listing(products, bound, q)
  {
    Ledger.StockDropsByRequested(products, lines, id);
    var v := ProductView(id, products[id]);
    assert v in Listing(products, bound, q);
    assert v !in Listing(Ledger.Apply(products, lines), bound, q);
  }

  // ---------------------------------------------------------------------------
  // The view set

  class ProductViewSet {
    /** The database the catalog lives in, shared with order placement. */
    const db: Ledger.Store
    /** The key-value cache; only 'product_list' is used here. */
    var cache: map<string, CacheEntry>
    /** The query the stored listing was computed for. */
    ghost var cachedQuery: ListQuery

    /** The stored listing, if any, is what `list` would compute now for the
        query that filled it. Catalog writes keep this; placing an order does
        not. */
    ghost predicate ListingCurrent()
      reads this, db
    {
      ProductListKey in cache ==>
        cache[ProductListKey].data == Listing(db.products, db.nextProductId, cachedQuery)
    }

    /** A non-empty listing is stored: `list` answers from the cache. */
    ghost predicate Warm()
      reads this
    {
      ProductListKey in cache && cache[ProductListKey].data != []
    }

    constructor (db: Ledger.Store)
      ensures this.db == db && cache == map[] && ListingCurrent()
    {
      this.db := db;
      cache := map[];
      cachedQuery := PlainQuery;
    }

    /** `POST /products`: save a new row (timestamped `now`), then drop the listing. */
    method Create(requester: Option<UserId>, input: ProductInput, now: int) returns (r: Result<ProductId, ViewError>)
      requires db.Valid()
      modifies this, db
      ensures db.Valid() && db.orders == old(db.orders) && db.items == old(db.items)
      ensures requester.None? ==>
                r == Err(NotAuthenticated) && cache == old(cache)
                && db.products == old(db.products) && db.nextProductId == old(db.nextProductId)
      ensures requester.Some? ==>
                r == Ok(old(db.nextProductId)) && r.value !in old(db.products)
                && db.products == old(db.products)[r.value := Product(input.name, input.price, input.stock, input.category, now)]
                && db.nextProductId == old(db.nextProductId) + 1
                && cache == old(cache) - {ProductListKey}
      ensures old(ListingCurrent()) ==> ListingCurrent()
    {
      if !Permitted(POST, requester) {
        return Err(NotAuthenticated);
      }
      var id := db.InsertProduct(Product(input.name, input.price, input.stock, input.category, now));
      cache := cache - {ProductListKey};
      r := Ok(id);
    }

    /** `PUT /products/{id}`: overwrite the writable fields, then drop the listing. */
    method Update(requester: Option<UserId>, id: ProductId, input: ProductInput) returns (r: Result<ProductId, ViewError>)
      requires db.Valid()
      modifies this, db
      ensures db.Valid() && db.orders == old(db.orders) && db.items == old(db.items)
      ensures db.nextProductId == old(db.nextProductId)
      ensures requester.None? ==> r == Err(NotAuthenticated)
      ensures requester.Some? && id !in old(db.products) ==> r == Err(NotFound)
      ensures r.Err? ==> cache == old(cache) && db.products == old(db.products)
      ensures requester.Some? && id in old(db.products) ==>
                r == Ok(id)
                && db.products == old(db.products)[id := Product(input.name, input.price, input.stock, input.category,
                                                                 old(db.products)[id].createdAt)]
                && cache == old(cache) - {ProductListKey}
      ensures old(ListingCurrent()) ==> ListingCurrent()
    {
      if !Permitted(PUT, requester) {
        return Err(NotAuthenticated);
      }
      if id !in db.products {
        return Err(NotFound);
      }
      var stored := db.products[id];
      db.SaveProduct(id, Product(input.name, input.price, input.stock, input.category, stored.createdAt));
      cache := cache - {ProductListKey};
      r := Ok(id);
    }

    /** `DELETE /products/{id}`: delete the row, then drop the listing. */
    method Destroy(requester: Option<UserId>, id: ProductId) returns (r: Result<ProductId, ViewError>)
      requires db.Valid()
      modifies this, db
      ensures db.Valid() && db.orders == old(db.orders) && db.items == old(db.items)
      ensures db.nextProductId == old(db.nextProductId)
      ensures requester.None? ==> r == Err(NotAuthenticated)
      ensures requester.Some? && id !in old(db.products) ==> r == Err(NotFound)
      ensures r.Err? ==> cache == old(cache) && db.products == old(db.products)
      ensures requester.Some? && id in old(db.products) ==>
                r == Ok(id) && db.products == old(db.products) - {id} && cache == old(cache) - {ProductListKey}
      ensures old(ListingCurrent()) ==> ListingCurrent()
    {
      if !Permitted(DELETE, requester) {
        return Err(NotAuthenticated);
      }
      if id !in db.products {
        return Err(NotFound);
      }
      db.DeleteProduct(id);
      cache := cache - {ProductListKey};
      r := Ok(id);
    }

    /** `GET /products`: the stored listing when it is non-empty, whatever the
        query; otherwise the listing computed for this query, stored for 300
        seconds. */
    method List(q: ListQuery) returns (data: seq<ProductView>)
      requires db.Valid()
      modifies this
      ensures old(Warm()) ==>
                data == old(cache)[ProductListKey].data && cache == old(cache) && cachedQuery == old(cachedQuery)
      ensures !old(Warm()) ==>
                data == Listing(db.products, db.nextProductId, q)
                && cache == old(cache)[ProductListKey := CacheEntry(data, ListTimeout)] && ListingCurrent()
      ensures old(ListingCurrent()) ==>
                ListingCurrent() && data == Listing(db.products, db.nextProductId, cachedQuery)
    {
      if ProductListKey in cache && cache[ProductListKey].data != [] {
        return cache[ProductListKey].data;
      }
      data := Listing(db.products, db.nextProductId, q);
      cache := cache[ProductListKey := CacheEntry(data, ListTimeout)];
      cachedQuery := q;
    }

    /** The stored listing's timeout elapses. */
    method Expire()
      modifies this
      ensures cache == old(cache) - {ProductListKey}
      ensures old(ListingCurrent()) ==> ListingCurrent()
    {
      cache := cache - {ProductListKey};
    }
  }

  // ---------------------------------------------------------------------------
  // What a client observes

  /** A product created after the listing was cached shows up in the next listing. */
  method ListingShowsNewProduct(view: ProductViewSet, user: UserId, input: ProductInput, now: int)
    returns (id: ProductId, data: seq<ProductView>)
    requires view.db.Valid()
    modifies view, view.db
    ensures data == Listing(view.db.products, view.db.nextProductId, PlainQuery)
    ensures ProductView(id, Product(input.name, input.price, input.stock, input.category, now)) in data
  {
    var _ := view.List(PlainQuery);
    var created := view.Create(Some(user), input, now);
    id := created.value;
    assert !view.Warm();
    data := view.List(PlainQuery);
    ListsEveryStoredProduct(view.db.products, view.db.nextProductId, id);
  }

  /** Once a non-empty listing is stored, a second query gets it back unchanged,
      whatever its filters and ordering. */
  method WarmCacheIgnoresQuery(view: ProductViewSet, first: ListQuery, second: ListQuery)
    returns (a: seq<ProductView>, b: seq<ProductView>)
    requires view.db.Valid()
    modifies view
    ensures a != [] ==> b == a
  {
    a := view.List(first);
    b := view.List(second);
  }

  /** Placing an order leaves a stored listing in place: the next `list`
      returns what was cached before the order, stock included. */
  method OrderKeepsCachedListing(view: ProductViewSet, user: UserId, requests: seq<Ledger.ItemRequest>)
    returns (before: seq<ProductView>, after: seq<ProductView>)
    requires view.db.Valid()
    modifies view, view.db
    ensures before != [] ==> after == before
  {
    before := view.List(PlainQuery);
    var _ := view.db.PlaceOrder(user, requests);
    after := view.List(PlainQuery);
  }
}
