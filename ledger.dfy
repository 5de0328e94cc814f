/**
 * Order placement (`OrderSerializer.create` and the resolution of the
 * `product_id` of each item before it runs), over a `Store` that stands for
 * the database: the product table, the order table and the order-item table.
 *
 * What the code does, and what this model keeps:
 *  - every requested product id is resolved, one item at a time, before any
 *    row is written; an unknown id rejects the whole request;
 *  - the order row is written first, with total 0;
 *  - each item is checked against the stock of the product AS LOADED when its
 *    id was resolved, not against what earlier items of the same order left;
 *  - its line price is frozen, the item row is written, the total grows, and
 *    the product is saved with its stock lowered relative to the stored value;
 *  - a shortfall stops the loop with an error and undoes nothing.
 */
module Ledger {

  import opened Outcomes
  import opened Models

  /** One entry of the request's `items` list: the only fields a client may set. */
  datatype ItemRequest = ItemRequest(productId: ProductId, quantity: int)

  /** An item after its id was resolved: `product` is the row as loaded then. */
  datatype Line = Line(productId: ProductId, product: Product, quantity: int)

  datatype OrderError =
    | InvalidProductIds(ids: seq<ProductId>)
    | InsufficientStock(productName: string)

  // ---------------------------------------------------------------------------
  // Which fields a client may write

  const OrderFields: seq<string> :=
    ["id", "user", "items", "total_price", "status", "created_at", "updated_at"]
  const OrderReadOnlyFields: seq<string> :=
    ["id", "user", "total_price", "status", "created_at", "updated_at"]
  const ItemFields: seq<string> := ["id", "product", "product_id", "quantity", "price"]
  /** `product` is a nested read-only field besides the declared read-only list. */
  const ItemReadOnlyFields: seq<string> := ["id", "price", "product"]

  /** The keys of a client payload that deserialization keeps. */
  function AcceptedKeys(payload: set<string>, fields: seq<string>, readOnly: seq<string>): (r: set<string>)
    ensures r <= payload
    ensures forall f :: f in r ==> f in fields && f !in readOnly
    ensures forall f :: f in payload && f in fields && f !in readOnly ==> f in r
  {
    set f | f in payload && f in fields && f !in readOnly
  }

  /** Whatever a client sends, only `items` of an order and only `product_id`
      and `quantity` of an item reach `create`. */
  lemma ServerFieldsAreNotWritable(payload: set<string>)
    ensures AcceptedKeys(payload, OrderFields, OrderReadOnlyFields) <= {"items"}
    ensures AcceptedKeys(payload, ItemFields, ItemReadOnlyFields) <= {"product_id", "quantity"}
  {
  }

  // ---------------------------------------------------------------------------
  // Resolution of product ids (runs before `create`)

  predicate Known(products: map<ProductId, Product>, lines: seq<Line>) {
    forall i :: 0 <= i < |lines| ==> lines[i].productId in products
  }

  /** Every line carries the product exactly as stored in `products`. */
  predicate Snapshots(products: map<ProductId, Product>, lines: seq<Line>) {
    forall i :: 0 <= i < |lines| ==> lines[i].productId in products && lines[i].product == products[lines[i].productId]
  }

  /** The requested ids that name no product, in request order. */
  function Missing(products: map<ProductId, Product>, requests: seq<ItemRequest>): (r: seq<ProductId>)
    ensures forall id :: id in r ==> id !in products
    ensures forall i :: 0 <= i < |requests| && requests[i].productId !in products ==> requests[i].productId in r
    ensures forall id :: id in r ==> exists i :: 0 <= i < |requests| && requests[i].productId == id
  {
    if requests == [] then []
    else
      var rest := Missing(products, requests[1..]);
      assert forall i :: 1 <= i < |requests| ==> requests[i] == requests[1..][i - 1];
      if requests[0].productId in products then rest else [requests[0].productId] + rest
  }

  /** Loads every requested product, or rejects the request naming the unknown ids. */
  function Resolve(products: map<ProductId, Product>, requests: seq<ItemRequest>): (r: Result<seq<Line>, OrderError>)
    ensures r.Err? <==> exists i :: 0 <= i < |requests| && requests[i].productId !in products
    ensures r.Err? ==> r.error.InvalidProductIds? && r.error.ids != []
                       && forall id :: id in r.error.ids ==> id !in products
    ensures r.Ok? ==> |r.value| == |requests| && Snapshots(products, r.value)
    ensures r.Ok? ==> forall i :: 0 <= i < |requests| ==>
                        r.value[i].productId == requests[i].productId && r.value[i].quantity == requests[i].quantity
  {
    var missing := Missing(products, requests);
    if missing != [] then
      assert missing[0] in missing;
      Err(InvalidProductIds(missing))
    else
      Ok(seq(|requests|, i requires 0 <= i < |requests| =>
        Line(requests[i].productId, products[requests[i].productId], requests[i].quantity)))
  }

  // ---------------------------------------------------------------------------
  // The specification of the item loop

  /** The stock test of one item, on the stock loaded when the item was resolved. */
  predicate InStock(l: Line)
    ensures InStock(l) <==> l.product.stock - l.quantity >= 0
  {
    !(l.product.stock < l.quantity)
  }

  /** The index of the first item that fails the stock test, or |lines| if none does. */
  function FirstShortfall(lines: seq<Line>): (k: nat)
    ensures k <= |lines|
    ensures forall i :: 0 <= i < k ==> InStock(lines[i])
    ensures k < |lines| ==> !InStock(lines[k])
  {
    if lines == [] || !InStock(lines[0]) then 0
    else 1 + FirstShortfall(lines[1..])
  }

  function LinePrice(l: Line): int {
    l.product.price * l.quantity
  }

  /** The sum over the lines of price times quantity. */
  function Total(lines: seq<Line>): int {
    if lines == [] then 0 else LinePrice(lines[0]) + Total(lines[1..])
  }

  /** The total quantity the lines request of product `id`. */
  function Requested(id: ProductId, lines: seq<Line>): int {
    if lines == [] then 0
    else (if lines[0].productId == id then lines[0].quantity else 0) + Requested(id, lines[1..])
  }

  /** `product.save()` after `stock = F('stock') - quantity`: the loaded row is
      written back, its stock computed from the stored value. */
  function Save(products: map<ProductId, Product>, l: Line): (r: map<ProductId, Product>)
    requires l.productId in products
    ensures r.Keys == products.Keys
    ensures r[l.productId] == l.product.(stock := products[l.productId].stock - l.quantity)
    ensures forall id :: id in products && id != l.productId ==> r[id] == products[id]
  {
    products[l.productId := l.product.(stock := products[l.productId].stock - l.quantity)]
  }

  /** The product table after saving every line in turn. */
  function Apply(products: map<ProductId, Product>, lines: seq<Line>): (r: map<ProductId, Product>)
    requires Known(products, lines)
    ensures r.Keys == products.Keys
  {
    if lines == [] then products
    else Apply(Save(products, lines[0]), lines[1..])
  }

  /** The item rows the lines create for order `oid`. */
  function ItemsFor(oid: OrderId, lines: seq<Line>): (r: seq<OrderItem>)
    ensures |r| == |lines| && forall j :: 0 <= j < |r| ==> r[j].order == oid
  {
    seq(|lines|, i requires 0 <= i < |lines| =>
      OrderItem(oid, lines[i].productId, lines[i].quantity, LinePrice(lines[i])))
  }

  // ---------------------------------------------------------------------------
  // Lemmas about the specification

  lemma {:induction false} TotalSnoc(lines: seq<Line>, l: Line)
    ensures Total(lines + [l]) == Total(lines) + LinePrice(l)
  {
    if lines != [] {
      assert (lines + [l])[1..] == lines[1..] + [l];
      TotalSnoc(lines[1..], l);
    }
  }

  lemma {:induction false} ApplySnoc(products: map<ProductId, Product>, lines: seq<Line>, l: Line)
    requires Known(products, lines + [l])
    ensures Known(products, lines) && l.productId in Apply(products, lines)
    ensures Apply(products, lines + [l]) == Save(Apply(products, lines), l)
  {
    assert (lines + [l])[|lines|] == l;
    if lines != [] {
      assert (lines + [l])[1..] == lines[1..] + [l];
      assert (lines + [l])[0] == lines[0];
      var next := Save(products, lines[0]);
      assert Known(next, lines[1..] + [l]) by {
        forall i | 0 <= i < |lines[1..] + [l]| ensures (lines[1..] + [l])[i].productId in next {
          assert (lines[1..] + [l])[i] == (lines + [l])[i + 1];
        }
      }
      ApplySnoc(next, lines[1..], l);
    }
  }

  lemma ItemsForSnoc(oid: OrderId, lines: seq<Line>, l: Line)
    ensures ItemsFor(oid, lines + [l]) == ItemsFor(oid, lines) + [OrderItem(oid, l.productId, l.quantity, LinePrice(l))]
  {
    assert (lines + [l])[|lines|] == l;
  }

  /** One more item of the loop: the prefix grows by `lines[i]`. */
  lemma PrefixStep(products: map<ProductId, Product>, oid: OrderId, lines: seq<Line>, i: nat)
    requires i < |lines| && Known(products, lines)
    ensures Known(products, lines[..i + 1]) && lines[i].productId in Apply(products, lines[..i])
    ensures Apply(products, lines[..i + 1]) == Save(Apply(products, lines[..i]), lines[i])
    ensures Total(lines[..i + 1]) == Total(lines[..i]) + LinePrice(lines[i])
    ensures ItemsFor(oid, lines[..i + 1]) == ItemsFor(oid, lines[..i]) + [OrderItem(oid, lines[i].productId, lines[i].quantity, LinePrice(lines[i]))]
  {
    assert lines[..i + 1] == lines[..i] + [lines[i]];
    ApplySnoc(products, lines[..i], lines[i]);
    TotalSnoc(lines[..i], lines[i]);
    ItemsForSnoc(oid, lines[..i], lines[i]);
  }

  /** Each product's stored stock drops by exactly the quantity the lines ask of
      it, whatever stock the lines were loaded with. */
  lemma {:induction false} StockDropsByRequested(products: map<ProductId, Product>, lines: seq<Line>, id: ProductId)
    requires Known(products, lines) && id in products
    ensures Apply(products, lines)[id].stock == products[id].stock - Requested(id, lines)
  {
    if lines != [] {
      var next := Save(products, lines[0]);
      assert Known(next, lines[1..]) by {
        forall i | 0 <= i < |lines[1..]| ensures lines[1..][i].productId in next {
          assert lines[1..][i] == lines[i + 1];
        }
      }
      StockDropsByRequested(next, lines[1..], id);
    }
  }

  /** Loaded as `b` apart from its stock. */
  predicate SameBesideStock(a: Product, b: Product) {
    a.(stock := b.stock) == b
  }

  predicate Fresh(products: map<ProductId, Product>, lines: seq<Line>) {
    forall i :: 0 <= i < |lines| ==>
      lines[i].productId in products && SameBesideStock(lines[i].product, products[lines[i].productId])
  }

  /** When the lines were loaded from the table itself, saving them changes
      nothing but the stock of the requested products. */
  lemma {:induction false} OnlyStockChanges(products: map<ProductId, Product>, lines: seq<Line>, id: ProductId)
    requires Fresh(products, lines) && id in products
    ensures Known(products, lines)
    ensures Apply(products, lines)[id] == products[id].(stock := products[id].stock - Requested(id, lines))
  {
    if lines != [] {
      var next := Save(products, lines[0]);
      assert Fresh(next, lines[1..]) by {
        forall i | 0 <= i < |lines[1..]|
          ensures lines[1..][i].productId in next && SameBesideStock(lines[1..][i].product, next[lines[1..][i].productId])
        {
          assert lines[1..][i] == lines[i + 1];
        }
      }
      OnlyStockChanges(next, lines[1..], id);
    }
  }

  /** The stock test of every item reads the table as it was before the
      order: the order passes exactly when each item alone fits the stock,
      however many items name the same product. */
  lemma StockTestIgnoresEarlierItems(products: map<ProductId, Product>, lines: seq<Line>)
    requires Snapshots(products, lines)
    ensures FirstShortfall(lines) == |lines| <==>
              forall i :: 0 <= i < |lines| ==> lines[i].quantity <= products[lines[i].productId].stock
  {
  }

  /** Two items of one unit each for a product with one unit in stock both pass
      the test, and the stored stock ends at -1. */
  lemma RepeatedProductOversells()
    ensures var products := map[1 := Product("Smartphone", 80000, 1, 1, 0)];
            var lines := [Line(1, products[1], 1), Line(1, products[1], 1)];
            FirstShortfall(lines) == |lines| && Apply(products, lines)[1].stock == -1
  {
    var products := map[1 := Product("Smartphone", 80000, 1, 1, 0)];
    var lines := [Line(1, products[1], 1), Line(1, products[1], 1)];
    assert lines[1..][1..] == [];
    assert FirstShortfall(lines[1..]) == 1;
    assert Requested(1, lines[1..]) == 1;
    StockDropsByRequested(products, lines, 1);
  }

  /** Two items against 50 units at 800.00 and 100 units at 200.00: total
      1800.00, stock 48 and 99. */
  lemma TwoItemOrder()
    ensures var products := map[1 := Product("Smartphone", 80000, 50, 1, 0),
                                2 := Product("Headphones", 20000, 100, 1, 0)];
            var r := Resolve(products, [ItemRequest(1, 2), ItemRequest(2, 1)]);
            r.Ok? && FirstShortfall(r.value) == 2 && Total(r.value) == 180000
            && Apply(products, r.value)[1].stock == 48 && Apply(products, r.value)[2].stock == 99
  {
    var products := map[1 := Product("Smartphone", 80000, 50, 1, 0),
                        2 := Product("Headphones", 20000, 100, 1, 0)];
    var requests := [ItemRequest(1, 2), ItemRequest(2, 1)];
    assert Missing(products, requests) == [] by {
      assert requests[1..][1..] == [];
    }
    var r := Resolve(products, requests);
    var lines := [Line(1, products[1], 2), Line(2, products[2], 1)];
    assert r.Ok? && r.value[0] == lines[0] && r.value[1] == lines[1];
    assert r.value == lines;
    var tail := lines[1..];
    assert tail == [Line(2, products[2], 1)] && tail[1..] == [];
    assert FirstShortfall(tail) == 1;
    assert Total(tail) == 20000;
    assert Requested(1, tail) == 0;
    assert Requested(2, tail) == 1;
    StockDropsByRequested(products, lines, 1);
    StockDropsByRequested(products, lines, 2);
  }

  // ---------------------------------------------------------------------------
  // The database

  class Store {
    var products: map<ProductId, Product>
    /** The next primary key the product table hands out. */
    var nextProductId: ProductId
    var orders: seq<Order>
    var items: seq<OrderItem>

    /** Product keys were handed out by the counter; an order's id is its
        position; every item belongs to an existing order. */
    ghost predicate Valid()
      reads this
    {
      && (forall id :: id in products ==> id < nextProductId)
      && (forall i :: 0 <= i < |orders| ==> orders[i].id == i)
      && (forall j :: 0 <= j < |items| ==> items[j].order < |orders|)
    }

    constructor ()
      ensures Valid()
      ensures products == map[] && nextProductId == 1 && orders == [] && items == []
    {
      products := map[];
      nextProductId := 1;
      orders := [];
      items := [];
    }

    /** Inserts a product under the next primary key. */
    method InsertProduct(p: Product) returns (id: ProductId)
      requires Valid()
      modifies this
      ensures Valid()
      ensures id == old(nextProductId) && id !in old(products)
      ensures products == old(products)[id := p] && nextProductId == id + 1
      ensures orders == old(orders) && items == old(items)
    {
      id := nextProductId;
      products := products[id := p];
      nextProductId := nextProductId + 1;
    }

    /** Overwrites an existing product row. */
    method SaveProduct(id: ProductId, p: Product)
      requires Valid() && id in products
      modifies this
      ensures Valid()
      ensures products == old(products)[id := p] && nextProductId == old(nextProductId)
      ensures orders == old(orders) && items == old(items)
    {
      products := products[id := p];
    }

    /** Deletes a product row; order items naming it are assumed to survive. */
    method DeleteProduct(id: ProductId)
      requires Valid() && id in products
      modifies this
      ensures Valid()
      ensures products == old(products) - {id} && nextProductId == old(nextProductId)
      ensures orders == old(orders) && items == old(items)
    {
      products := products - {id};
    }

    /** `OrderSerializer.create` for the resolved lines, requested by `user`. */
    method CreateOrder(user: UserId, lines: seq<Line>) returns (r: Result<OrderId, OrderError>)
      requires Valid() && Known(products, lines)
      modifies this
      ensures Valid() && nextProductId == old(nextProductId)
      ensures var k := FirstShortfall(lines); var oid := |old(orders)|;
              && products == Apply(old(products), lines[..k])
              && items == old(items) + ItemsFor(oid, lines[..k])
              && orders == old(orders) + [Order(oid, user, if k == |lines| then Total(lines) else 0)]
              && r == (if k == |lines| then Ok(oid) else Err(InsufficientStock(lines[k].product.name)))
    {
      var oid := |orders|;
      orders := orders + [Order(oid, user, 0)];
      var total := 0;
      var i := 0;
      while i < |lines|
        invariant 0 <= i <= |lines|
        invariant forall j :: 0 <= j < i ==> InStock(lines[j])
        invariant products == Apply(old(products), lines[..i])
        invariant items == old(items) + ItemsFor(oid, lines[..i])
        invariant orders == old(orders) + [Order(oid, user, 0)]
        invariant total == Total(lines[..i])
        invariant nextProductId == old(nextProductId)
      {
        var line := lines[i];
        if line.product.stock < line.quantity {
          assert FirstShortfall(lines) == i;
          return Err(InsufficientStock(line.product.name));
        }
        var price := line.product.price * line.quantity;
        items := items + [OrderItem(oid, line.productId, line.quantity, price)];
        total := total + price;
        products := Save(products, line);
        PrefixStep(old(products), oid, lines, i);
        i := i + 1;
      }
      assert lines[..|lines|] == lines;
      orders := orders[oid := Order(oid, user, total)];
      r := Ok(oid);
    }

    /** Validation of the request (resolving every product id) followed by
        `create`. On success the new order is the requester's, its total is
        the sum of the line prices, it has one item per request, and every
        product lost exactly the quantity requested of it. */
    method PlaceOrder(user: UserId, requests: seq<ItemRequest>) returns (r: Result<OrderId, OrderError>)
      requires Valid()
      modifies this
      ensures Valid() && nextProductId == old(nextProductId)
      ensures Resolve(old(products), requests).Err? ==>
                r == Err(Resolve(old(products), requests).error)
                && products == old(products) && orders == old(orders) && items == old(items)
      ensures Resolve(old(products), requests).Ok? ==>
                var lines := Resolve(old(products), requests).value;
                var k := FirstShortfall(lines); var oid := |old(orders)|;
                && products == Apply(old(products), lines[..k])
                && items == old(items) + ItemsFor(oid, lines[..k])
                && orders == old(orders) + [Order(oid, user, if k == |lines| then Total(lines) else 0)]
                && r == (if k == |lines| then Ok(oid) else Err(InsufficientStock(lines[k].product.name)))
      ensures r.Ok? ==> r.value == |old(orders)| && orders[r.value].user == user
      ensures r.Ok? ==> |items| == |old(items)| + |requests|
                        && forall j :: |old(items)| <= j < |items| ==> items[j].order == r.value
      ensures r.Ok? ==> var lines := Resolve(old(products), requests).value;
                        forall id :: id in old(products) ==>
                          products[id] == old(products)[id].(stock := old(products)[id].stock - Requested(id, lines))
    {
      var resolved := Resolve(products, requests);
      if resolved.Err? {
        return Err(resolved.error);
      }
      ghost var before := products;
      var lines := resolved.value;
      r := CreateOrder(user, lines);
      if r.Ok? {
        assert lines[..|lines|] == lines;
        forall id | id in before
          ensures products[id] == before[id].(stock := before[id].stock - Requested(id, lines))
        {
          OnlyStockChanges(before, lines, id);
        }
      }
    }
  }
}
