# Order ledger and product-listing cache of an e-commerce backend

This Dafny project models the two pieces of logic in a Django REST Framework
shop backend that go beyond plain CRUD. It also models the ownership rule on
the order endpoints.

- **Order placement** (`OrderSerializer.create`, orders/serializers.py). A
  `Store` class stands for the database. It holds the product table (price in
  integer cents, stock as an unbounded `int`), the order table and the
  order-item table. `PlaceOrder` first resolves every requested product id,
  which is the serializer's validation step. It then runs `CreateOrder`,
  whose loop writes the order row with total 0 and then, item by item:
  - checks the stock;
  - freezes the line price;
  - writes the item row;
  - adds the line price to the total;
  - saves the product with its stock lowered relative to the stored value.
  At the end it writes the total back to the order row.
- **Product-listing cache** (`ProductViewSet`, products/views.py). A
  `ProductViewSet` class holds the shared `Store` and a key-value `cache`.
  `Create`, `Update` and `Destroy` write the catalog and then delete the key
  `"product_list"`. `List` answers from that key when it holds a non-empty
  listing. Otherwise it computes the listing for the query: the exact-match
  `category` and `price` filters, then the `ordering` parameter, oldest first
  by default. It stores the result under the same key with timeout 300.
- **Order ownership** (`OrderViewSet`, orders/views.py). Listing orders
  returns exactly the requester's own orders, whatever their staff flag.
  During schema generation it returns nothing. Orders created through the
  endpoint belong to the requester.

Files:
- `outcomes.dfy`: `Option` and `Result`.
- `models.dfy`: the rows.
- `ledger.dfy`: order placement and its lemmas.
- `order_views.dfy`: the order endpoints.
- `product_views.dfy`: the product endpoints, the listing and the cache.

Behaviour of the code that the model reproduces, and that a reader might
not expect:
- **No rollback.** Order creation (orders/serializers.py:26-44) runs without
  a transaction. A shortfall at item k returns an error. It leaves in place
  the order row (total still 0) and the items and stock decrements of items
  1..k-1 (`Ledger.Store.CreateOrder`).
- **Stale stock check.** Each item is checked against the stock loaded when
  its id was resolved. That value ignores what earlier items of the same
  order took. Repeating a product id can therefore oversell, and stored stock
  can go below zero (`Ledger.StockTestIgnoresEarlierItems`,
  `Ledger.RepeatedProductOversells`).
- **Error message.** The insufficient-stock error (orders/serializers.py:35)
  names only the product. It gives neither the requested nor the available
  quantity.
- **Unknown ids.** An unknown product id fails validation before any row is
  written. The error lists every unknown id.
- **Empty orders.** An empty item list is accepted. It creates an order with
  total 0 and no items.
- **Staff.** The order queryset filters on the owner alone
  (orders/views.py:14), so staff users see only their own orders, like
  everyone else (`OrderViews.StaffSeeOnlyTheirOwn`).
- **Listing and orders.** Placing an order lowers stock in the product table
  but does not delete `"product_list"`. A listing cached before the order
  keeps showing the old stock until it expires or the next product create,
  update or destroy deletes the key
  (`ProductViews.OrderChangesListing`, `ProductViews.OrderKeepsCachedListing`).
- **Cache key.** The key ignores the query. A listing cached for one filter or
  ordering answers every later query (`ProductViews.WarmCacheIgnoresQuery`).

## Model

| member | source | states |
|---|---|---|
| `Ledger.ServerFieldsAreNotWritable` | orders/serializers.py:7-24 | whatever keys a client sends, only `items` of an order and only `product_id`, `quantity` of an item are accepted; `id`, `user`, `total_price`, `status` and an item's `price` never are |
| `Ledger.Missing` | orders/serializers.py:8-10 | lists exactly the requested product ids that name no product |
| `Ledger.Resolve` | orders/serializers.py:8-10 | fails iff some requested id is unknown, naming only unknown ids; otherwise yields one line per request, same id and quantity, carrying the product row as stored |
| `Ledger.FirstShortfall` | orders/serializers.py:31-35 | the index of the first item whose loaded stock is below its quantity: every earlier item passes the test and that one fails it |
| `Ledger.InStock` | orders/serializers.py:34 | the stock test of one item, made on the stock loaded when its id was resolved: it passes iff the quantity does not exceed that stock |
| `Ledger.Save` | orders/serializers.py:40-41 | the loaded row written back with stock equal to the stored stock minus the quantity; no other product changes and the keys are kept |
| `Ledger.Apply` | orders/serializers.py:32-41 | the table after saving each line in turn; the keys are kept |
| `Ledger.TotalSnoc` | orders/serializers.py:30-38 | the running total after one more item is the old total plus that item's price times quantity |
| `Ledger.ApplySnoc` | orders/serializers.py:40-41 | saving one more line applies one more relative decrement to the table left by the earlier lines |
| `Ledger.StockDropsByRequested` | orders/serializers.py:40-41 | each product's stored stock drops by exactly the total quantity requested of it, whatever stock the lines were loaded with |
| `Ledger.OnlyStockChanges` | orders/serializers.py:32-41 | when lines were loaded from the table, saving them changes nothing but the requested products' stock |
| `Ledger.StockTestIgnoresEarlierItems` | orders/serializers.py:32-41 | an order passes the stock test iff each item alone fits the stock loaded before the order, however many items repeat a product |
| `Ledger.RepeatedProductOversells` | orders/serializers.py:34-41 | two one-unit items of a product with one unit both pass, and the stored stock ends at -1 |
| `Ledger.TwoItemOrder` | orders/tests/test_order_processing.py:16-50 | 2 × 800.00 plus 1 × 200.00 totals 1800.00, and stock goes 50 to 48 and 100 to 99 |
| `Ledger.Store.InsertProduct` | products/views.py:33-34 | a new product row under the next primary key; orders and items untouched |
| `Ledger.Store.SaveProduct` | products/views.py:42-43 | an existing product row overwritten; orders and items untouched |
| `Ledger.Store.DeleteProduct` | products/views.py:50-51 | a product row removed; orders and items untouched (items naming the product are assumed to survive, see Left out) |
| `Ledger.Store.CreateOrder` | orders/serializers.py:26-44 | with k the first failing item: the table equals the old table with items 0..k-1 saved; the item rows are the old ones plus one per item 0..k-1, priced price × quantity and attached to the new order; the order row is owned by the requester, with the total of all line prices on success and 0 on failure; the result is the order id, or the insufficient-stock error naming item k's product |
| `Ledger.Store.PlaceOrder` | orders/serializers.py:8-44 | an unknown id changes nothing; otherwise the same effects as `CreateOrder` on the resolved lines; on success the order is the requester's, it has one item per request, and each product lost exactly the quantity requested of it, with no other field changed |
| `OrderViews.OwnedBy` | orders/views.py:14 | exactly the orders whose owner is the given user, no more |
| `OrderViews.GetQueryset` | orders/views.py:10-14 | empty during schema generation; otherwise exactly the requester's orders |
| `OrderViews.List` | orders/views.py:7-14 | refused iff the request is anonymous; otherwise exactly the requester's orders |
| `OrderViews.StaffSeeOnlyTheirOwn` | orders/views.py:10-14 | a staff user sees what a non-staff user with the same id sees, and never another user's order |
| `OrderViews.Create` | orders/views.py:7-17 | the product key counter never changes; anonymous requests change nothing; for a signed-in requester, `Ledger.Store.PlaceOrder`'s effects with the requester as owner: an unknown id changes nothing and is rejected; otherwise the order row, the items and the stock decrements up to the first shortfall, and success iff every item passes the stock test; a created order is in the requester's listing |
| `ProductViews.ReadsOpenWritesNeedLogin` | products/views.py:19 | reads are permitted to anyone; create, update and delete need a signed-in user |
| `ProductViews.Rows` | products/views.py:17 | the product table in increasing key order, each stored row exactly once |
| `ProductViews.Filter` | products/views.py:20-22 | keeps exactly the rows that match the `category` and `price` filters |
| `ProductViews.Insert` | products/views.py:24-25 | inserting into an ordered listing adds exactly that product |
| `ProductViews.InsertSorted` | products/views.py:24-25 | inserting keeps a listing in order |
| `ProductViews.InsertDistinct` | products/views.py:24-25 | inserting a product not yet listed keeps every product listed once |
| `ProductViews.SortBy` | products/views.py:24-25 | sorting is a permutation |
| `ProductViews.SortBySorted` | products/views.py:24-25 | sorting yields the requested order |
| `ProductViews.SortByDistinct` | products/views.py:24-25 | sorting keeps every product listed once |
| `ProductViews.Listing` | products/views.py:20-25 | the computed listing holds exactly the stored products that match the filters, each once, in the query's ordering |
| `ProductViews.ListsEveryStoredProduct` | products/views.py:72 | with no filter, every stored product appears in the computed listing as stored |
| `ProductViews.DefaultListingOldestFirst` | products/views.py:25 | without an ordering parameter, listed products have non-decreasing `created_at` |
| `ProductViews.OrderChangesListing` | products/views.py:72-74 | after an order takes stock of a listed product, the listing computed from the table differs from the one computed before |
| `ProductViews.ProductViewSet.Create` | products/views.py:33-35 | anonymous: nothing changes; otherwise a new row under the next key, the key counter advanced, and `product_list` deleted, other cache keys kept, the cached listing current afterwards |
| `ProductViews.ProductViewSet.Update` | products/views.py:42-44 | anonymous or unknown id: nothing changes; otherwise the writable fields overwritten (creation time kept) and `product_list` deleted |
| `ProductViews.ProductViewSet.Destroy` | products/views.py:50-52 | anonymous or unknown id: nothing changes; otherwise the row removed and `product_list` deleted |
| `ProductViews.ProductViewSet.List` | products/views.py:67-74 | a non-empty cached listing is returned unchanged with the cache untouched; otherwise, an empty listing included, the listing for this query is computed, stored under `product_list` with timeout 300 and returned; a listing kept current stays current |
| `ProductViews.ProductViewSet.Expire` | products/views.py:73 | the stored listing's timeout elapses: only `product_list` is removed |
| `ProductViews.ListingShowsNewProduct` | products/views.py:33-35 | after a listing is cached, a created product appears in the next listing, which is the current table's listing |
| `ProductViews.WarmCacheIgnoresQuery` | products/views.py:68-73 | once a non-empty listing is stored, any other query gets the same data back |
| `ProductViews.OrderKeepsCachedListing` | products/views.py:68-70 | placing an order does not refresh a stored listing: the next list returns what was cached before |

## Left out

- orders/tasks.py: the confirmation-mail task is not modelled. Nothing in the modelled code enqueues it.
- Routing, JWT issuance, schema and documentation generation, and the category endpoints are not modelled.
- Search (`search_fields` on name and description) is not modelled, and neither is the product description.
- Only one field is modelled for the `ordering` parameter. Invalid ordering fields are not modelled.
- Products that tie on the ordering key are listed in primary-key order. The database leaves their order open.
- Pagination of the listing is not modelled. The cached value is the plain list of products.
- `ProductViews.ProductViewSet.Update`: PATCH is modelled as a full update of the writable fields.
- Validation of product input is not modelled: every `ProductInput` is accepted.
- Category existence checks, the image field and `updated_at` are not modelled.
- The retrieve, update and destroy endpoints of orders are not modelled.
- The serialized response bodies are not modelled. Views return the ids or rows they act on.
- Orders have no status field. Its default comes from orders/models.py, which is not part of this model.
- What deleting a product does to the order items that name it is not modelled. orders/models.py is not part of this model. Items that survive keep their prices as frozen copies.
- Field constraints from the model files are not assumed. Quantities are any integers, and stock has no lower bound.
- Concurrency is not modelled: racing orders on the same product, the gap between a catalog write and the cache delete, and database isolation. The model is single-threaded.
- Cache failures are not modelled.
- The cache timeout is not modelled as time. `Expire` is an abstract step that may remove the listing.
- Clocks are not modelled: a product's creation time is a parameter of `Create`.
- Decimal prices are integer cents.
