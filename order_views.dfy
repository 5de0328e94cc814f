/**
 * The order endpoints: every action needs an authenticated user, the
 * listing holds the requester's own orders and nothing else (staff
 * included), and an order placed through the endpoint belongs to the
 * requester.
 */
module OrderViews {

  import opened Outcomes
  import opened Models
  import Ledger

  datatype ViewError = NotAuthenticated | Rejected(reason: Ledger.OrderError)

  /** The `IsAuthenticated` permission. */
  predicate Permitted(requester: Option<User>) {
    requester.Some?
  }

  /** The orders whose owner is `user`, in table order. */
  function OwnedBy(orders: seq<Order>, user: UserId): (r: seq<Order>)
    ensures forall o :: o in r <==> o in orders && o.user == user
    ensures |r| <= |orders|
  {
    if orders == [] then []
    else (if orders[0].user == user then [orders[0]] else []) + OwnedBy(orders[1..], user)
  }

  /** `get_queryset`: nothing while the schema is generated, otherwise the
      requester's orders, selected by owner alone. */
  function GetQueryset(orders: seq<Order>, requester: User, swaggerFakeView: bool): (r: seq<Order>)
    ensures swaggerFakeView ==> r == []
    ensures !swaggerFakeView ==> forall o :: o in r <==> o in orders && o.user == requester.id
  {
    if swaggerFakeView then [] else OwnedBy(orders, requester.id)
  }

  /** `GET /orders`: the permission check, then the queryset. */
  function List(orders: seq<Order>, requester: Option<User>): (r: Result<seq<Order>, ViewError>)
    ensures r.Err? <==> requester.None?
    ensures r.Err? ==> r.error == NotAuthenticated
    ensures r.Ok? ==> forall o :: o in r.value <==> o in orders && o.user == requester.value.id
  {
    if !Permitted(requester) then Err(NotAuthenticated)
    else Ok(GetQueryset(orders, requester.value, false))
  }

  /** The staff flag plays no part: a staff user sees exactly what an ordinary
      user with the same id sees, so never another user's order. */
  lemma {:induction false} StaffSeeOnlyTheirOwn(orders: seq<Order>, staff: User, other: Order)
    requires staff.isStaff && other in orders && other.user != staff.id
    ensures List(orders, Some(staff)) == List(orders, Some(staff.(isStaff := false)))
    ensures other !in List(orders, Some(staff)).value
  {
  }

  /** `POST /orders`: the permission check, then `perform_create`, which saves
      the order with the requester as its owner. */
  method Create(store: Ledger.Store, requester: Option<User>, requests: seq<Ledger.ItemRequest>)
    returns (r: Result<OrderId, ViewError>)
    requires store.Valid()
    modifies store
    ensures store.Valid() && store.nextProductId == old(store.nextProductId)
    ensures requester.None? ==>
              r == Err(NotAuthenticated) && store.products == old(store.products)
              && store.orders == old(store.orders) && store.items == old(store.items)
    ensures requester.Some? && Ledger.Resolve(old(store.products), requests).Err? ==>
              r == Err(Rejected(Ledger.Resolve(old(store.products), requests).error))
              && store.products == old(store.products)
              && store.orders == old(store.orders) && store.items == old(store.items)
    ensures requester.Some? && Ledger.Resolve(old(store.products), requests).Ok? ==>
              var lines := Ledger.Resolve(old(store.products), requests).value;
              var k := Ledger.FirstShortfall(lines); var oid := |old(store.orders)|;
              && store.products == Ledger.Apply(old(store.products), lines[..k])
              && store.items == old(store.items) + Ledger.ItemsFor(oid, lines[..k])
              && store.orders == old(store.orders)
                   + [Order(oid, requester.value.id, if k == |lines| then Ledger.Total(lines) else 0)]
              && (r.Ok? <==> k == |lines|)
              && r == (if k == |lines| then Ok(oid)
                       else Err(Rejected(Ledger.InsufficientStock(lines[k].product.name))))
    ensures r.Ok? ==> requester.Some? && r.value < |store.orders|
                      && store.orders[r.value].user == requester.value.id
                      && store.orders[r.value] in List(store.orders, requester).value
  {
    if !Permitted(requester) {
      return Err(NotAuthenticated);
    }
    var placed := store.PlaceOrder(requester.value.id, requests);
    if placed.Err? {
      return Err(Rejected(placed.error));
    }
    r := Ok(placed.value);
  }
}
