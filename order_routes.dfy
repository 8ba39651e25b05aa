/**
 * The order routes of server/src/routes/orders.js for the authenticated user `userId`:
 * list the user's orders, read one order (only the user's own), and create an order from
 * the items of the request. Server errors (status 500) are not modelled.
 */
module OrderRoutes {
  import opened Wrappers
  import opened Pricing
  import opened ShopTables

  const Created: int := 201
  const BadRequest: int := 400
  const NotFound: int := 404

  /** One element of the request's `items` array. */
  datatype RequestItem = RequestItem(productName: string, productImage: Option<string>, quantity: int, price: real)

  /** An order together with its items, as the GET routes answer. */
  datatype OrderView = OrderView(order: OrderRow, items: seq<OrderItemRow>)

  /**
   * `GET /:orderId`: the order with that id if it belongs to the requesting user, with its
   * items; nothing (404) otherwise, whether the order is missing or someone else's.
   */
  function GetOrder(orders: map<nat, OrderRow>, items: seq<OrderItemRow>, orderId: nat, userId: nat): (r: Option<OrderView>)
    ensures r.Some? <==> orderId in orders && orders[orderId].userId == userId
    ensures r.Some? ==> r.value.order == orders[orderId] && r.value.items == ItemsOf(items, orderId)
  {
    if orderId in orders && orders[orderId].userId == userId then Some(OrderView(orders[orderId], ItemsOf(items, orderId)))
    else None
  }

  /** Another user's order is never shown: its owner sees it, everyone else gets 404. */
  lemma GetOrderOwnerOnly(orders: map<nat, OrderRow>, items: seq<OrderItemRow>, orderId: nat, owner: nat, other: nat)
    requires orderId in orders && orders[orderId].userId == owner && other != owner
    ensures GetOrder(orders, items, orderId, owner).Some?
    ensures GetOrder(orders, items, orderId, other).None?
  {
  }

  /** `GET /`: the user's orders by id, each with its items. */
  function ListOrders(orders: map<nat, OrderRow>, items: seq<OrderItemRow>, userId: nat): (r: map<nat, OrderView>)
    ensures forall id :: id in r <==> id in orders && orders[id].userId == userId
    ensures forall id :: id in r ==> r[id] == OrderView(orders[id], ItemsOf(items, id))
  {
    map id | id in orders && orders[id].userId == userId :: OrderView(orders[id], ItemsOf(items, id))
  }

  /** Listing and single reads agree: an order is listed for a user exactly when that user may read it. */
  lemma ListAgreesWithGet(orders: map<nat, OrderRow>, items: seq<OrderItemRow>, userId: nat, orderId: nat)
    ensures orderId in ListOrders(orders, items, userId) <==> GetOrder(orders, items, orderId, userId).Some?
    ensures orderId in ListOrders(orders, items, userId) ==>
      GetOrder(orders, items, orderId, userId) == Some(ListOrders(orders, items, userId)[orderId])
  {
  }

  function RequestLines(items: seq<RequestItem>): (r: seq<Line>)
    ensures |r| == |items|
    ensures forall k :: 0 <= k < |items| ==> r[k] == Line(items[k].price, items[k].quantity)
  {
    seq(|items|, k requires 0 <= k < |items| => Line(items[k].price, items[k].quantity))
  }

  /** The order items written for the request's items, one each and in order, with `productImage || ''`. */
  function RequestOrderItems(orderId: nat, items: seq<RequestItem>): (r: seq<OrderItemRow>)
    ensures |r| == |items|
    ensures forall k :: 0 <= k < |items| ==>
      r[k] == ItemFor(orderId, items[k].productName, OrEmpty(items[k].productImage), items[k].quantity, items[k].price)
  {
    seq(|items|, k requires 0 <= k < |items| =>
      ItemFor(orderId, items[k].productName, OrEmpty(items[k].productImage), items[k].quantity, items[k].price))
  }

  /** The stored item subtotals of a created order add up to the request's subtotal. */
  lemma {:induction false} RequestItemsSubtotal(orderId: nat, items: seq<RequestItem>)
    ensures ItemsSubtotal(RequestOrderItems(orderId, items)) == Subtotal(RequestLines(items))
  {
    if items != [] {
      RequestItemsSubtotal(orderId, items[1..]);
      assert RequestOrderItems(orderId, items)[1..] == RequestOrderItems(orderId, items[1..]);
      assert RequestLines(items)[1..] == RequestLines(items[1..]);
    }
  }

  /** The loop inserting one order item per request item. */
  method WriteRequestItems(db: Shop, orderId: nat, items: seq<RequestItem>)
    modifies db
    ensures db.orderItems == old(db.orderItems) + RequestOrderItems(orderId, items)
    ensures db.cart == old(db.cart) && db.orders == old(db.orders)
    ensures db.nextCartId == old(db.nextCartId) && db.nextOrderId == old(db.nextOrderId)
  {
    var k := 0;
    while k < |items|
      invariant 0 <= k <= |items|
      invariant db.orderItems == old(db.orderItems) + RequestOrderItems(orderId, items[..k])
      invariant db.cart == old(db.cart) && db.orders == old(db.orders)
      invariant db.nextCartId == old(db.nextCartId) && db.nextOrderId == old(db.nextOrderId)
    {
      var it := items[k];
      var row := ItemFor(orderId, it.productName, OrEmpty(it.productImage), it.quantity, it.price);
      assert RequestOrderItems(orderId, items[..k + 1]) == RequestOrderItems(orderId, items[..k]) + [row];
      db.orderItems := db.orderItems + [row];
      k := k + 1;
    }
    assert items[..k] == items;
  }

  /**
   * `POST /create`: a missing, non-array (both `None` here) or empty items list is 400, as
   * is a missing payment method; otherwise one pending order priced from the items and one
   * order item per request item are written. The cart is not touched.
   */
  method Create(db: Shop, userId: nat, items: Option<seq<RequestItem>>, paymentMethod: Option<string>,
                shippingAddress: Option<string>, orderNumber: string)
    returns (status: int, order: Option<OrderRow>)
    requires db.Valid()
    modifies db
    ensures db.Valid()
    ensures status == Created <==> items.Some? && items.value != [] && Truthy(paymentMethod)
    ensures status != Created ==>
      status == BadRequest && order.None?
      && db.orders == old(db.orders) && db.orderItems == old(db.orderItems) && db.nextOrderId == old(db.nextOrderId)
    ensures status == Created ==>
      order == Some(NewOrder(old(db.nextOrderId), userId, orderNumber, paymentMethod.value, shippingAddress,
                             RequestLines(items.value)))
      && db.orders == old(db.orders)[old(db.nextOrderId) := order.value]
      && db.orderItems == old(db.orderItems) + RequestOrderItems(old(db.nextOrderId), items.value)
      && db.nextOrderId == old(db.nextOrderId) + 1
    ensures db.cart == old(db.cart) && db.nextCartId == old(db.nextCartId)
  {
    if items.None? || items.value == [] {
      return BadRequest, None;
    }
    if !Truthy(paymentMethod) {
      return BadRequest, None;
    }
    var request := items.value;
    var subtotal := SumSubtotal(RequestLines(request));
    var shippingFee := if subtotal >= 100.0 then 0.0 else 10.0;
    var total := subtotal + shippingFee;
    var orderId := db.nextOrderId;
    var o := OrderRow(orderId, userId, orderNumber, Pending, paymentMethod.value, subtotal, shippingFee, total,
                      OrEmpty(shippingAddress));
    assert o == NewOrder(orderId, userId, orderNumber, paymentMethod.value, shippingAddress, RequestLines(request));
    RequestItemsSubtotal(orderId, request);
    PlaceOrderKeepsConsistent(db.orders, db.orderItems, orderId, o, RequestOrderItems(orderId, request));
    db.orders := db.orders[orderId := o];
    db.nextOrderId := db.nextOrderId + 1;
    WriteRequestItems(db, orderId, request);
    status, order := Created, Some(o);
  }
}
