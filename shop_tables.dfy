/**
 * The shop's cart, orders and order_items tables, as the routes of server/src/routes/cart.js
 * and server/src/routes/orders.js see them. Each table is a sequence of rows in insertion
 * order; the auto-increment counters are fields; an UPDATE or DELETE is a map or filter
 * over the rows its WHERE clause matches.
 */
module ShopTables {
  import opened Wrappers
  import opened Pricing

  datatype CartRow = CartRow(id: nat, userId: nat, productName: string, productImage: string,
                             quantity: int, price: real)

  datatype OrderRow = OrderRow(id: nat, userId: nat, orderNumber: string, status: string,
                               paymentMethod: string, subtotal: real, shippingFee: real, total: real,
                               shippingAddress: string)

  datatype OrderItemRow = OrderItemRow(orderId: nat, productName: string, productImage: string,
                                       quantity: int, price: real, subtotal: real)

  /** The status every new order starts in. */
  const Pending: string := "pending"

  /** The rows of one user's cart, in table order. */
  function CartOf(rows: seq<CartRow>, userId: nat): (r: seq<CartRow>)
    ensures |r| <= |rows|
    ensures forall i :: 0 <= i < |r| ==> r[i].userId == userId && r[i] in rows
    ensures forall i :: 0 <= i < |rows| && rows[i].userId == userId ==> rows[i] in r
  {
    if rows == [] then []
    else (if rows[0].userId == userId then [rows[0]] else []) + CartOf(rows[1..], userId)
  }

  /** The rows of every other user's cart, in table order: what `DELETE ... WHERE user_id = ?` keeps. */
  function CartOfOthers(rows: seq<CartRow>, userId: nat): (r: seq<CartRow>)
    ensures |r| <= |rows|
    ensures forall i :: 0 <= i < |r| ==> r[i].userId != userId && r[i] in rows
    ensures forall i :: 0 <= i < |rows| && rows[i].userId != userId ==> rows[i] in r
  {
    if rows == [] then []
    else (if rows[0].userId != userId then [rows[0]] else []) + CartOfOthers(rows[1..], userId)
  }

  /** The priced lines of some cart rows. */
  function CartLines(rows: seq<CartRow>): (r: seq<Line>)
    ensures |r| == |rows|
    ensures forall i :: 0 <= i < |rows| ==> r[i] == Line(rows[i].price, rows[i].quantity)
  {
    seq(|rows|, i requires 0 <= i < |rows| => Line(rows[i].price, rows[i].quantity))
  }

  /** The items stored for one order, in table order. */
  function ItemsOf(items: seq<OrderItemRow>, orderId: nat): (r: seq<OrderItemRow>)
    ensures |r| <= |items|
    ensures forall i :: 0 <= i < |r| ==> r[i].orderId == orderId && r[i] in items
    ensures forall i :: 0 <= i < |items| && items[i].orderId == orderId ==> items[i] in r
  {
    if items == [] then []
    else (if items[0].orderId == orderId then [items[0]] else []) + ItemsOf(items[1..], orderId)
  }

  lemma {:induction false} ItemsOfAppend(a: seq<OrderItemRow>, b: seq<OrderItemRow>, orderId: nat)
    ensures ItemsOf(a + b, orderId) == ItemsOf(a, orderId) + ItemsOf(b, orderId)
  {
    if a == [] {
      assert a + b == b;
    } else {
      assert (a + b)[1..] == a[1..] + b;
      ItemsOfAppend(a[1..], b, orderId);
    }
  }

  /** Items all of one order are their own item list for it. */
  lemma {:induction false} ItemsOfAll(items: seq<OrderItemRow>, orderId: nat)
    requires forall i :: 0 <= i < |items| ==> items[i].orderId == orderId
    ensures ItemsOf(items, orderId) == items
  {
    if items != [] {
      ItemsOfAll(items[1..], orderId);
    }
  }

  /** Items none of which belong to an order contribute nothing to it. */
  lemma {:induction false} ItemsOfNone(items: seq<OrderItemRow>, orderId: nat)
    requires forall i :: 0 <= i < |items| ==> items[i].orderId != orderId
    ensures ItemsOf(items, orderId) == []
  {
    if items != [] {
      ItemsOfNone(items[1..], orderId);
    }
  }

  /** The sum of the stored item subtotals. */
  function ItemsSubtotal(items: seq<OrderItemRow>): real {
    if items == [] then 0.0 else items[0].subtotal + ItemsSubtotal(items[1..])
  }

  lemma {:induction false} ItemsSubtotalAppend(a: seq<OrderItemRow>, b: seq<OrderItemRow>)
    ensures ItemsSubtotal(a + b) == ItemsSubtotal(a) + ItemsSubtotal(b)
  {
    if a == [] {
      assert a + b == b;
    } else {
      assert (a + b)[1..] == a[1..] + b;
      ItemsSubtotalAppend(a[1..], b);
    }
  }

  /** An order row whose money fields follow the pricing rules for its subtotal. */
  predicate Priced(o: OrderRow) {
    o.shippingFee == ShippingFee(o.subtotal) && o.total == Total(o.subtotal)
  }

  /** The order item a cart row or request item becomes, with its own subtotal price times quantity. */
  function ItemFor(orderId: nat, productName: string, productImage: string, quantity: int, price: real): (it: OrderItemRow)
    ensures it.orderId == orderId && it.quantity == quantity && it.price == price
    ensures it.subtotal == LineAmount(Line(price, quantity))
  {
    OrderItemRow(orderId, productName, productImage, quantity, price, price * quantity as real)
  }

  /** The order items written for a checked-out cart, one per row and in the same order. */
  function CartItems(orderId: nat, rows: seq<CartRow>): (r: seq<OrderItemRow>)
    ensures |r| == |rows|
    ensures forall k :: 0 <= k < |rows| ==>
      r[k] == ItemFor(orderId, rows[k].productName, rows[k].productImage, rows[k].quantity, rows[k].price)
  {
    seq(|rows|, k requires 0 <= k < |rows| =>
      ItemFor(orderId, rows[k].productName, rows[k].productImage, rows[k].quantity, rows[k].price))
  }

  /** The stored item subtotals of a checked-out cart add up to the cart's subtotal. */
  lemma {:induction false} CartItemsSubtotal(orderId: nat, rows: seq<CartRow>)
    ensures ItemsSubtotal(CartItems(orderId, rows)) == Subtotal(CartLines(rows))
  {
    if rows != [] {
      CartItemsSubtotal(orderId, rows[1..]);
      assert CartItems(orderId, rows)[1..] == CartItems(orderId, rows[1..]);
      assert CartLines(rows)[1..] == CartLines(rows[1..]);
    }
  }

  /**
   * The row `INSERT INTO orders` writes for a new order: status pending, the fee and total
   * of the pricing rules for the lines' subtotal, and `shippingAddress || ''`.
   */
  function NewOrder(id: nat, userId: nat, orderNumber: string, paymentMethod: string,
                    shippingAddress: Option<string>, lines: seq<Line>): (o: OrderRow)
    ensures o.id == id && o.userId == userId && o.orderNumber == orderNumber
    ensures o.status == Pending && o.paymentMethod == paymentMethod
    ensures o.subtotal == Subtotal(lines) && Priced(o)
    ensures o.shippingAddress == OrEmpty(shippingAddress)
  {
    var subtotal := Subtotal(lines);
    OrderRow(id, userId, orderNumber, Pending, paymentMethod, subtotal, ShippingFee(subtotal), Total(subtotal),
             OrEmpty(shippingAddress))
  }

  /** Cart ids are below the counter and unique, and each user's cart holds a product at most once. */
  predicate CartConsistent(cart: seq<CartRow>, nextCartId: nat) {
    (forall i :: 0 <= i < |cart| ==> cart[i].id < nextCartId)
    && (forall i, j :: 0 <= i < j < |cart| ==> cart[i].id != cart[j].id)
    && (forall i, j :: 0 <= i < j < |cart| ==>
          cart[i].userId != cart[j].userId || cart[i].productName != cart[j].productName)
  }

  /**
   * Orders are keyed by their id, which is below the counter; every item belongs to an order
   * id already handed out; and every order's money adds up: its fee and total follow the
   * pricing rules and its items' subtotals sum to its subtotal.
   */
  predicate OrdersConsistent(orders: map<nat, OrderRow>, items: seq<OrderItemRow>, nextOrderId: nat) {
    (forall id :: id in orders ==>
       orders[id].id == id && id < nextOrderId
       && Priced(orders[id]) && ItemsSubtotal(ItemsOf(items, id)) == orders[id].subtotal)
    && (forall k :: 0 <= k < |items| ==> items[k].orderId < nextOrderId)
  }

  /**
   * Recording a new priced order under the next id, together with items of that order whose
   * subtotals add up to the order's, keeps the order tables consistent.
   */
  lemma PlaceOrderKeepsConsistent(orders: map<nat, OrderRow>, items: seq<OrderItemRow>, nextOrderId: nat,
                                  o: OrderRow, newItems: seq<OrderItemRow>)
    requires OrdersConsistent(orders, items, nextOrderId)
    requires o.id == nextOrderId && Priced(o)
    requires forall k :: 0 <= k < |newItems| ==> newItems[k].orderId == nextOrderId
    requires ItemsSubtotal(newItems) == o.subtotal
    ensures OrdersConsistent(orders[nextOrderId := o], items + newItems, nextOrderId + 1)
  {
    var orders', items' := orders[nextOrderId := o], items + newItems;
    forall id | id in orders'
      ensures orders'[id].id == id && id < nextOrderId + 1
      ensures Priced(orders'[id]) && ItemsSubtotal(ItemsOf(items', id)) == orders'[id].subtotal
    {
      ItemsOfAppend(items, newItems, id);
      if id == nextOrderId {
        ItemsOfNone(items, id);
        ItemsOfAll(newItems, id);
        assert ItemsOf(items', id) == newItems;
      } else {
        ItemsOfNone(newItems, id);
        assert ItemsOf(items', id) == ItemsOf(items, id);
      }
    }
    assert forall k :: 0 <= k < |items'| ==> items'[k].orderId < nextOrderId + 1 by {
      forall k | 0 <= k < |items'|
        ensures items'[k].orderId < nextOrderId + 1
      {
        if k >= |items| {
          assert items'[k] == newItems[k - |items|];
        }
      }
    }
  }

  /** The three tables and their auto-increment counters. */
  class Shop {
    var cart: seq<CartRow>
    /** Orders by id. */
    var orders: map<nat, OrderRow>
    var orderItems: seq<OrderItemRow>
    var nextCartId: nat
    var nextOrderId: nat

    ghost predicate Valid()
      reads this
    {
      CartConsistent(cart, nextCartId) && OrdersConsistent(orders, orderItems, nextOrderId)
    }

    /** Empty tables. */
    constructor ()
      ensures Valid()
      ensures cart == [] && orders == map[] && orderItems == []
    {
      cart, orders, orderItems := [], map[], [];
      nextCartId, nextOrderId := 1, 1;
    }
  }
}
