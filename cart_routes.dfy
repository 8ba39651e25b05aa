/**
 * The cart routes of server/src/routes/cart.js, each a handler over the shop's tables for
 * the authenticated user `userId`: add (merging by product name), update a quantity,
 * remove a row, clear the cart and check out. Each returns the HTTP status it answers with.
 * Server errors (status 500) are not modelled.
 */
module CartRoutes {
  import opened Wrappers
  import opened Pricing
  import opened ShopTables

  const Ok: int := 200
  const Created: int := 201
  const BadRequest: int := 400
  const NotFound: int := 404

  /** Whether a row is `userId`'s row for the product called `name`. */
  predicate IsProductRow(row: CartRow, userId: nat, name: string) {
    row.userId == userId && row.productName == name
  }

  /** `SELECT id, quantity FROM cart WHERE user_id = ? AND product_name = ?`: the first matching row. */
  function FindCartRow(rows: seq<CartRow>, userId: nat, name: string): (r: Option<nat>)
    ensures r.Some? ==> r.value < |rows| && IsProductRow(rows[r.value], userId, name)
    ensures r.Some? ==> forall i :: 0 <= i < r.value ==> !IsProductRow(rows[i], userId, name)
    ensures r.None? <==> forall i :: 0 <= i < |rows| ==> !IsProductRow(rows[i], userId, name)
  {
    if rows == [] then None
    else if IsProductRow(rows[0], userId, name) then Some(0)
    else match FindCartRow(rows[1..], userId, name)
      case None => None
      case Some(j) => Some(j + 1)
  }

  /** `!productName || !quantity || !price`: a missing or falsy required field. */
  predicate AddMissing(productName: Option<string>, quantity: Option<int>, price: Option<real>) {
    !Truthy(productName) || quantity.None? || quantity.value == 0 || price.None? || price.value == 0.0
  }

  /**
   * The cart after a valid add: the user's row for the product gets the quantities summed
   * (price and image kept), or, when there is none, one new row is appended under `newId`.
   */
  function AddRows(rows: seq<CartRow>, newId: nat, userId: nat, name: string, image: string,
                   quantity: int, price: real): (r: seq<CartRow>)
    ensures FindCartRow(rows, userId, name).Some? ==> |r| == |rows|
    ensures FindCartRow(rows, userId, name).None? ==>
      |r| == |rows| + 1 && r[|rows|] == CartRow(newId, userId, name, image, quantity, price)
    ensures forall i :: 0 <= i < |rows| && !IsProductRow(rows[i], userId, name) ==> r[i] == rows[i]
  {
    match FindCartRow(rows, userId, name)
    case Some(i) => rows[i := rows[i].(quantity := rows[i].quantity + quantity)]
    case None => rows + [CartRow(newId, userId, name, image, quantity, price)]
  }

  /** How many of a product a user holds: the quantities of their rows for it, summed. */
  function QuantityOf(rows: seq<CartRow>, userId: nat, name: string): int {
    if rows == [] then 0
    else (if IsProductRow(rows[0], userId, name) then rows[0].quantity else 0) + QuantityOf(rows[1..], userId, name)
  }

  lemma {:induction false} QuantityOfAppend(rows: seq<CartRow>, row: CartRow, userId: nat, name: string)
    ensures QuantityOf(rows + [row], userId, name)
         == QuantityOf(rows, userId, name) + (if IsProductRow(row, userId, name) then row.quantity else 0)
  {
    if rows == [] {
      assert (rows + [row])[1..] == [];
    } else {
      assert (rows + [row])[1..] == rows[1..] + [row];
      QuantityOfAppend(rows[1..], row, userId, name);
    }
  }

  lemma {:induction false} QuantityOfUpdate(rows: seq<CartRow>, i: nat, q: int, userId: nat, name: string)
    requires i < |rows|
    ensures QuantityOf(rows[i := rows[i].(quantity := q)], userId, name)
         == QuantityOf(rows, userId, name) + (if IsProductRow(rows[i], userId, name) then q - rows[i].quantity else 0)
  {
    var rows' := rows[i := rows[i].(quantity := q)];
    if i == 0 {
      assert rows'[1..] == rows[1..];
    } else {
      QuantityOfUpdate(rows[1..], i - 1, q, userId, name);
      assert rows'[1..] == rows[1..][i - 1 := rows[i].(quantity := q)];
    }
  }

  /**
   * Adding never loses or duplicates stock: the user's quantity of the added product grows
   * by exactly the added quantity, and every other (user, product) quantity stays the same.
   */
  lemma AddRowsQuantity(rows: seq<CartRow>, newId: nat, userId: nat, name: string, image: string,
                        quantity: int, price: real, u: nat, n: string)
    ensures QuantityOf(AddRows(rows, newId, userId, name, image, quantity, price), u, n)
         == QuantityOf(rows, u, n) + (if u == userId && n == name then quantity else 0)
  {
    match FindCartRow(rows, userId, name)
    case Some(i) => QuantityOfUpdate(rows, i, rows[i].quantity + quantity, u, n);
    case None => QuantityOfAppend(rows, CartRow(newId, userId, name, image, quantity, price), u, n);
  }

  /** Adding keeps ids unique and each product at most once per user's cart. */
  lemma AddRowsConsistent(rows: seq<CartRow>, nextId: nat, userId: nat, name: string, image: string,
                          quantity: int, price: real)
    requires CartConsistent(rows, nextId)
    ensures FindCartRow(rows, userId, name).Some? ==>
      CartConsistent(AddRows(rows, nextId, userId, name, image, quantity, price), nextId)
    ensures FindCartRow(rows, userId, name).None? ==>
      CartConsistent(AddRows(rows, nextId, userId, name, image, quantity, price), nextId + 1)
  {
    var r := AddRows(rows, nextId, userId, name, image, quantity, price);
    if FindCartRow(rows, userId, name).None? {
      assert forall i :: 0 <= i < |rows| ==> r[i] == rows[i];
    }
  }

  /** `POST /add`. */
  method Add(db: Shop, userId: nat, productName: Option<string>, productImage: Option<string>,
             quantity: Option<int>, price: Option<real>)
    returns (status: int, itemId: Option<nat>)
    requires db.Valid()
    modifies db
    ensures db.Valid()
    ensures db.orders == old(db.orders) && db.orderItems == old(db.orderItems) && db.nextOrderId == old(db.nextOrderId)
    ensures AddMissing(productName, quantity, price) ==>
      status == BadRequest && itemId.None? && db.cart == old(db.cart) && db.nextCartId == old(db.nextCartId)
    ensures !AddMissing(productName, quantity, price) ==>
      db.cart == AddRows(old(db.cart), old(db.nextCartId), userId, productName.value, OrEmpty(productImage),
                         quantity.value, price.value)
    ensures !AddMissing(productName, quantity, price) && FindCartRow(old(db.cart), userId, productName.value).Some? ==>
      status == Ok && itemId == Some(old(db.cart)[FindCartRow(old(db.cart), userId, productName.value).value].id)
      && db.nextCartId == old(db.nextCartId)
    ensures !AddMissing(productName, quantity, price) && FindCartRow(old(db.cart), userId, productName.value).None? ==>
      status == Created && itemId == Some(old(db.nextCartId)) && db.nextCartId == old(db.nextCartId) + 1
  {
    if AddMissing(productName, quantity, price) {
      return BadRequest, None;
    }
    var name := productName.value;
    AddRowsConsistent(db.cart, db.nextCartId, userId, name, OrEmpty(productImage), quantity.value, price.value);
    var existing := FindCartRow(db.cart, userId, name);
    if existing.Some? {
      var i := existing.value;
      db.cart := db.cart[i := db.cart[i].(quantity := db.cart[i].quantity + quantity.value)];
      status, itemId := Ok, Some(db.cart[i].id);
    } else {
      var id := db.nextCartId;
      db.cart := db.cart + [CartRow(id, userId, name, OrEmpty(productImage), quantity.value, price.value)];
      db.nextCartId := db.nextCartId + 1;
      status, itemId := Created, Some(id);
    }
  }

  /** Whether a row is the one `WHERE id = ? AND user_id = ?` picks. */
  predicate IsOwnedRow(row: CartRow, itemId: nat, userId: nat) {
    row.id == itemId && row.userId == userId
  }

  /** The number of rows `WHERE id = ? AND user_id = ?` matches (the reported affected rows). */
  function CountOwned(rows: seq<CartRow>, itemId: nat, userId: nat): (n: nat)
    ensures n <= |rows|
    ensures n == 0 <==> forall i :: 0 <= i < |rows| ==> !IsOwnedRow(rows[i], itemId, userId)
  {
    if rows == [] then 0
    else (if IsOwnedRow(rows[0], itemId, userId) then 1 else 0) + CountOwned(rows[1..], itemId, userId)
  }

  /** `UPDATE cart SET quantity = ? WHERE id = ? AND user_id = ?`. */
  function SetQuantity(rows: seq<CartRow>, itemId: nat, userId: nat, quantity: int): (r: seq<CartRow>)
    ensures |r| == |rows|
    ensures forall i :: 0 <= i < |rows| ==>
      r[i] == if IsOwnedRow(rows[i], itemId, userId) then rows[i].(quantity := quantity) else rows[i]
  {
    seq(|rows|, i requires 0 <= i < |rows| =>
      if IsOwnedRow(rows[i], itemId, userId) then rows[i].(quantity := quantity) else rows[i])
  }

  /** An update by one user leaves every other user's cart exactly as it was. */
  lemma {:induction false} SetQuantityLeavesOthers(rows: seq<CartRow>, itemId: nat, userId: nat, quantity: int, other: nat)
    requires other != userId
    ensures CartOf(SetQuantity(rows, itemId, userId, quantity), other) == CartOf(rows, other)
  {
    if rows != [] {
      assert SetQuantity(rows, itemId, userId, quantity)[1..] == SetQuantity(rows[1..], itemId, userId, quantity);
      SetQuantityLeavesOthers(rows[1..], itemId, userId, quantity, other);
    }
  }

  /** `PUT /:itemId`. */
  method Update(db: Shop, userId: nat, itemId: nat, quantity: Option<int>) returns (status: int)
    requires db.Valid()
    modifies db
    ensures db.Valid()
    ensures db.orders == old(db.orders) && db.orderItems == old(db.orderItems)
    ensures db.nextCartId == old(db.nextCartId) && db.nextOrderId == old(db.nextOrderId)
    ensures quantity.None? || quantity.value < 1 ==> status == BadRequest && db.cart == old(db.cart)
    ensures quantity.Some? && quantity.value >= 1 ==>
      db.cart == SetQuantity(old(db.cart), itemId, userId, quantity.value)
      && (status == NotFound <==> CountOwned(old(db.cart), itemId, userId) == 0)
      && (status == Ok <==> CountOwned(old(db.cart), itemId, userId) > 0)
  {
    if quantity.None? || quantity.value < 1 {
      return BadRequest;
    }
    var affected := CountOwned(db.cart, itemId, userId);
    db.cart := SetQuantity(db.cart, itemId, userId, quantity.value);
    if affected == 0 {
      return NotFound;
    }
    status := Ok;
  }

  /** `DELETE FROM cart WHERE id = ? AND user_id = ?`: every other row, in order. */
  function RemoveOwned(rows: seq<CartRow>, itemId: nat, userId: nat): (r: seq<CartRow>)
    ensures |r| <= |rows|
    ensures forall i :: 0 <= i < |r| ==> !IsOwnedRow(r[i], itemId, userId) && r[i] in rows
    ensures forall i :: 0 <= i < |rows| && !IsOwnedRow(rows[i], itemId, userId) ==> rows[i] in r
  {
    if rows == [] then []
    else (if IsOwnedRow(rows[0], itemId, userId) then [] else [rows[0]]) + RemoveOwned(rows[1..], itemId, userId)
  }

  /** A delete by one user leaves every other user's cart exactly as it was. */
  lemma {:induction false} RemoveOwnedLeavesOthers(rows: seq<CartRow>, itemId: nat, userId: nat, other: nat)
    requires other != userId
    ensures CartOf(RemoveOwned(rows, itemId, userId), other) == CartOf(rows, other)
  {
    if rows != [] {
      RemoveOwnedLeavesOthers(rows[1..], itemId, userId, other);
      var head := if IsOwnedRow(rows[0], itemId, userId) then [] else [rows[0]];
      CartOfAppend(head, RemoveOwned(rows[1..], itemId, userId), other);
    }
  }

  lemma {:induction false} CartOfAppend(a: seq<CartRow>, b: seq<CartRow>, userId: nat)
    ensures CartOf(a + b, userId) == CartOf(a, userId) + CartOf(b, userId)
  {
    if a == [] {
      assert a + b == b;
    } else {
      assert (a + b)[1..] == a[1..] + b;
      CartOfAppend(a[1..], b, userId);
    }
  }

  /** A row unlike every row of a consistent cart can be put in front of it. */
  lemma ConsistentCons(x: CartRow, t: seq<CartRow>, nextId: nat)
    requires CartConsistent(t, nextId) && x.id < nextId
    requires forall k :: 0 <= k < |t| ==> x.id != t[k].id && (x.userId != t[k].userId || x.productName != t[k].productName)
    ensures CartConsistent([x] + t, nextId)
  {
    var r := [x] + t;
    forall i, j | 0 <= i < j < |r|
      ensures r[i].id != r[j].id
      ensures r[i].userId != r[j].userId || r[i].productName != r[j].productName
    {
      assert r[j] == t[j - 1];
      if i > 0 {
        assert r[i] == t[i - 1];
      }
    }
  }

  lemma ConsistentTail(rows: seq<CartRow>, nextId: nat)
    requires rows != [] && CartConsistent(rows, nextId)
    ensures CartConsistent(rows[1..], nextId)
  {
    var rest := rows[1..];
    forall i, j | 0 <= i < j < |rest|
      ensures rest[i].id != rest[j].id
      ensures rest[i].userId != rest[j].userId || rest[i].productName != rest[j].productName
    {
      assert rest[i] == rows[i + 1] && rest[j] == rows[j + 1];
    }
  }

  /** The first row of a consistent cart is unlike every row taken from the rest. */
  lemma HeadUnlikeRest(rows: seq<CartRow>, t: seq<CartRow>, nextId: nat)
    requires rows != [] && CartConsistent(rows, nextId)
    requires forall k :: 0 <= k < |t| ==> t[k] in rows[1..]
    ensures forall k :: 0 <= k < |t| ==>
      rows[0].id != t[k].id && (rows[0].userId != t[k].userId || rows[0].productName != t[k].productName)
  {
    var rest := rows[1..];
    forall k | 0 <= k < |t|
      ensures rows[0].id != t[k].id
      ensures rows[0].userId != t[k].userId || rows[0].productName != t[k].productName
    {
      var m :| 0 <= m < |rest| && rest[m] == t[k];
      assert rows[m + 1] == t[k];
    }
  }

  lemma {:induction false} RemoveOwnedConsistent(rows: seq<CartRow>, itemId: nat, userId: nat, nextId: nat)
    requires CartConsistent(rows, nextId)
    ensures CartConsistent(RemoveOwned(rows, itemId, userId), nextId)
  {
    if rows != [] {
      var tail := RemoveOwned(rows[1..], itemId, userId);
      ConsistentTail(rows, nextId);
      RemoveOwnedConsistent(rows[1..], itemId, userId, nextId);
      if IsOwnedRow(rows[0], itemId, userId) {
        assert RemoveOwned(rows, itemId, userId) == tail;
      } else {
        HeadUnlikeRest(rows, tail, nextId);
        ConsistentCons(rows[0], tail, nextId);
        assert RemoveOwned(rows, itemId, userId) == [rows[0]] + tail;
      }
    }
  }

  /** The number of rows a delete removes is the number it reports as affected. */
  lemma {:induction false} RemoveOwnedCount(rows: seq<CartRow>, itemId: nat, userId: nat)
    ensures |RemoveOwned(rows, itemId, userId)| == |rows| - CountOwned(rows, itemId, userId)
  {
    if rows != [] {
      RemoveOwnedCount(rows[1..], itemId, userId);
    }
  }

  /** `DELETE /:itemId`. */
  method Delete(db: Shop, userId: nat, itemId: nat) returns (status: int)
    requires db.Valid()
    modifies db
    ensures db.Valid()
    ensures db.orders == old(db.orders) && db.orderItems == old(db.orderItems)
    ensures db.nextCartId == old(db.nextCartId) && db.nextOrderId == old(db.nextOrderId)
    ensures db.cart == RemoveOwned(old(db.cart), itemId, userId)
    ensures status == NotFound <==> CountOwned(old(db.cart), itemId, userId) == 0
    ensures status == Ok <==> CountOwned(old(db.cart), itemId, userId) > 0
  {
    var affected := CountOwned(db.cart, itemId, userId);
    RemoveOwnedConsistent(db.cart, itemId, userId, db.nextCartId);
    db.cart := RemoveOwned(db.cart, itemId, userId);
    if affected == 0 {
      return NotFound;
    }
    status := Ok;
  }

  lemma {:induction false} CartOfOthersConsistent(rows: seq<CartRow>, userId: nat, nextId: nat)
    requires CartConsistent(rows, nextId)
    ensures CartConsistent(CartOfOthers(rows, userId), nextId)
  {
    if rows != [] {
      var tail := CartOfOthers(rows[1..], userId);
      ConsistentTail(rows, nextId);
      CartOfOthersConsistent(rows[1..], userId, nextId);
      if rows[0].userId == userId {
        assert CartOfOthers(rows, userId) == tail;
      } else {
        HeadUnlikeRest(rows, tail, nextId);
        ConsistentCons(rows[0], tail, nextId);
        assert CartOfOthers(rows, userId) == [rows[0]] + tail;
      }
    }
  }

  /** Clearing a cart empties exactly that user's cart and leaves every other cart as it was. */
  lemma {:induction false} ClearOnlyOwnCart(rows: seq<CartRow>, userId: nat, other: nat)
    ensures CartOf(CartOfOthers(rows, userId), userId) == []
    ensures other != userId ==> CartOf(CartOfOthers(rows, userId), other) == CartOf(rows, other)
  {
    if rows != [] {
      ClearOnlyOwnCart(rows[1..], userId, other);
      var head := if rows[0].userId != userId then [rows[0]] else [];
      CartOfAppend(head, CartOfOthers(rows[1..], userId), userId);
      CartOfAppend(head, CartOfOthers(rows[1..], userId), other);
    }
  }

  /** `DELETE /`: clear the user's cart. */
  method Clear(db: Shop, userId: nat) returns (status: int)
    requires db.Valid()
    modifies db
    ensures db.Valid()
    ensures status == Ok
    ensures db.cart == CartOfOthers(old(db.cart), userId)
    ensures db.orders == old(db.orders) && db.orderItems == old(db.orderItems)
    ensures db.nextCartId == old(db.nextCartId) && db.nextOrderId == old(db.nextOrderId)
  {
    CartOfOthersConsistent(db.cart, userId, db.nextCartId);
    db.cart := CartOfOthers(db.cart, userId);
    status := Ok;
  }

  /** The loop inserting one order item per checked-out cart row, in order. */
  method WriteItems(db: Shop, orderId: nat, rows: seq<CartRow>)
    modifies db
    ensures db.orderItems == old(db.orderItems) + CartItems(orderId, rows)
    ensures db.cart == old(db.cart) && db.orders == old(db.orders)
    ensures db.nextCartId == old(db.nextCartId) && db.nextOrderId == old(db.nextOrderId)
  {
    var k := 0;
    while k < |rows|
      invariant 0 <= k <= |rows|
      invariant db.orderItems == old(db.orderItems) + CartItems(orderId, rows[..k])
      invariant db.cart == old(db.cart) && db.orders == old(db.orders)
      invariant db.nextCartId == old(db.nextCartId) && db.nextOrderId == old(db.nextOrderId)
    {
      var row := rows[k];
      assert CartItems(orderId, rows[..k + 1]) == CartItems(orderId, rows[..k])
        + [ItemFor(orderId, row.productName, row.productImage, row.quantity, row.price)];
      db.orderItems := db.orderItems + [ItemFor(orderId, row.productName, row.productImage, row.quantity, row.price)];
      k := k + 1;
    }
    assert rows[..k] == rows;
  }

  /**
   * `POST /checkout`: with a payment method and a non-empty cart, write one pending order
   * priced from the cart, one order item per cart row, and empty the cart; otherwise 400
   * and nothing changes. `orderNumber` stands for the generated `ORD-<time>-<random>` text.
   */
  method Checkout(db: Shop, userId: nat, paymentMethod: Option<string>, shippingAddress: Option<string>,
                  orderNumber: string)
    returns (status: int, order: Option<OrderRow>)
    requires db.Valid()
    modifies db
    ensures db.Valid()
    ensures status == Created <==> Truthy(paymentMethod) && CartOf(old(db.cart), userId) != []
    ensures status != Created ==>
      status == BadRequest && order.None?
      && db.cart == old(db.cart) && db.orders == old(db.orders) && db.orderItems == old(db.orderItems)
      && db.nextOrderId == old(db.nextOrderId)
    ensures status == Created ==>
      var rows := CartOf(old(db.cart), userId);
      order == Some(NewOrder(old(db.nextOrderId), userId, orderNumber, paymentMethod.value, shippingAddress,
                             CartLines(rows)))
      && db.orders == old(db.orders)[old(db.nextOrderId) := order.value]
      && db.orderItems == old(db.orderItems) + CartItems(old(db.nextOrderId), rows)
      && db.cart == CartOfOthers(old(db.cart), userId)
      && db.nextOrderId == old(db.nextOrderId) + 1
    ensures db.nextCartId == old(db.nextCartId)
  {
    if !Truthy(paymentMethod) {
      return BadRequest, None;
    }
    var rows := CartOf(db.cart, userId);
    if rows == [] {
      return BadRequest, None;
    }
    var subtotal := SumSubtotal(CartLines(rows));
    var shippingFee := if subtotal >= 100.0 then 0.0 else 10.0;
    var total := subtotal + shippingFee;
    var orderId := db.nextOrderId;
    var o := OrderRow(orderId, userId, orderNumber, Pending, paymentMethod.value, subtotal, shippingFee, total,
                      OrEmpty(shippingAddress));
    assert o == NewOrder(orderId, userId, orderNumber, paymentMethod.value, shippingAddress, CartLines(rows));
    ghost var items0 := db.orderItems;
    CartItemsSubtotal(orderId, rows);
    PlaceOrderKeepsConsistent(db.orders, items0, orderId, o, CartItems(orderId, rows));
    db.orders := db.orders[orderId := o];
    db.nextOrderId := db.nextOrderId + 1;
    WriteItems(db, orderId, rows);
    CartOfOthersConsistent(db.cart, userId, db.nextCartId);
    db.cart := CartOfOthers(db.cart, userId);
    status, order := Created, Some(o);
  }
}
