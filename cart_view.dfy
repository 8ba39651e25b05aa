/**
 * The user's cart page, src/backend/dashboards/userdash/components/Cart.jsx: the list of
 * cart items it shows, the local list updates it makes once the server has accepted a
 * quantity change or a removal, and the money it displays. Whether the server accepted a
 * request (`response.ok`) is the parameter `accepted`.
 */
module CartView {
  import opened Pricing
  import opened ShopTables
  import opened Seqs

  /** A displayed cart item: a cart row as `GET /api/cart` returns it. */
  datatype Item = Item(id: nat, productName: string, productImage: string, quantity: int, price: real)

  /** The item list with `quantity` replaced on every item whose id is `itemId`. */
  function WithQuantity(items: seq<Item>, itemId: nat, quantity: int): (r: seq<Item>)
    ensures |r| == |items|
    ensures forall k :: 0 <= k < |items| && items[k].id == itemId ==> r[k] == items[k].(quantity := quantity)
    ensures forall k :: 0 <= k < |items| && items[k].id != itemId ==> r[k] == items[k]
  {
    if items == [] then []
    else [if items[0].id == itemId then items[0].(quantity := quantity) else items[0]]
         + WithQuantity(items[1..], itemId, quantity)
  }

  function HasOtherId(itemId: nat): Item -> bool {
    (it: Item) => it.id != itemId
  }

  /** The item list without the items whose id is `itemId`, the rest in their order. */
  function Without(items: seq<Item>, itemId: nat): (r: seq<Item>)
    ensures forall k :: 0 <= k < |r| ==> r[k].id != itemId
    ensures forall it :: it in items && it.id != itemId ==> it in r
    ensures forall it :: it in r ==> it in items
    ensures multiset(r) <= multiset(items)
  {
    Filter(items, HasOtherId(itemId))
  }

  /** Removing an id that no item has changes nothing. */
  lemma WithoutAbsent(items: seq<Item>, itemId: nat)
    requires forall k :: 0 <= k < |items| ==> items[k].id != itemId
    ensures Without(items, itemId) == items
  {
    FilterAll(items, HasOtherId(itemId));
  }

  /** Removal works piecewise: the list's two halves are filtered separately, order kept. */
  lemma WithoutAppend(a: seq<Item>, b: seq<Item>, itemId: nat)
    ensures Without(a + b, itemId) == Without(a, itemId) + Without(b, itemId)
  {
    FilterAppend(a, b, HasOtherId(itemId));
  }

  function ItemLines(items: seq<Item>): (r: seq<Line>)
    ensures |r| == |items|
    ensures forall k :: 0 <= k < |items| ==> r[k] == Line(items[k].price, items[k].quantity)
  {
    seq(|items|, k requires 0 <= k < |items| => Line(items[k].price, items[k].quantity))
  }

  /** `calculateSubtotal`: `reduce` from the left, adding price times quantity to a sum starting at 0. */
  function ReduceSubtotal(items: seq<Item>): real
    decreases |items|
  {
    if items == [] then 0.0
    else ReduceSubtotal(items[..|items| - 1]) + items[|items| - 1].price * items[|items| - 1].quantity as real
  }

  /** The page's left fold is the shop's subtotal of the items' lines. */
  lemma {:induction false} ReduceSubtotalIsSubtotal(items: seq<Item>)
    ensures ReduceSubtotal(items) == Subtotal(ItemLines(items))
    decreases |items|
  {
    if items != [] {
      var init, last := items[..|items| - 1], items[|items| - 1];
      var line := Line(last.price, last.quantity);
      ReduceSubtotalIsSubtotal(init);
      assert ItemLines(items) == ItemLines(init) + [line];
      SubtotalAppend(ItemLines(init), [line]);
      assert Subtotal([line]) == LineAmount(line);
    }
  }

  /** `calculateShipping` and `calculateTotal`: the totals the page shows. */
  function ShownShipping(items: seq<Item>): (fee: real)
    ensures fee == 0.0 <==> ReduceSubtotal(items) >= FreeShippingFrom
    ensures fee == 0.0 || fee == ShippingCharge
  {
    if ReduceSubtotal(items) >= 100.0 then 0.0 else 10.0
  }

  function ShownTotal(items: seq<Item>): (total: real)
    ensures total == ReduceSubtotal(items) + ShownShipping(items)
    ensures total >= ReduceSubtotal(items)
  {
    ReduceSubtotal(items) + ShownShipping(items)
  }

  /** The cart rows the page lists for the user. */
  function ItemsOfRows(rows: seq<CartRow>): (r: seq<Item>)
    ensures |r| == |rows|
    ensures forall k :: 0 <= k < |rows| ==>
      r[k] == Item(rows[k].id, rows[k].productName, rows[k].productImage, rows[k].quantity, rows[k].price)
  {
    seq(|rows|, k requires 0 <= k < |rows| =>
      Item(rows[k].id, rows[k].productName, rows[k].productImage, rows[k].quantity, rows[k].price))
  }

  /**
   * The page and the server agree on money: for the user's cart rows, the shipping and the
   * total the page shows are the ones checkout records on the order.
   */
  lemma ShownTotalsMatchCheckout(rows: seq<CartRow>)
    ensures ReduceSubtotal(ItemsOfRows(rows)) == Subtotal(CartLines(rows))
    ensures ShownShipping(ItemsOfRows(rows)) == ShippingFee(Subtotal(CartLines(rows)))
    ensures ShownTotal(ItemsOfRows(rows)) == Total(Subtotal(CartLines(rows)))
  {
    ReduceSubtotalIsSubtotal(ItemsOfRows(rows));
    assert ItemLines(ItemsOfRows(rows)) == CartLines(rows);
  }

  /** The decrement button of an item is disabled at quantity 1 or less. */
  predicate DecrementDisabled(it: Item) { it.quantity <= 1 }

  predicate AllPositive(items: seq<Item>) {
    forall k :: 0 <= k < |items| ==> items[k].quantity >= 1
  }

  /**
   * The buttons keep every quantity at 1 or more: pressing an enabled decrement button, or
   * an increment button, of a listed item sends a quantity that keeps the whole list positive.
   */
  lemma ButtonsKeepQuantitiesPositive(items: seq<Item>, k: nat, up: bool)
    requires AllPositive(items) && k < |items|
    requires !up ==> !DecrementDisabled(items[k])
    ensures AllPositive(WithQuantity(items, items[k].id, if up then items[k].quantity + 1 else items[k].quantity - 1))
  {
  }

  /** The cart page's item list. */
  class CartPage {
    var items: seq<Item>

    constructor (items: seq<Item>)
      ensures this.items == items
    {
      this.items := items;
    }

    /** `updateQuantity`, after the server's answer: on success only the matching item's quantity changes. */
    method UpdateQuantity(itemId: nat, newQuantity: int, accepted: bool)
      modifies this
      ensures accepted ==> items == WithQuantity(old(items), itemId, newQuantity)
      ensures !accepted ==> items == old(items)
    {
      if accepted {
        items := WithQuantity(items, itemId, newQuantity);
      }
    }

    /** `removeItem`, after the server's answer: on success the items with that id are gone. */
    method RemoveItem(itemId: nat, accepted: bool)
      modifies this
      ensures accepted ==> items == Without(old(items), itemId)
      ensures !accepted ==> items == old(items)
    {
      if accepted {
        items := Without(items, itemId);
      }
    }

    /** `handleCheckout`, after the server's answer: a placed order empties the list, a refused one keeps it. */
    method Checkout(accepted: bool)
      modifies this
      ensures accepted ==> items == []
      ensures !accepted ==> items == old(items)
    {
      if accepted {
        items := [];
      }
    }
  }
}
