/**
 * The quantity control shared by the product panels src/main/products/OrderPanel.jsx and
 * src/main/products/CartPanel.jsx: the quantity starts at 1, a change is applied only when
 * the result stays at 1 or more, the decrement button is disabled at 1 or less, and the
 * shown total is the unit price times the quantity.
 */
module QuantityStepper {

  /** The quantity after `handleQuantityChange(change)` from `quantity`. */
  function Stepped(quantity: int, change: int): (r: int)
    ensures r >= 1 <==> quantity >= 1 || quantity + change >= 1
    ensures r == quantity || r == quantity + change
    ensures r == quantity + change <==> quantity + change >= 1 || change == 0
  {
    if quantity + change >= 1 then quantity + change else quantity
  }

  predicate DecrementDisabled(quantity: int) { quantity <= 1 }

  /** The decrement button is disabled exactly when a step of -1 would be ignored. */
  lemma DisabledIffIgnored(quantity: int)
    requires quantity >= 1
    ensures DecrementDisabled(quantity) <==> Stepped(quantity, -1) == quantity
  {
  }

  /** `totalPrice`: the unit price times the quantity. */
  function TotalPrice(price: real, quantity: int): (total: real)
    ensures quantity >= 1 && price >= 0.0 ==> total >= price
  {
    price * quantity as real
  }

  class Stepper {
    var quantity: int

    ghost predicate Valid()
      reads this
    {
      quantity >= 1
    }

    /** `useState(1)`. */
    constructor ()
      ensures Valid() && quantity == 1
    {
      quantity := 1;
    }

    /** `handleQuantityChange(change)`. */
    method Change(change: int)
      requires Valid()
      modifies this
      ensures Valid()
      ensures quantity == Stepped(old(quantity), change)
    {
      var newQuantity := quantity + change;
      if newQuantity >= 1 {
        quantity := newQuantity;
      }
    }

    function Total(price: real): real
      reads this
    {
      TotalPrice(price, quantity)
    }

    predicate DecrementIsDisabled()
      reads this
    {
      DecrementDisabled(quantity)
    }
  }
}
