/**
 * The shop's money rules, shared by the checkout route (server/src/routes/cart.js), the
 * order route (server/src/routes/orders.js) and the cart page (Cart.jsx): a subtotal is
 * the sum of price times quantity, shipping is free from 100 on and 10 below, and the
 * total is their sum. Money is a `real`: the model has no floating-point rounding.
 */
module Pricing {
  /** A priced quantity: one cart row, order item or request item as far as money goes. */
  datatype Line = Line(price: real, quantity: int)

  const FreeShippingFrom: real := 100.0
  const ShippingCharge: real := 10.0

  function LineAmount(l: Line): real { l.price * l.quantity as real }

  /** The sum of price times quantity over the lines. */
  function Subtotal(lines: seq<Line>): real {
    if lines == [] then 0.0 else LineAmount(lines[0]) + Subtotal(lines[1..])
  }

  /** The subtotal of two runs of lines is the sum of their subtotals. */
  lemma {:induction false} SubtotalAppend(a: seq<Line>, b: seq<Line>)
    ensures Subtotal(a + b) == Subtotal(a) + Subtotal(b)
  {
    if a == [] {
      assert a + b == b;
    } else {
      assert (a + b)[1..] == a[1..] + b;
      SubtotalAppend(a[1..], b);
    }
  }

  /** Lines with non-negative prices and quantities never make a negative subtotal. */
  lemma {:induction false} SubtotalNonNegative(lines: seq<Line>)
    requires forall i :: 0 <= i < |lines| ==> lines[i].price >= 0.0 && lines[i].quantity >= 0
    ensures Subtotal(lines) >= 0.0
  {
    if lines != [] {
      SubtotalNonNegative(lines[1..]);
      assert LineAmount(lines[0]) >= 0.0;
    }
  }

  /** The subtotal does not depend on the order of the lines. */
  lemma {:induction false} SubtotalSwap(a: seq<Line>, b: seq<Line>)
    ensures Subtotal(a + b) == Subtotal(b + a)
  {
    SubtotalAppend(a, b);
    SubtotalAppend(b, a);
  }

  /** The shipping fee: nothing from 100 on, 10 below. */
  function ShippingFee(subtotal: real): (fee: real)
    ensures fee == 0.0 <==> subtotal >= FreeShippingFrom
    ensures fee == 0.0 || fee == ShippingCharge
  {
    if subtotal >= FreeShippingFrom then 0.0 else ShippingCharge
  }

  /** What the customer pays for a given subtotal. */
  function Total(subtotal: real): (total: real)
    ensures total - subtotal == ShippingFee(subtotal)
    ensures subtotal >= FreeShippingFrom ==> total == subtotal
    ensures subtotal < FreeShippingFrom ==> total == subtotal + ShippingCharge
    ensures total >= subtotal
  {
    subtotal + ShippingFee(subtotal)
  }

  /** The accumulating loop of the checkout and create routes: add each line's amount in turn. */
  method SumSubtotal(lines: seq<Line>) returns (subtotal: real)
    ensures subtotal == Subtotal(lines)
  {
    subtotal := 0.0;
    var i := 0;
    while i < |lines|
      invariant 0 <= i <= |lines|
      invariant subtotal == Subtotal(lines[..i])
    {
      SubtotalAppend(lines[..i], [lines[i]]);
      assert lines[..i + 1] == lines[..i] + [lines[i]];
      subtotal := subtotal + LineAmount(lines[i]);
      i := i + 1;
    }
    assert lines[..i] == lines;
  }
}
