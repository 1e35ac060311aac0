/** The order summary beside the cart: subtotal, the flat delivery fee and
    the total. */
module CartSummary {
  import Models
  import MockData

  const DeliveryFee: real := 5.99

  /** The subtotal, the `reduce` over price × quantity. */
  function Subtotal(items: seq<Models.CartItem>): (r: real)
    ensures items == [] ==> r == 0.0
    ensures (forall i :: 0 <= i < |items| ==> items[i].product.price >= 0.0 && items[i].quantity >= 0) ==> r >= 0.0
  {
    Models.SumLineTotalsNonNegative(items);
    Models.SumLineTotals(items)
  }

  /** The total: the subtotal plus the delivery fee, whatever the items are. */
  function Total(items: seq<Models.CartItem>): (r: real)
    ensures r - Subtotal(items) == DeliveryFee
    ensures (forall i :: 0 <= i < |items| ==> items[i].product.price >= 0.0 && items[i].quantity >= 0) ==> r >= DeliveryFee
  {
    Subtotal(items) + DeliveryFee
  }

  /** Adding an item raises the subtotal, and the total with it, by exactly its
      line total; the fee does not change. */
  lemma AddingItemAddsLineTotal(items: seq<Models.CartItem>, item: Models.CartItem)
    ensures Subtotal(items + [item]) == Subtotal(items) + Models.LineTotal(item)
    ensures Total(items + [item]) == Total(items) + Models.LineTotal(item)
  {
    assert (items + [item])[..|items|] == items;
  }

  /** The summary's subtotal is the catalogue service's `getCartTotal`. */
  lemma SubtotalIsCartTotal(items: seq<Models.CartItem>)
    ensures Subtotal(items) == MockData.GetCartTotal(items)
  {
  }
}
