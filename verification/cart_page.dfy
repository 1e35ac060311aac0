/** The cart page's item list: the quantity update and the removal the cart
    lines request. */
module CartPage {
  import Seqs
  import Models
  import CartItemControls

  /** The `map` of `handleUpdateQuantity(id, quantity)`: the items with that id
      take the new quantity, unchecked; every other item, the length and the
      order are kept. */
  function WithQuantity(items: seq<Models.CartItem>, id: string, quantity: int): (r: seq<Models.CartItem>)
    ensures |r| == |items|
    ensures forall i :: 0 <= i < |items| && items[i].id == id ==> r[i] == items[i].(quantity := quantity)
    ensures forall i :: 0 <= i < |items| && items[i].id != id ==> r[i] == items[i]
  {
    Seqs.UpdateWhere(items, (x: Models.CartItem) => x.id == id, (x: Models.CartItem) => x.(quantity := quantity))
  }

  /** Updating an id that is not in the cart leaves the cart unchanged. */
  lemma UpdateUnknownIsNoOp(items: seq<Models.CartItem>, id: string, quantity: int)
    requires forall i :: 0 <= i < |items| ==> items[i].id != id
    ensures WithQuantity(items, id, quantity) == items
  {
    Seqs.UpdateWhereNoMatch(items, (x: Models.CartItem) => x.id == id, (x: Models.CartItem) => x.(quantity := quantity));
  }

  /** The filter of `handleRemoveItem(id)`. */
  function WithoutItem(items: seq<Models.CartItem>, id: string): (r: seq<Models.CartItem>)
    ensures forall x :: x in r <==> x in items && x.id != id
    ensures Seqs.IsSubsequence(r, items)
    ensures |r| == |items| - Seqs.Count(items, (x: Models.CartItem) => x.id == id)
  {
    Seqs.FilterOutLength(items, (x: Models.CartItem) => x.id == id, (x: Models.CartItem) => x.id != id);
    Seqs.FilterIsSubsequence(items, (x: Models.CartItem) => x.id != id);
    Seqs.Filter(items, (x: Models.CartItem) => x.id != id)
  }

  /** Removing an id that is not in the cart leaves the cart unchanged. */
  lemma RemoveUnknownIsNoOp(items: seq<Models.CartItem>, id: string)
    requires forall i :: 0 <= i < |items| ==> items[i].id != id
    ensures WithoutItem(items, id) == items
  {
  }

  /** Every item holds at least one unit. */
  predicate AllPositive(items: seq<Models.CartItem>)
  {
    forall i :: 0 <= i < |items| ==> items[i].quantity >= 1
  }

  /** The page state. */
  class Cart {
    var cartItems: seq<Models.CartItem>

    constructor (initial: seq<Models.CartItem>)
      ensures cartItems == initial
    {
      cartItems := initial;
    }

    method UpdateQuantity(id: string, quantity: int)
      modifies this
      ensures cartItems == WithQuantity(old(cartItems), id, quantity)
    {
      cartItems := WithQuantity(cartItems, id, quantity);
    }

    method RemoveItem(id: string)
      modifies this
      ensures cartItems == WithoutItem(old(cartItems), id)
    {
      cartItems := WithoutItem(cartItems, id);
    }

    /** The + button of the line at `k`: the page applies its request. */
    method PressPlus(k: nat)
      requires k < |cartItems|
      modifies this
      ensures AllPositive(old(cartItems)) ==> AllPositive(cartItems)
      ensures cartItems == WithQuantity(old(cartItems), old(cartItems)[k].id,
                                        CartItemControls.IncreaseRequest(old(cartItems)[k].quantity))
    {
      var item := cartItems[k];
      UpdateQuantity(item.id, CartItemControls.IncreaseRequest(item.quantity));
    }

    /** The − button of the line at `k`: a request is applied only when the
        control makes one. The quantities then never drop below 1. */
    method PressMinus(k: nat)
      requires k < |cartItems|
      modifies this
      ensures AllPositive(old(cartItems)) ==> AllPositive(cartItems)
      ensures !CartItemControls.DecreaseEnabled(old(cartItems)[k].quantity) ==> cartItems == old(cartItems)
      ensures CartItemControls.DecreaseEnabled(old(cartItems)[k].quantity) ==>
                cartItems == WithQuantity(old(cartItems), old(cartItems)[k].id, old(cartItems)[k].quantity - 1)
    {
      var item := cartItems[k];
      var request := CartItemControls.DecreaseRequest(item.quantity);
      if request.Some? {
        UpdateQuantity(item.id, request.value);
      }
    }
  }
}
