/** The quantity controls of one cart line: the + and − buttons compute the
    quantity they request from the page, and the line shows price × quantity. */
module CartItemControls {
  import opened Wrappers
  import Models

  /** `handleIncrease`: always requests one more. */
  function IncreaseRequest(quantity: int): (requested: int)
    ensures requested > quantity
  {
    quantity + 1
  }

  /** `disabled={quantity <= 1}` on the − button. */
  predicate DecreaseEnabled(quantity: int)
  {
    quantity > 1
  }

  /** `handleDecrease`: requests one less only above 1; otherwise no request is made. */
  function DecreaseRequest(quantity: int): (requested: Option<int>)
    ensures requested.Some? <==> DecreaseEnabled(quantity)
    ensures requested.Some? ==> requested.value >= 1 && requested.value < quantity
  {
    if quantity > 1 then Some(quantity - 1) else None
  }

  /** One press of a control. */
  datatype Press = Plus | Minus

  /** The quantity after the page applies the request of one press; no request
      leaves it as it was. */
  function AfterPress(quantity: int, press: Press): int
  {
    match press
    case Plus => IncreaseRequest(quantity)
    case Minus => match DecreaseRequest(quantity) { case Some(q) => q case None => quantity }
  }

  /** The quantity after a series of presses. */
  function AfterPresses(quantity: int, presses: seq<Press>): int
    decreases |presses|
  {
    if presses == [] then quantity else AfterPresses(AfterPress(quantity, presses[0]), presses[1..])
  }

  /** Using only these controls, a quantity that starts at 1 or more never drops
      below 1, and only the − button can lower it, by exactly one. */
  lemma {:induction false} PressesKeepQuantityPositive(quantity: int, presses: seq<Press>)
    requires quantity >= 1
    ensures AfterPresses(quantity, presses) >= 1
    decreases |presses|
  {
    if presses != [] {
      PressesKeepQuantityPositive(AfterPress(quantity, presses[0]), presses[1..]);
    }
  }

  /** A press changes the quantity by at most one, and at 1 only + has an effect. */
  lemma PressStep(quantity: int, press: Press)
    ensures var q := AfterPress(quantity, press);
            (press == Plus ==> q == quantity + 1)
            && (press == Minus ==> q == (if quantity > 1 then quantity - 1 else quantity))
  {
  }

  /** Each press of + adds one, so pluses and minuses that never hit the floor
      cancel: n pluses then n minuses restore the quantity. */
  lemma {:induction false} PlusesThenMinuses(quantity: int, n: nat)
    requires quantity >= 1
    ensures AfterPresses(quantity, seq(n, _ => Plus) + seq(n, _ => Minus)) == quantity
  {
    PlusesRaise(quantity, n, seq(n, _ => Minus));
    MinusesLower(quantity + n, n);
  }

  /** n pluses in front of `rest` add n before `rest` is applied. */
  lemma {:induction false} PlusesRaise(quantity: int, n: nat, rest: seq<Press>)
    ensures AfterPresses(quantity, seq(n, _ => Plus) + rest) == AfterPresses(quantity + n, rest)
    decreases n
  {
    if n > 0 {
      var s := seq(n, _ => Plus) + rest;
      assert s[0] == Plus;
      assert s[1..] == seq(n - 1, _ => Plus) + rest;
      PlusesRaise(quantity + 1, n - 1, rest);
    } else {
      assert seq(n, _ => Plus) + rest == rest;
    }
  }

  /** n minuses from at least n + 1 take off exactly n. */
  lemma {:induction false} MinusesLower(quantity: int, n: nat)
    requires quantity >= n + 1
    ensures AfterPresses(quantity, seq(n, _ => Minus)) == quantity - n
    decreases n
  {
    if n > 0 {
      var s := seq(n, _ => Minus);
      assert s[0] == Minus;
      assert s[1..] == seq(n - 1, _ => Minus);
      MinusesLower(quantity - 1, n - 1);
    }
  }

  /** The line total shown beside the controls is price × quantity; it is the
      same figure the cart summary adds up. */
  lemma LineTotalIsSummed(item: Models.CartItem)
    ensures Models.SumLineTotals([item]) == item.product.price * item.quantity as real
  {
    assert [item][..0] == [];
  }
}
