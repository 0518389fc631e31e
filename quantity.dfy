/** The floored quantity decrement shared by the modal's quantity control and
    the cart lines' "-" buttons. */
module Quantity {

  /** Decrease by one, but never below one: at one (or below) nothing changes. */
  function FlooredDecrement(q: int): (r: int)
    ensures q >= 1 ==> r >= 1
    ensures r == q - 1 <==> q > 1
    ensures r == q <==> q <= 1
  {
    if q > 1 then q - 1 else q
  }

  /** `n` presses of "-". */
  function DecrementTimes(q: int, n: nat): int
    decreases n
  {
    if n == 0 then q else DecrementTimes(FlooredDecrement(q), n - 1)
  }

  /** Any number of presses of "-" from a quantity of at least one lands on
      max(1, q - n): it never goes below one. */
  lemma {:induction false} DecrementTimesFloor(q: int, n: nat)
    requires q >= 1
    ensures DecrementTimes(q, n) == if q - n >= 1 then q - n else 1
    ensures DecrementTimes(q, n) >= 1
    decreases n
  {
    if n > 0 {
      DecrementTimesFloor(FlooredDecrement(q), n - 1);
    }
  }
}
