/** Small vocabulary shared by every module: optional values, results, and real arithmetic helpers. */
module Prelude {

  datatype Option<+T> = None | Some(value: T)

  datatype Result<+T, +E> = Success(value: T) | Failure(error: E)

  function Min(a: real, b: real): real {
    if a <= b then a else b
  }

  function Max(a: real, b: real): real {
    if a >= b then a else b
  }

  function Abs(a: real): real {
    if a < 0.0 then -a else a
  }

  /** `magnitude` times +1 when `a` is positive and times -1 otherwise. */
  function Along(a: real, magnitude: real): real {
    if a > 0.0 then magnitude else -magnitude
  }

  /** A quantity at a price. Proofs that only move whole notionals around hide the product. */
  function Notional(quantity: real, price: real): real {
    quantity * price
  }

  function Quotient(amount: real, divisor: real): real
    requires divisor != 0.0
  {
    amount / divisor
  }

  lemma NotionalAdds(a: real, b: real, price: real)
    ensures Notional(a + b, price) == Notional(a, price) + Notional(b, price)
    ensures Notional(a - b, price) == Notional(a, price) - Notional(b, price)
    ensures Notional(-a, price) == -Notional(a, price)
    ensures Notional(0.0, price) == 0.0
  {}

  lemma NotionalSpread(quantity: real, price: real, entry: real)
    ensures Notional(quantity, price - entry) == Notional(quantity, price) - Notional(quantity, entry)
  {}

  lemma QuotientTimes(amount: real, divisor: real)
    requires divisor != 0.0
    ensures Notional(divisor, Quotient(amount, divisor)) == amount
  {}

  /** The ledgers' product test `a * b > 0`, told by signs. */
  predicate Aligned(a: real, b: real) {
    (a > 0.0 && b > 0.0) || (a < 0.0 && b < 0.0)
  }

  /** The ledgers' product test `a * b < 0`, told by signs. */
  predicate Opposed(a: real, b: real) {
    (a > 0.0 && b < 0.0) || (a < 0.0 && b > 0.0)
  }

  /** Rounding toward zero (ROUND_DOWN). */
  function Truncate(a: real): int {
    if a >= 0.0 then a.Floor else -(-a).Floor
  }

  /** Rounding away from zero (ROUND_UP). */
  function AwayFromZero(a: real): int {
    if a == Truncate(a) as real then Truncate(a)
    else if a > 0.0 then Truncate(a) + 1
    else Truncate(a) - 1
  }

  function Times(k: int, increment: real): real {
    k as real * increment
  }

  ghost predicate IsMultiple(value: real, increment: real) {
    exists k: int :: value == Times(k, increment)
  }

  lemma MultipleIntro(value: real, increment: real, k: int)
    requires value == Times(k, increment)
    ensures IsMultiple(value, increment)
  {}

  lemma MultipleSum(a: real, b: real, increment: real)
    requires IsMultiple(a, increment) && IsMultiple(b, increment)
    ensures IsMultiple(a + b, increment)
    ensures IsMultiple(a - b, increment)
  {
    var j: int :| a == Times(j, increment);
    var k: int :| b == Times(k, increment);
    MultipleIntro(a + b, increment, j + k);
    MultipleIntro(a - b, increment, j - k);
  }
}
