/** BigDecimal.intValue() and the cash check built on it. */
module Arithmetic {

  const TWO_31: int := 0x8000_0000
  const TWO_32: int := 0x1_0000_0000

  /** The integer part of x: the fraction is discarded, rounding toward zero. */
  function TruncateTowardZero(x: real): (r: int)
    ensures 0.0 <= x ==> 0 <= r && r as real <= x < r as real + 1.0
    ensures x < 0.0 ==> r <= 0 && r as real - 1.0 < x <= r as real
  {
    if x >= 0.0 then x.Floor else -((-x).Floor)
  }

  /** The low 32 bits of n read as a two's-complement int. */
  function LowBits32(n: int): (r: int)
    ensures -TWO_31 <= r < TWO_31
    ensures (n - r) % TWO_32 == 0
    ensures -TWO_31 <= n < TWO_31 ==> r == n
  {
    var m := n % TWO_32;
    if m < TWO_31 then m else m - TWO_32
  }

  /** BigDecimal.intValue(): the fraction is discarded, and only the low
      32 bits of what remains are kept. */
  function IntValue(x: real): (r: int)
    ensures -TWO_31 <= r < TWO_31
    ensures (TruncateTowardZero(x) - r) % TWO_32 == 0
    ensures -(TWO_31 as real) - 1.0 < x < TWO_31 as real ==> r == TruncateTowardZero(x)
  {
    LowBits32(TruncateTowardZero(x))
  }

  /** The BUY guard `cashBalance.subtract(amount).intValue() < 0` does not throw. */
  predicate CashCheckPasses(balance: real, amount: real): (r: bool)
    ensures 0.0 <= balance - amount < TWO_31 as real ==> r
    ensures r ==> balance - amount > -1.0 || balance - amount <= -(TWO_31 as real) - 1.0
  {
    IntValue(balance - amount) >= 0
  }

  /** Away from the 32-bit limits, the guard lets a line through exactly when the
      shortfall, if any, is strictly less than one. */
  lemma CashCheckNearZero(balance: real, amount: real)
    requires -(TWO_31 as real) < balance - amount < TWO_31 as real
    ensures CashCheckPasses(balance, amount) <==> balance - amount > -1.0
  {
  }

  /** Enough cash always passes while the surplus fits in an int. */
  lemma CoveredAmountPasses(balance: real, amount: real)
    requires amount <= balance < amount + TWO_31 as real
    ensures CashCheckPasses(balance, amount)
  {
  }

  /** A shortfall below one unit of cash is let through: 100 in cash covers a
      buy of 100.5. */
  lemma SubUnitShortfallPasses()
    ensures CashCheckPasses(100.0, 100.5)
  {
  }

  /** A shortfall of one or more is refused while it fits in an int. */
  lemma ShortfallOfOneFails(balance: real, amount: real)
    requires amount - TWO_31 as real < balance <= amount - 1.0
    ensures !CashCheckPasses(balance, amount)
  {
  }

  /** The 32-bit wrap-around: a shortfall of exactly 2^32 passes the guard,
      and a surplus of 2^31 fails it. */
  lemma CashCheckWrapsAround()
    ensures CashCheckPasses(0.0, TWO_32 as real)
    ensures !CashCheckPasses(TWO_31 as real, 0.0)
  {
  }
}
