/** Bitwise operations on natural numbers, bit by bit, and what masks and shifts do to the high
    and low parts of a number. A `u64` of the source is a natural number below 2^64. */
module Bits {

  function Pow2(k: nat): (p: nat)
    ensures p >= 1
  {
    if k == 0 then 1 else 2 * Pow2(k - 1)
  }

  function And(x: nat, y: nat): nat {
    if x == 0 || y == 0 then 0
    else 2 * And(x / 2, y / 2) + (if x % 2 == 1 && y % 2 == 1 then 1 else 0)
  }

  function Or(x: nat, y: nat): nat {
    if x == 0 && y == 0 then 0
    else 2 * Or(x / 2, y / 2) + (if x % 2 == 1 || y % 2 == 1 then 1 else 0)
  }

  function Shl(x: nat, k: nat): nat {
    if k == 0 then x else 2 * Shl(x, k - 1)
  }

  function Shr(x: nat, k: nat): nat {
    if k == 0 then x else Shr(x / 2, k - 1)
  }

  /** The `k` low bits of `x`: what a cast to a `k`-bit unsigned integer keeps. */
  function Low(x: nat, k: nat): (low: nat)
    ensures low < Pow2(k)
  {
    if k == 0 then 0 else 2 * Low(x / 2, k - 1) + x % 2
  }

  /** A number is its high part shifted left plus its low part. */
  lemma {:induction false} Split(x: nat, k: nat)
    ensures x == Shl(Shr(x, k), k) + Low(x, k)
  {
    if k != 0 {
      Split(x / 2, k - 1);
    }
  }

  /** There is only one way to write a number so. */
  lemma {:induction false} SplitUnique(high: nat, low: nat, k: nat)
    requires low < Pow2(k)
    ensures Shr(Shl(high, k) + low, k) == high
    ensures Low(Shl(high, k) + low, k) == low
  {
    if k != 0 {
      SplitUnique(high, low / 2, k - 1);
      assert (Shl(high, k) + low) / 2 == Shl(high, k - 1) + low / 2;
    }
  }

  /** Masking with `k` ones keeps the `k` low bits. */
  lemma {:induction false} AndOnes(x: nat, k: nat)
    ensures And(x, Pow2(k) - 1) == Low(x, k)
  {
    if k == 0 {
    } else if x == 0 {
      AndOnes(0, k - 1);
    } else {
      AndOnes(x / 2, k - 1);
      assert (Pow2(k) - 1) / 2 == Pow2(k - 1) - 1;
    }
  }

  /** Setting bits above the `k` low ones of a number that has none there adds them. */
  lemma {:induction false} OrDisjoint(low: nat, high: nat, k: nat)
    requires low < Pow2(k)
    ensures Or(low, Shl(high, k)) == Shl(high, k) + low
  {
    if k == 0 {
      OrZero(high);
    } else if low == 0 && Shl(high, k) == 0 {
    } else {
      OrDisjoint(low / 2, high, k - 1);
    }
  }

  lemma {:induction false} OrZero(x: nat)
    ensures Or(0, x) == x
  {
    if x != 0 {
      OrZero(x / 2);
    }
  }
}
