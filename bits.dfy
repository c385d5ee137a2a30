/** Python's bitwise operators on non-negative integers, defined bit by bit,
    and the facts about them that the port masks of tc.py rely on: setting
    and clearing the low bits of a number, and growing or shifting a mask
    made of a run of high bits. */
module Bits {

  function Pow2(k: nat): (r: nat)
    ensures r >= 1
  {
    if k == 0 then 1 else 2 * Pow2(k - 1)
  }

  /** Python `a | b`. */
  function Or(a: nat, b: nat): nat
    decreases a + b
  {
    if a == 0 then b
    else if b == 0 then a
    else 2 * Or(a / 2, b / 2) + (if a % 2 == 1 || b % 2 == 1 then 1 else 0)
  }

  /** Python `a & b`. */
  function And(a: nat, b: nat): nat
    decreases a + b
  {
    if a == 0 || b == 0 then 0
    else 2 * And(a / 2, b / 2) + (if a % 2 == 1 && b % 2 == 1 then 1 else 0)
  }

  /** `n` with its low `k` bits cleared. */
  function ClearLow(n: nat, k: nat): nat
  {
    if k == 0 then n else 2 * ClearLow(n / 2, k - 1)
  }

  /** `n` with its low `k` bits set. */
  function SetLow(n: nat, k: nat): nat
  {
    if k == 0 then n else 2 * SetLow(n / 2, k - 1) + 1
  }

  lemma {:induction false} Pow2Monotone(k: nat, w: nat)
    requires k <= w
    ensures Pow2(k) <= Pow2(w)
    decreases w
  {
    if k < w {
      Pow2Monotone(k, w - 1);
    }
  }

  /** Or with the odd number 2h + 1 sets the lowest bit and ors the rest
      with h. */
  lemma OrOdd(n: nat, m: nat, h: nat)
    requires m == 2 * h + 1
    ensures Or(n, m) == 2 * Or(n / 2, h) + 1
  {
    assert m / 2 == h && m % 2 == 1;
    if n == 0 {
      assert Or(0, h) == h;
    }
  }

  /** Or with the even number 2h ors the rest with h and keeps the lowest
      bit of n. */
  lemma OrEven(n: nat, m: nat, h: nat)
    requires m == 2 * h
    ensures Or(n, m) == 2 * Or(n / 2, h) + n % 2
  {
    assert m / 2 == h && m % 2 == 0;
    if n == 0 {
      assert Or(0, h) == h;
    } else if m == 0 {
      assert Or(n / 2, 0) == n / 2;
    }
  }

  /** And with the even number 2h clears the lowest bit and ands the rest
      with h. */
  lemma AndEven(n: nat, m: nat, h: nat)
    requires m == 2 * h
    ensures And(n, m) == 2 * And(n / 2, h)
  {
    assert m / 2 == h && m % 2 == 0;
    if m == 0 {
      assert And(n / 2, 0) == 0;
    }
  }

  /** `a | b` keeps every bit of either operand, so it is at least each. */
  lemma {:induction false} OrAtLeast(a: nat, b: nat)
    ensures a <= Or(a, b) && b <= Or(a, b)
    decreases a + b
  {
    if a != 0 && b != 0 {
      OrAtLeast(a / 2, b / 2);
    }
  }

  /** `a | b` sets no bit above the operands' width. */
  lemma {:induction false} OrBelow(a: nat, b: nat, w: nat)
    requires a < Pow2(w) && b < Pow2(w)
    ensures Or(a, b) < Pow2(w)
    decreases w
  {
    if a != 0 && b != 0 {
      OrBelow(a / 2, b / 2, w - 1);
    }
  }

  /** Or with 2^k - 1 sets the low k bits. */
  lemma {:induction false} OrSetsLow(n: nat, k: nat)
    ensures Or(n, Pow2(k) - 1) == SetLow(n, k)
    decreases k
  {
    if k == 0 {
      assert Or(n, 0) == n;
    } else {
      var p := Pow2(k - 1);
      OrOdd(n, Pow2(k) - 1, p - 1);
      OrSetsLow(n / 2, k - 1);
    }
  }

  /** And with 2^w - 1 keeps a number below 2^w. */
  lemma {:induction false} AndAllOnes(n: nat, w: nat)
    requires n < Pow2(w)
    ensures And(n, Pow2(w) - 1) == n
    decreases w
  {
    if w > 0 && n > 0 {
      AndAllOnes(n / 2, w - 1);
    }
  }

  /** The w-bit mask whose high w - k bits are set and whose low k bits are
      clear: 2^w - 2^k. */
  function Run(w: nat, k: nat): nat
    requires k <= w
  {
    Pow2Monotone(k, w);
    Pow2(w) - Pow2(k)
  }

  /** A run mask is twice the run one bit narrower. */
  lemma RunHalf(w: nat, k: nat)
    requires 1 <= k <= w
    ensures Run(w, k) == 2 * Run(w - 1, k - 1)
  {
    assert Pow2(w) == 2 * Pow2(w - 1);
    assert Pow2(k) == 2 * Pow2(k - 1);
  }

  /** And with a run mask clears the low k bits of a number below 2^w. */
  lemma {:induction false} AndClearsLow(n: nat, w: nat, k: nat)
    requires k <= w && n < Pow2(w)
    ensures And(n, Run(w, k)) == ClearLow(n, k)
    decreases k
  {
    if k == 0 {
      AndAllOnes(n, w);
    } else {
      RunHalf(w, k);
      AndEven(n, Run(w, k), Run(w - 1, k - 1));
      assert Pow2(w) == 2 * Pow2(w - 1);
      AndClearsLow(n / 2, w - 1, k - 1);
    }
  }

  /** `m | (m >> 1)` for a run mask fixes one more bit: the run mask shifted
      right by one is the run one bit narrower, and or-ing the two gives the
      run that reaches one bit lower. */
  lemma {:induction false} GrowRun(w: nat, k: nat)
    requires 1 <= k < w
    ensures Or(Run(w, k), Run(w - 1, k - 1)) == Run(w, k - 1)
    decreases k
  {
    var a, b := Run(w, k), Run(w - 1, k - 1);
    RunHalf(w, k);
    assert a / 2 == b && a % 2 == 0;
    if k == 1 {
      var p := Pow2(w - 2);
      assert Pow2(w - 1) == 2 * p;
      assert Pow2(w) == 2 * Pow2(w - 1);
      OrOdd(a, b, p - 1);
      OrSetsLow(b, w - 2);
      SetLowAllOnes(w - 1, w - 2);
    } else {
      var c := Run(w - 2, k - 2);
      RunHalf(w - 1, k - 1);
      OrEven(a, b, c);
      GrowRun(w - 1, k - 1);
      RunHalf(w, k - 1);
    }
  }

  /** Setting the low k bits of 2^j - 1, for k <= j, changes nothing. */
  lemma {:induction false} SetLowAllOnes(j: nat, k: nat)
    requires k <= j
    ensures SetLow(Pow2(j) - 1, k) == Pow2(j) - 1
    decreases k
  {
    if k > 0 {
      SetLowAllOnes(j - 1, k - 1);
    }
  }

  /** Setting the low bits is clearing them and adding 2^k - 1. */
  lemma {:induction false} SetIsClearPlusOnes(n: nat, k: nat)
    ensures SetLow(n, k) == ClearLow(n, k) + Pow2(k) - 1
    decreases k
  {
    if k > 0 {
      SetIsClearPlusOnes(n / 2, k - 1);
    }
  }

  /** Setting low bits never lowers a number; clearing them never raises it. */
  lemma {:induction false} ClearSetBounds(n: nat, k: nat)
    ensures ClearLow(n, k) <= n <= SetLow(n, k)
    decreases k
  {
    if k > 0 {
      ClearSetBounds(n / 2, k - 1);
    }
  }

  /** Setting one more bit makes a number at least as large. */
  lemma {:induction false} SetLowStep(n: nat, k: nat)
    ensures SetLow(n, k) <= SetLow(n, k + 1)
    decreases k
  {
    if k > 0 {
      SetLowStep(n / 2, k - 1);
    }
  }

  /** Setting more bits makes a number at least as large. */
  lemma {:induction false} SetLowMonotone(n: nat, k: nat, j: nat)
    requires k <= j
    ensures SetLow(n, k) <= SetLow(n, j)
    decreases j
  {
    if k < j {
      SetLowMonotone(n, k, j - 1);
      SetLowStep(n, j - 1);
    }
  }

  /** A number below 2^w with its low w bits set is 2^w - 1. */
  lemma {:induction false} SetLowFull(n: nat, w: nat)
    requires n < Pow2(w)
    ensures SetLow(n, w) == Pow2(w) - 1
    decreases w
  {
    if w > 0 {
      SetLowFull(n / 2, w - 1);
    }
  }

  /** Two numbers agree above their low k bits exactly when the one lies
      between the other with those bits cleared and with them set. */
  lemma {:induction false} SameHighBits(n: nat, v: nat, k: nat)
    ensures ClearLow(n, k) == ClearLow(v, k) <==> ClearLow(v, k) <= n <= SetLow(v, k)
    decreases k
  {
    if k > 0 {
      SameHighBits(n / 2, v / 2, k - 1);
    }
  }
}
