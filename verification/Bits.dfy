/** Go's bitwise operators on non-negative integers, bit by bit. */
module Bits {

  /** a & b */
  function And(a: nat, b: nat): nat {
    if a == 0 || b == 0 then 0 else 2 * And(a / 2, b / 2) + (if a % 2 == 1 && b % 2 == 1 then 1 else 0)
  }

  /** a ^ b */
  function Xor(a: nat, b: nat): nat
    decreases a + b
  {
    if a == 0 && b == 0 then 0 else 2 * Xor(a / 2, b / 2) + (a + b) % 2
  }

  lemma {:induction false} AndSelf(n: nat)
    ensures And(n, n) == n
  {
    if n > 0 {
      AndSelf(n / 2);
    }
  }

  /** One bit more. */
  lemma XorBit(a: nat, b: nat, x: nat, y: nat)
    requires x < 2 && y < 2
    ensures Xor(2 * a + x, 2 * b + y) == 2 * Xor(a, b) + (if x == y then 0 else 1)
  {
    hide Xor;
    XorParts(2 * a + x, 2 * b + y);
    HalvesOfSum(a, x);
    HalvesOfSum(b, y);
    ParityOfSum(a + b, x, y);
    Halves(Xor(2 * a + x, 2 * b + y));
  }

  lemma ParityOfSum(m: nat, x: nat, y: nat)
    requires x < 2 && y < 2
    ensures (2 * m + x + y) % 2 == if x == y then 0 else 1
  {
  }

  lemma Halves(n: nat)
    ensures n == 2 * (n / 2) + n % 2
  {
  }

  lemma {:induction false} XorZero(a: nat)
    ensures Xor(a, 0) == a
  {
    if a > 0 {
      XorZero(a / 2);
    }
  }

  /** a << k */
  function Shifted(a: nat, k: nat): nat {
    if k == 0 then a else 2 * Shifted(a, k - 1)
  }

  /** Bits from k on stay as they are when the other operand has none there. */
  lemma {:induction false} XorLow(a: nat, low: nat, b: nat, k: nat)
    requires low < Pow2(k) && b < Pow2(k)
    ensures Xor(Shifted(a, k) + low, b) == Shifted(a, k) + Xor(low, b)
  {
    if k == 0 {
      XorZero(a);
      XorZero(0);
    } else {
      HalfFits(low, k);
      HalfFits(b, k);
      XorLow(a, low / 2, b / 2, k - 1);
      hide Xor, Pow2;
      XorLowStep(Shifted(a, k - 1), low, b, Shifted(a, k));
    }
  }

  lemma XorLowStep(high: nat, low: nat, b: nat, top: nat)
    requires top == 2 * high && Xor(high + low / 2, b / 2) == high + Xor(low / 2, b / 2)
    ensures Xor(top + low, b) == top + Xor(low, b)
  {
    hide Xor;
    Halves(low);
    Halves(b);
    XorBit(high + low / 2, b / 2, low % 2, b % 2);
    XorBit(low / 2, b / 2, low % 2, b % 2);
  }

  lemma HalfFits(n: nat, k: nat)
    requires k > 0 && n < Pow2(k)
    ensures n / 2 < Pow2(k - 1)
  {
  }

  lemma HalvesOfSum(m: nat, n: nat)
    ensures (2 * m + n) / 2 == m + n / 2 && (2 * m + n) % 2 == n % 2
  {
  }

  lemma XorParts(a: nat, b: nat)
    ensures Xor(a, b) / 2 == Xor(a / 2, b / 2) && Xor(a, b) % 2 == (a + b) % 2
  {
  }

  lemma {:induction false} XorCancels(a: nat, b: nat)
    ensures Xor(Xor(a, b), b) == a
    decreases a + b
  {
    if a != 0 || b != 0 {
      XorCancels(a / 2, b / 2);
      var x := Xor(a, b);
      XorParts(a, b);
      XorParts(x, b);
      hide Xor;
      ParityCancels(a, b, x);
      SameHalves(Xor(x, b), a);
    }
  }

  lemma ParityCancels(a: nat, b: nat, x: nat)
    requires x % 2 == (a + b) % 2
    ensures (x + b) % 2 == a % 2
  {
  }

  lemma SameHalves(m: nat, n: nat)
    requires m / 2 == n / 2 && m % 2 == n % 2
    ensures m == n
  {
  }

  lemma {:induction false} XorCommutes(a: nat, b: nat)
    ensures Xor(a, b) == Xor(b, a)
    decreases a + b
  {
    if a != 0 || b != 0 {
      XorCommutes(a / 2, b / 2);
    }
  }

  function Pow2(k: nat): (r: nat)
    ensures r > 0
  {
    if k == 0 then 1 else 2 * Pow2(k - 1)
  }

  lemma {:induction false} XorFits(a: nat, b: nat, k: nat)
    requires a < Pow2(k) && b < Pow2(k)
    ensures Xor(a, b) < Pow2(k)
    decreases a + b
  {
    if a != 0 || b != 0 {
      assert k > 0;
      XorFits(a / 2, b / 2, k - 1);
    }
  }
}
