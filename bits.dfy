/**
 * Bit arithmetic on state-vector indices. Qubit q is bit q of a basis index,
 * qubit 0 being the least significant bit. A single-bit mask `1 << q` is
 * `Pow2(q)`; `(i & (1 << q)) != 0` is `Bit(i, q) == 1`; setting or clearing
 * that bit is `With(i, q, 1)` or `With(i, q, 0)`.
 */
module Bits {

  /** 2^k. */
  function Pow2(k: nat): (r: nat)
    ensures r >= 1
  {
    if k == 0 then 1 else 2 * Pow2(k - 1)
  }

  lemma {:induction false} Pow2Grows(k: nat, n: nat)
    requires k <= n
    ensures Pow2(k) <= Pow2(n)
    decreases n
  {
    if k < n {
      Pow2Grows(k, n - 1);
    }
  }

  /** Bit q of i. */
  function Bit(i: nat, q: nat): (b: nat)
    ensures b < 2
  {
    if q == 0 then i % 2 else Bit(i / 2, q - 1)
  }

  /** i with bit q replaced by b. */
  function With(i: nat, q: nat, b: nat): nat
    requires b < 2
  {
    if q == 0 then (i / 2) * 2 + b else With(i / 2, q - 1, b) * 2 + i % 2
  }

  /** Setting bit q changes bit q and no other bit. */
  lemma {:induction false} BitWith(i: nat, q: nat, b: nat, p: nat)
    requires b < 2
    ensures Bit(With(i, q, b), p) == if p == q then b else Bit(i, p)
    decreases q
  {
    if q == 0 {
      var w := With(i, q, b);
      assert w / 2 == i / 2 && w % 2 == b;
      if p > 0 {
        assert Bit(w, p) == Bit(w / 2, p - 1);
        assert Bit(i, p) == Bit(i / 2, p - 1);
      }
    } else {
      var w := With(i, q, b);
      var v := With(i / 2, q - 1, b);
      assert w / 2 == v && w % 2 == i % 2;
      if p > 0 {
        BitWith(i / 2, q - 1, b, p - 1);
        assert Bit(w, p) == Bit(v, p - 1);
      }
    }
  }

  /** Setting a bit of an index below 2^n to a bit position below n stays below 2^n. */
  lemma {:induction false} WithBound(i: nat, q: nat, b: nat, n: nat)
    requires b < 2 && q < n && i < Pow2(n)
    ensures With(i, q, b) < Pow2(n)
    decreases q
  {
    assert i / 2 < Pow2(n - 1);
    if q > 0 {
      WithBound(i / 2, q - 1, b, n - 1);
    }
  }

  /** In arithmetic terms, setting bit q adds or removes 2^q. */
  lemma {:induction false} WithArith(i: nat, q: nat, b: nat)
    requires b < 2
    ensures With(i, q, b) == i - Bit(i, q) * Pow2(q) + b * Pow2(q)
    decreases q
  {
    if q > 0 {
      WithArith(i / 2, q - 1, b);
      assert Bit(i, q) == Bit(i / 2, q - 1);
      assert Pow2(q) == 2 * Pow2(q - 1);
      assert i == (i / 2) * 2 + i % 2;
    }
  }

  /** Keeping bit q as it is leaves the index unchanged. */
  lemma WithSame(i: nat, q: nat)
    ensures With(i, q, Bit(i, q)) == i
  {
    WithArith(i, q, Bit(i, q));
  }

  /** Setting the same bit twice keeps only the second value. */
  lemma WithWith(i: nat, q: nat, b: nat, c: nat)
    requires b < 2 && c < 2
    ensures With(With(i, q, b), q, c) == With(i, q, c)
  {
    WithArith(i, q, b);
    WithArith(With(i, q, b), q, c);
    WithArith(i, q, c);
    BitWith(i, q, b, q);
  }

  /** Setting two different bits commutes. */
  lemma WithCommutes(i: nat, q: nat, b: nat, p: nat, c: nat)
    requires b < 2 && c < 2 && p != q
    ensures With(With(i, q, b), p, c) == With(With(i, p, c), q, b)
  {
    WithArith(i, q, b);
    WithArith(With(i, q, b), p, c);
    WithArith(i, p, c);
    WithArith(With(i, p, c), q, b);
    BitWith(i, q, b, p);
    BitWith(i, p, c, q);
  }

  /** Indices below 2^n that agree on bits 0..n-1 are equal. */
  lemma {:induction false} BitsDetermine(i: nat, j: nat, n: nat)
    requires i < Pow2(n) && j < Pow2(n)
    requires forall p :: 0 <= p < n ==> Bit(i, p) == Bit(j, p)
    ensures i == j
    decreases n
  {
    if n == 0 {
    } else {
      assert Bit(i, 0) == Bit(j, 0);
      forall p | 0 <= p < n - 1
        ensures Bit(i / 2, p) == Bit(j / 2, p)
      {
        assert Bit(i, p + 1) == Bit(j, p + 1);
      }
      BitsDetermine(i / 2, j / 2, n - 1);
    }
  }

  /** Every bit at or above position n of an index below 2^n is 0. */
  lemma {:induction false} HighBitsZero(i: nat, n: nat, p: nat)
    requires i < Pow2(n) && p >= n
    ensures Bit(i, p) == 0
    decreases p
  {
    if p == 0 {
    } else if n == 0 {
      assert i == 0;
      assert i / 2 == 0;
      HighBitsZero(i / 2, 0, p - 1);
    } else {
      HighBitsZero(i / 2, n - 1, p - 1);
    }
  }
}
