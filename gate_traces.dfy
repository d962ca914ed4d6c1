/**
 * The single-shot test circuits of the simulator, traced through the kernel
 * specifications from |0…0⟩ on any register size and any distinct qubits:
 * each ends in a basis state, which every draw of measureAll reads back as
 * the same outcome string.
 */
module GateTraces {
  import opened ComplexNumbers
  import opened Bits
  import opened StateVectors
  import opened GateKernels
  import opened GateSemantics
  import M = GateMatrices
  import G = Gates

  /**
   * A basis state |c⟩ is measured as c on every draw, so measureAll reports
   * BitString(c, n) and leaves |c⟩ in place.
   */
  lemma BasisReads(n: nat, c: nat, r: real)
    requires c < Pow2(n) && 0.0 <= r < 1.0
    ensures var a := M.Basis(Pow2(n), c);
      Sum(Probabilities(a)) == 1.0 && Choose(Normalized(Probabilities(a), Sum(Probabilities(a))), r) == c
  {
    BasisMeasuresItself(Pow2(n), c, r);
  }

  /** The all-zero index has no bit set. */
  lemma ZeroBits(q: nat)
    ensures Bit(0, q) == 0
  {
    HighBitsZero(0, 0, q);
  }

  /** X(a) from |0…0⟩ gives the basis state with bit a set. */
  lemma FlipFromZero(n: nat, a: nat, s0: seq<Complex>, s1: seq<Complex>)
    requires a < n
    requires s0 == M.Basis(Pow2(n), 0)
    requires s1 == SingleResult(M.X, s0, n, a)
    ensures With(0, a, 1) < Pow2(n) && s1 == M.Basis(Pow2(n), With(0, a, 1))
    ensures forall q :: Bit(With(0, a, 1), q) == if q == a then 1 else 0
  {
    ZeroBits(a);
    XOnBasis(n, a, 0);
    forall q
      ensures Bit(With(0, a, 1), q) == if q == a then 1 else 0
    {
      BitWith(0, a, 1, q);
      ZeroBits(q);
    }
  }

  /**
   * The outcome string of X(a) from |0…0⟩ has its single '1' at position a:
   * character q is qubit q, least significant first, so X(1) on two qubits reads "01".
   */
  lemma XTrace(n: nat, a: nat, s0: seq<Complex>, s1: seq<Complex>, r: real)
    requires a < n && 0.0 <= r < 1.0
    requires s0 == M.Basis(Pow2(n), 0)
    requires s1 == SingleResult(M.X, s0, n, a)
    ensures s1 == M.Basis(Pow2(n), With(0, a, 1))
    ensures Sum(Probabilities(s1)) == 1.0
    ensures Choose(Normalized(Probabilities(s1), 1.0), r) == With(0, a, 1)
    ensures forall q :: 0 <= q < n ==> (BitString(With(0, a, 1), n)[q] == '1' <==> q == a)
  {
    FlipFromZero(n, a, s0, s1);
    BasisReads(n, With(0, a, 1), r);
  }

  /** Flipping a clear bit sets it. */
  lemma SetClearBit(k: nat, c: nat)
    requires Bit(k, c) == 0
    ensures With(k, c, 1 - Bit(k, c)) == With(k, c, 1)
  {
  }

  /** Setting bit b of an index with only bit a set gives one with bits a and b set. */
  lemma TwoBits(a: nat, b: nat)
    ensures forall q :: Bit(With(With(0, a, 1), b, 1), q) == if q == a || q == b then 1 else 0
  {
    forall q
      ensures Bit(With(With(0, a, 1), b, 1), q) == if q == a || q == b then 1 else 0
    {
      BitWith(With(0, a, 1), b, 1, q);
      BitWith(0, a, 1, q);
      ZeroBits(q);
    }
  }

  /**
   * X(a) then CX(a, b) from |0…0⟩ sets bits a and b, and every draw reads
   * back that state: on two qubits, X(0) CX(0, 1) reads "11".
   */
  lemma CnotTrace(n: nat, a: nat, b: nat, s0: seq<Complex>, s1: seq<Complex>, s2: seq<Complex>, r: real)
    requires a != b && a < n && b < n && 0.0 <= r < 1.0
    requires s0 == M.Basis(Pow2(n), 0)
    requires s1 == SingleResult(M.X, s0, n, a)
    requires s2 == TwoResult(M.CNOT, s1, n, a, b)
    ensures s2 == M.Basis(Pow2(n), With(With(0, a, 1), b, 1))
    ensures Sum(Probabilities(s2)) == 1.0
    ensures Choose(Normalized(Probabilities(s2), 1.0), r) == With(With(0, a, 1), b, 1)
    ensures forall q :: 0 <= q < n ==> (BitString(With(With(0, a, 1), b, 1), n)[q] == '1' <==> q == a || q == b)
  {
    FlipFromZero(n, a, s0, s1);
    var k := With(0, a, 1);
    CnotFlipsTarget(n, a, b, k);
    assert Bit(k, a) == 1 && Bit(k, b) == 0;
    TwoBits(a, b);
    BasisReads(n, With(k, b, 1), r);
  }

  /**
   * The same circuit with the io CNOT literal as written leaves bit b clear,
   * because that literal's control is its second argument: "10", not "11".
   */
  lemma IoCnotTraceAsWritten(n: nat, a: nat, b: nat, s0: seq<Complex>, s1: seq<Complex>, s2: seq<Complex>, r: real)
    requires a != b && a < n && b < n && 0.0 <= r < 1.0
    requires s0 == M.Basis(Pow2(n), 0)
    requires s1 == SingleResult(M.X, s0, n, a)
    requires s2 == TwoResult(G.IoCnotAsWritten, s1, n, a, b)
    ensures s2 == M.Basis(Pow2(n), With(0, a, 1))
    ensures Sum(Probabilities(s2)) == 1.0
    ensures Choose(Normalized(Probabilities(s2), 1.0), r) == With(0, a, 1)
    ensures BitString(With(0, a, 1), n)[b] == '0'
  {
    FlipFromZero(n, a, s0, s1);
    var k := With(0, a, 1);
    IoCnotAsWrittenFlipsFirst(n, a, b, k);
    assert Bit(k, b) == 0;
    BasisReads(n, k, r);
  }

  /** X(a) then SWAP(a, b) moves the excitation to qubit b: "01" on two qubits. */
  lemma SwapTrace(n: nat, a: nat, b: nat, s0: seq<Complex>, s1: seq<Complex>, s2: seq<Complex>, r: real)
    requires a != b && a < n && b < n && 0.0 <= r < 1.0
    requires s0 == M.Basis(Pow2(n), 0)
    requires s1 == SingleResult(M.X, s0, n, a)
    requires s2 == TwoResult(M.SWAP, s1, n, a, b)
    ensures s2 == M.Basis(Pow2(n), With(0, b, 1))
    ensures Sum(Probabilities(s2)) == 1.0
    ensures Choose(Normalized(Probabilities(s2), 1.0), r) == With(0, b, 1)
  {
    FlipFromZero(n, a, s0, s1);
    var k := With(0, a, 1);
    SwapExchangesBits(n, a, b, k);
    assert Bit(k, a) == 1 && Bit(k, b) == 0;
    WithWith(0, a, 1, 0);
    WithSame(0, a);
    ZeroBits(a);
    assert With(k, a, Bit(k, b)) == 0;
    BasisReads(n, With(0, b, 1), r);
  }

  /** X(a) then X(b) from |0…0⟩ gives the basis state with bits a and b set. */
  lemma TwoFlipsFromZero(n: nat, a: nat, b: nat, s0: seq<Complex>, s1: seq<Complex>, s2: seq<Complex>)
    requires a != b && a < n && b < n
    requires s0 == M.Basis(Pow2(n), 0)
    requires s1 == SingleResult(M.X, s0, n, a)
    requires s2 == SingleResult(M.X, s1, n, b)
    ensures With(With(0, a, 1), b, 1) < Pow2(n) && s2 == M.Basis(Pow2(n), With(With(0, a, 1), b, 1))
    ensures forall q :: Bit(With(With(0, a, 1), b, 1), q) == if q == a || q == b then 1 else 0
  {
    FlipFromZero(n, a, s0, s1);
    var k1 := With(0, a, 1);
    assert k1 < Pow2(n) && s1 == M.Basis(Pow2(n), k1);
    assert Bit(k1, b) == 0;
    XOnBasis(n, b, k1);
    assert With(k1, b, 1 - Bit(k1, b)) == With(k1, b, 1);
    TwoBits(a, b);
  }

  /** X(a) X(b) then CCX(a, b, c) sets all three bits: "111" on three qubits. */
  lemma CcxTrace(n: nat, a: nat, b: nat, c: nat, s0: seq<Complex>, s1: seq<Complex>, s2: seq<Complex>, s3: seq<Complex>)
    requires a != b && a != c && b != c && a < n && b < n && c < n
    requires s0 == M.Basis(Pow2(n), 0)
    requires s1 == SingleResult(M.X, s0, n, a)
    requires s2 == SingleResult(M.X, s1, n, b)
    requires s3 == ThreeResult(M.CCX, s2, n, a, b, c)
    ensures s3 == M.Basis(Pow2(n), With(With(With(0, a, 1), b, 1), c, 1))
  {
    TwoFlipsFromZero(n, a, b, s0, s1, s2);
    var k2 := With(With(0, a, 1), b, 1);
    assert Bit(k2, a) == 1 && Bit(k2, b) == 1 && Bit(k2, c) == 0;
    assert k2 < Pow2(n) && s2 == M.Basis(Pow2(n), k2);
    CcxOnBasisState(n, a, b, c, k2, s2, s3);
  }

  lemma CcxOnBasisState(n: nat, a: nat, b: nat, c: nat, k: nat, s: seq<Complex>, t: seq<Complex>)
    requires a != b && a != c && b != c
    requires a < n && b < n && c < n
    requires k < Pow2(n)
    requires Bit(k, a) == 1
    requires Bit(k, b) == 1
    requires Bit(k, c) == 0
    requires s == M.Basis(Pow2(n), k)
    requires t == ThreeResult(M.CCX, s, n, a, b, c)
    ensures t == M.Basis(Pow2(n), With(k, c, 1))
  {
    SetClearBit(k, c);
    CcxFlipsTarget(n, a, b, c, k);
  }

  /** X(a) alone before CCX(a, b, c) leaves the target clear: "100" on three qubits. */
  lemma CcxOneControlTrace(n: nat, a: nat, b: nat, c: nat, s0: seq<Complex>, s1: seq<Complex>, s2: seq<Complex>)
    requires a != b && a != c && b != c && a < n && b < n && c < n
    requires s0 == M.Basis(Pow2(n), 0)
    requires s1 == SingleResult(M.X, s0, n, a)
    requires s2 == ThreeResult(M.CCX, s1, n, a, b, c)
    ensures s2 == s1 && s2 == M.Basis(Pow2(n), With(0, a, 1))
  {
    FlipFromZero(n, a, s0, s1);
    var k1 := With(0, a, 1);
    assert Bit(k1, b) == 0;
    CcxFlipsTarget(n, a, b, c, k1);
  }

  /**
   * X(a) X(b) then the io CCX literal as written, as ccx(a, b, c), leaves
   * bit c clear, because that literal's target is its first argument: "110", not "111".
   */
  lemma IoCcxTraceAsWritten(n: nat, a: nat, b: nat, c: nat, s0: seq<Complex>, s1: seq<Complex>, s2: seq<Complex>, s3: seq<Complex>)
    requires a != b && a != c && b != c && a < n && b < n && c < n
    requires s0 == M.Basis(Pow2(n), 0)
    requires s1 == SingleResult(M.X, s0, n, a)
    requires s2 == SingleResult(M.X, s1, n, b)
    requires s3 == ThreeResult(G.IoCcxAsWritten, s2, n, a, b, c)
    ensures s3 == s2 && s3 == M.Basis(Pow2(n), With(With(0, a, 1), b, 1))
  {
    TwoFlipsFromZero(n, a, b, s0, s1, s2);
    var k2 := With(With(0, a, 1), b, 1);
    assert Bit(k2, c) == 0;
    IoCcxAsWrittenFlipsFirst(n, a, b, c, k2);
  }
}
