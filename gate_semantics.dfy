/**
 * What the three apply kernels do with permutation matrices: a permutation
 * gate moves amplitudes between the members of each group, so on a basis
 * state it gives another basis state. From that follow the exact behaviours
 * of X, CNOT, SWAP and CCX on basis states and the io CNOT and CCX
 * literals' flipped roles.
 */
module GateSemantics {
  import opened ComplexNumbers
  import opened Bits
  import opened AmplitudeGroups
  import opened StateVectors
  import opened GateKernels
  import M = GateMatrices
  import G = Gates

  /** Row i of a permutation matrix picks entry p[i] of the vector. */
  lemma PermRowPicks(p: seq<nat>, v: seq<Complex>, i: nat)
    requires |p| == |v| && i < |p| && p[i] < |p|
    ensures M.Dot(M.PermMatrix(p)[i], v) == v[p[i]]
  {
    M.DotSparse(M.PermMatrix(p)[i], v, p[i], One);
    MulOneIdentity(v[p[i]]);
  }

  // ---------------------------------------------------------------- one qubit

  /** A single-qubit permutation gate sets bit t of each index to p of that bit and reads there. */
  lemma SinglePermutes(p: seq<nat>, a: seq<Complex>, n: nat, t: nat, g: nat)
    requires |p| == 2 && p[0] < 2 && p[1] < 2 && |a| == Pow2(n) && t < n && g < |a|
    ensures With(g, t, p[Bit(g, t)]) < |a|
    ensures SingleResult(M.PermMatrix(p), a, n, t)[g] == a[With(g, t, p[Bit(g, t)])]
  {
    WithBound(g, t, p[Bit(g, t)], n);
    PermRowPicks(p, Group1(a, n, t, g), Bit(g, t));
  }

  /** On a basis state |k⟩ a single-qubit involution gives |k with bit t replaced by p of it⟩. */
  lemma SinglePermutesBasis(p: seq<nat>, n: nat, t: nat, k: nat)
    requires |p| == 2 && M.IsInvolution(p) && t < n && k < Pow2(n)
    ensures With(k, t, p[Bit(k, t)]) < Pow2(n)
    ensures SingleResult(M.PermMatrix(p), M.Basis(Pow2(n), k), n, t)
      == M.Basis(Pow2(n), With(k, t, p[Bit(k, t)]))
  {
    var d := Pow2(n);
    var target := With(k, t, p[Bit(k, t)]);
    WithBound(k, t, p[Bit(k, t)], n);
    var r := SingleResult(M.PermMatrix(p), M.Basis(d, k), n, t);
    forall g | 0 <= g < d
      ensures r[g] == M.Basis(d, target)[g]
    {
      SinglePermutes(p, M.Basis(d, k), n, t, g);
      var h := With(g, t, p[Bit(g, t)]);
      BitWith(g, t, p[Bit(g, t)], t);
      BitWith(k, t, p[Bit(k, t)], t);
      WithWith(g, t, p[Bit(g, t)], Bit(g, t));
      WithWith(k, t, p[Bit(k, t)], Bit(k, t));
      WithSame(g, t);
      WithSame(k, t);
      WithWith(h, t, Bit(h, t), p[Bit(h, t)]);
      WithWith(target, t, Bit(target, t), p[Bit(target, t)]);
    }
  }

  /** A single-qubit involution applied twice to the same target restores every state. */
  lemma SingleTwiceRestores(p: seq<nat>, a: seq<Complex>, n: nat, t: nat)
    requires |p| == 2 && M.IsInvolution(p) && |a| == Pow2(n) && t < n
    ensures SingleResult(M.PermMatrix(p), SingleResult(M.PermMatrix(p), a, n, t), n, t) == a
  {
    var r1 := SingleResult(M.PermMatrix(p), a, n, t);
    var r2 := SingleResult(M.PermMatrix(p), r1, n, t);
    forall g | 0 <= g < |a|
      ensures r2[g] == a[g]
    {
      SinglePermutes(p, r1, n, t, g);
      var h := With(g, t, p[Bit(g, t)]);
      SinglePermutes(p, a, n, t, h);
      BitWith(g, t, p[Bit(g, t)], t);
      WithWith(g, t, p[Bit(g, t)], Bit(g, t));
      WithSame(g, t);
    }
  }

  /** X swaps the amplitudes of each pair: amplitude g takes the old value at g with bit t flipped. */
  lemma XSwapsPairs(a: seq<Complex>, n: nat, t: nat, g: nat)
    requires |a| == Pow2(n) && t < n && g < |a|
    ensures With(g, t, 1 - Bit(g, t)) < |a|
    ensures SingleResult(M.X, a, n, t)[g] == a[With(g, t, 1 - Bit(g, t))]
  {
    M.XIsPerm();
    SinglePermutes([1, 0], a, n, t, g);
  }

  /** X twice on the same qubit restores the state. */
  lemma XTwiceRestores(a: seq<Complex>, n: nat, t: nat)
    requires |a| == Pow2(n) && t < n
    ensures SingleResult(M.X, SingleResult(M.X, a, n, t), n, t) == a
  {
    M.XIsPerm();
    SingleTwiceRestores([1, 0], a, n, t);
  }

  /** X on qubit t flips bit t of a basis state. */
  lemma XOnBasis(n: nat, t: nat, k: nat)
    requires t < n && k < Pow2(n)
    ensures With(k, t, 1 - Bit(k, t)) < Pow2(n)
    ensures SingleResult(M.X, M.Basis(Pow2(n), k), n, t) == M.Basis(Pow2(n), With(k, t, 1 - Bit(k, t)))
  {
    M.XIsPerm();
    var p: seq<nat> := [1, 0];
    assert M.IsInvolution(p);
    SinglePermutesBasis(p, n, t, k);
    assert p[Bit(k, t)] == 1 - Bit(k, t);
  }

  // ---------------------------------------------------------------- two qubits

  /** A two-qubit permutation gate reads each amplitude from member p[local] of its group. */
  lemma TwoPermutes(p: seq<nat>, a: seq<Complex>, n: nat, q0: nat, q1: nat, g: nat)
    requires |p| == 4 && M.IsInvolution(p) && |a| == Pow2(n) && q0 < n && q1 < n && g < |a|
    ensures Member2(g, q0, q1, p[Local2(g, q0, q1)]) < |a|
    ensures TwoResult(M.PermMatrix(p), a, n, q0, q1)[g] == a[Member2(g, q0, q1, p[Local2(g, q0, q1)])]
  {
    Member2Bound(g, q0, q1, p[Local2(g, q0, q1)], n);
    PermRowPicks(p, Group2(a, n, q0, q1, g), Local2(g, q0, q1));
  }

  /** On |k⟩ a two-qubit involution gives |member p[local k] of k's group⟩. */
  lemma TwoPermutesBasis(p: seq<nat>, n: nat, q0: nat, q1: nat, k: nat)
    requires |p| == 4 && M.IsInvolution(p) && q0 != q1 && q0 < n && q1 < n && k < Pow2(n)
    ensures Member2(k, q0, q1, p[Local2(k, q0, q1)]) < Pow2(n)
    ensures TwoResult(M.PermMatrix(p), M.Basis(Pow2(n), k), n, q0, q1)
      == M.Basis(Pow2(n), Member2(k, q0, q1, p[Local2(k, q0, q1)]))
  {
    var d := Pow2(n);
    var target := Member2(k, q0, q1, p[Local2(k, q0, q1)]);
    Member2Bound(k, q0, q1, p[Local2(k, q0, q1)], n);
    var r := TwoResult(M.PermMatrix(p), M.Basis(d, k), n, q0, q1);
    forall g | 0 <= g < d
      ensures r[g] == M.Basis(d, target)[g]
    {
      TwoPermutes(p, M.Basis(d, k), n, q0, q1, g);
      var lg, lk := Local2(g, q0, q1), Local2(k, q0, q1);
      Local2Member2(g, q0, q1, p[lg]);
      Local2Member2(k, q0, q1, p[lk]);
      Member2Member2(g, q0, q1, p[lg], lg);
      Member2Member2(k, q0, q1, p[lk], lk);
      Member2Self(g, q0, q1);
      Member2Self(k, q0, q1);
    }
  }

  /** A two-qubit involution applied twice to the same qubits restores every state. */
  lemma TwoTwiceRestores(p: seq<nat>, a: seq<Complex>, n: nat, q0: nat, q1: nat)
    requires |p| == 4 && M.IsInvolution(p) && |a| == Pow2(n) && q0 != q1 && q0 < n && q1 < n
    ensures TwoResult(M.PermMatrix(p), TwoResult(M.PermMatrix(p), a, n, q0, q1), n, q0, q1) == a
  {
    var r1 := TwoResult(M.PermMatrix(p), a, n, q0, q1);
    var r2 := TwoResult(M.PermMatrix(p), r1, n, q0, q1);
    forall g | 0 <= g < |a|
      ensures r2[g] == a[g]
    {
      TwoPermutes(p, r1, n, q0, q1, g);
      var lg := Local2(g, q0, q1);
      var h := Member2(g, q0, q1, p[lg]);
      TwoPermutes(p, a, n, q0, q1, h);
      Local2Member2(g, q0, q1, p[lg]);
      Member2Member2(g, q0, q1, p[lg], lg);
      Member2Self(g, q0, q1);
    }
  }

  /** CNOT(c, t) flips bit t of a basis state exactly when bit c is set: the first argument controls. */
  lemma CnotFlipsTarget(n: nat, c: nat, t: nat, k: nat)
    requires c != t && c < n && t < n && k < Pow2(n)
    ensures With(k, t, 1 - Bit(k, t)) < Pow2(n)
    ensures TwoResult(M.CNOT, M.Basis(Pow2(n), k), n, c, t)
      == M.Basis(Pow2(n), if Bit(k, c) == 1 then With(k, t, 1 - Bit(k, t)) else k)
  {
    M.CnotIsPerm();
    var p: seq<nat> := [0, 1, 3, 2];
    assert M.IsInvolution(p);
    TwoPermutesBasis(p, n, c, t, k);
    WithBound(k, t, 1 - Bit(k, t), n);
    CnotIndex(c, t, k);
  }

  lemma CnotIndex(c: nat, t: nat, k: nat)
    requires c != t
    ensures Member2(k, c, t, [0, 1, 3, 2][Local2(k, c, t)]) == if Bit(k, c) == 1 then With(k, t, 1 - Bit(k, t)) else k
  {
    var b0, b1 := Bit(k, c), Bit(k, t);
    var l := [0, 1, 3, 2][2 * b0 + b1];
    assert l == if b0 == 1 then 2 + (1 - b1) else 2 * b0 + b1;
    Member2Bits(k, c, t, if b0 == 1 then 1 else b0, if b0 == 1 then 1 - b1 else b1);
    WithSame(k, c);
    WithSame(k, t);
  }

  /** SWAP(q0, q1) exchanges bits q0 and q1 of a basis state. */
  lemma SwapExchangesBits(n: nat, q0: nat, q1: nat, k: nat)
    requires q0 != q1 && q0 < n && q1 < n && k < Pow2(n)
    ensures With(With(k, q0, Bit(k, q1)), q1, Bit(k, q0)) < Pow2(n)
    ensures TwoResult(M.SWAP, M.Basis(Pow2(n), k), n, q0, q1)
      == M.Basis(Pow2(n), With(With(k, q0, Bit(k, q1)), q1, Bit(k, q0)))
  {
    M.SwapIsPerm();
    var p: seq<nat> := [0, 2, 1, 3];
    assert M.IsInvolution(p);
    TwoPermutesBasis(p, n, q0, q1, k);
    SwapIndex(q0, q1, k);
  }

  lemma SwapIndex(q0: nat, q1: nat, k: nat)
    ensures Member2(k, q0, q1, [0, 2, 1, 3][Local2(k, q0, q1)]) == With(With(k, q0, Bit(k, q1)), q1, Bit(k, q0))
  {
    var b0, b1 := Bit(k, q0), Bit(k, q1);
    assert [0, 2, 1, 3][2 * b0 + b1] == 2 * b1 + b0;
    Member2Bits(k, q0, q1, b1, b0);
  }

  /**
   * The io CNOT literal as written, applied as cx(q0, q1), flips bit q0 when
   * bit q1 is set: the SECOND argument controls.
   */
  lemma IoCnotAsWrittenFlipsFirst(n: nat, q0: nat, q1: nat, k: nat)
    requires q0 != q1 && q0 < n && q1 < n && k < Pow2(n)
    ensures With(k, q0, 1 - Bit(k, q0)) < Pow2(n)
    ensures TwoResult(G.IoCnotAsWritten, M.Basis(Pow2(n), k), n, q0, q1)
      == M.Basis(Pow2(n), if Bit(k, q1) == 1 then With(k, q0, 1 - Bit(k, q0)) else k)
  {
    G.IoLiteralsArePermutations();
    var p: seq<nat> := [0, 3, 2, 1];
    assert M.IsInvolution(p);
    TwoPermutesBasis(p, n, q0, q1, k);
    WithBound(k, q0, 1 - Bit(k, q0), n);
    IoCnotIndex(q0, q1, k);
  }

  lemma IoCnotIndex(q0: nat, q1: nat, k: nat)
    requires q0 != q1
    ensures Member2(k, q0, q1, [0, 3, 2, 1][Local2(k, q0, q1)])
      == if Bit(k, q1) == 1 then With(k, q0, 1 - Bit(k, q0)) else k
  {
    var b0, b1 := Bit(k, q0), Bit(k, q1);
    assert [0, 3, 2, 1][2 * b0 + b1] == if b1 == 1 then 2 * (1 - b0) + 1 else 2 * b0 + b1;
    Member2Bits(k, q0, q1, if b1 == 1 then 1 - b0 else b0, b1);
    WithSame(k, q0);
    WithSame(k, q1);
    BitWith(k, q0, 1 - b0, q1);
    WithSame(With(k, q0, 1 - b0), q1);
  }

  // ---------------------------------------------------------------- three qubits

  /** A three-qubit permutation gate reads each amplitude from member p[local] of its group. */
  lemma ThreePermutes(p: seq<nat>, a: seq<Complex>, n: nat, q0: nat, q1: nat, q2: nat, g: nat)
    requires |p| == 8 && M.IsInvolution(p) && |a| == Pow2(n) && q0 < n && q1 < n && q2 < n && g < |a|
    ensures Member3(g, q0, q1, q2, p[Local3(g, q0, q1, q2)]) < |a|
    ensures ThreeResult(M.PermMatrix(p), a, n, q0, q1, q2)[g] == a[Member3(g, q0, q1, q2, p[Local3(g, q0, q1, q2)])]
  {
    Member3Bound(g, q0, q1, q2, p[Local3(g, q0, q1, q2)], n);
    PermRowPicks(p, Group3(a, n, q0, q1, q2, g), Local3(g, q0, q1, q2));
  }

  /** On |k⟩ a three-qubit involution gives |member p[local k] of k's group⟩. */
  lemma ThreePermutesBasis(p: seq<nat>, n: nat, q0: nat, q1: nat, q2: nat, k: nat)
    requires |p| == 8 && M.IsInvolution(p) && q0 != q1 && q0 != q2 && q1 != q2
    requires q0 < n && q1 < n && q2 < n && k < Pow2(n)
    ensures Member3(k, q0, q1, q2, p[Local3(k, q0, q1, q2)]) < Pow2(n)
    ensures ThreeResult(M.PermMatrix(p), M.Basis(Pow2(n), k), n, q0, q1, q2)
      == M.Basis(Pow2(n), Member3(k, q0, q1, q2, p[Local3(k, q0, q1, q2)]))
  {
    var d := Pow2(n);
    var target := Member3(k, q0, q1, q2, p[Local3(k, q0, q1, q2)]);
    Member3Bound(k, q0, q1, q2, p[Local3(k, q0, q1, q2)], n);
    var r := ThreeResult(M.PermMatrix(p), M.Basis(d, k), n, q0, q1, q2);
    forall g | 0 <= g < d
      ensures r[g] == M.Basis(d, target)[g]
    {
      ThreePermutes(p, M.Basis(d, k), n, q0, q1, q2, g);
      var lg, lk := Local3(g, q0, q1, q2), Local3(k, q0, q1, q2);
      Local3Member3(g, q0, q1, q2, p[lg]);
      Local3Member3(k, q0, q1, q2, p[lk]);
      Member3Member3(g, q0, q1, q2, p[lg], lg);
      Member3Member3(k, q0, q1, q2, p[lk], lk);
      Member3Self(g, q0, q1, q2);
      Member3Self(k, q0, q1, q2);
    }
  }

  /** A three-qubit involution applied twice to the same qubits restores every state. */
  lemma ThreeTwiceRestores(p: seq<nat>, a: seq<Complex>, n: nat, q0: nat, q1: nat, q2: nat)
    requires |p| == 8 && M.IsInvolution(p) && |a| == Pow2(n)
    requires q0 != q1 && q0 != q2 && q1 != q2 && q0 < n && q1 < n && q2 < n
    ensures ThreeResult(M.PermMatrix(p), ThreeResult(M.PermMatrix(p), a, n, q0, q1, q2), n, q0, q1, q2) == a
  {
    var r1 := ThreeResult(M.PermMatrix(p), a, n, q0, q1, q2);
    var r2 := ThreeResult(M.PermMatrix(p), r1, n, q0, q1, q2);
    forall g | 0 <= g < |a|
      ensures r2[g] == a[g]
    {
      ThreePermutes(p, r1, n, q0, q1, q2, g);
      var lg := Local3(g, q0, q1, q2);
      var h := Member3(g, q0, q1, q2, p[lg]);
      ThreePermutes(p, a, n, q0, q1, q2, h);
      Local3Member3(g, q0, q1, q2, p[lg]);
      Member3Member3(g, q0, q1, q2, p[lg], lg);
      Member3Self(g, q0, q1, q2);
    }
  }

  /** CCX(c1, c2, t) flips bit t of a basis state exactly when bits c1 and c2 are both set. */
  lemma CcxFlipsTarget(n: nat, c1: nat, c2: nat, t: nat, k: nat)
    requires c1 != c2 && c1 != t && c2 != t && c1 < n && c2 < n && t < n && k < Pow2(n)
    ensures With(k, t, 1 - Bit(k, t)) < Pow2(n)
    ensures ThreeResult(M.CCX, M.Basis(Pow2(n), k), n, c1, c2, t)
      == M.Basis(Pow2(n), if Bit(k, c1) == 1 && Bit(k, c2) == 1 then With(k, t, 1 - Bit(k, t)) else k)
  {
    M.CcxIsPerm();
    var p: seq<nat> := [0, 1, 2, 3, 4, 5, 7, 6];
    assert M.IsInvolution(p);
    ThreePermutesBasis(p, n, c1, c2, t, k);
    WithBound(k, t, 1 - Bit(k, t), n);
    CcxIndex(c1, c2, t, k);
  }

  lemma CcxIndex(c1: nat, c2: nat, t: nat, k: nat)
    requires c1 != c2 && c1 != t && c2 != t
    ensures Member3(k, c1, c2, t, [0, 1, 2, 3, 4, 5, 7, 6][Local3(k, c1, c2, t)])
      == if Bit(k, c1) == 1 && Bit(k, c2) == 1 then With(k, t, 1 - Bit(k, t)) else k
  {
    var b0, b1, b2 := Bit(k, c1), Bit(k, c2), Bit(k, t);
    var both := b0 == 1 && b1 == 1;
    assert [0, 1, 2, 3, 4, 5, 7, 6][4 * b0 + 2 * b1 + b2] == 4 * b0 + 2 * b1 + (if both then 1 - b2 else b2);
    Member3Bits(k, c1, c2, t, b0, b1, if both then 1 - b2 else b2);
    WithSame(k, c1);
    WithSame(k, c2);
    WithSame(k, t);
  }

  /**
   * The io CCX literal as written, applied as ccx(q0, q1, q2), flips bit q0
   * when bits q1 and q2 are set: the FIRST argument is the target.
   */
  lemma IoCcxAsWrittenFlipsFirst(n: nat, q0: nat, q1: nat, q2: nat, k: nat)
    requires q0 != q1 && q0 != q2 && q1 != q2 && q0 < n && q1 < n && q2 < n && k < Pow2(n)
    ensures With(k, q0, 1 - Bit(k, q0)) < Pow2(n)
    ensures ThreeResult(G.IoCcxAsWritten, M.Basis(Pow2(n), k), n, q0, q1, q2)
      == M.Basis(Pow2(n), if Bit(k, q1) == 1 && Bit(k, q2) == 1 then With(k, q0, 1 - Bit(k, q0)) else k)
  {
    G.IoLiteralsArePermutations();
    var p: seq<nat> := [0, 1, 2, 7, 4, 5, 6, 3];
    assert M.IsInvolution(p);
    ThreePermutesBasis(p, n, q0, q1, q2, k);
    WithBound(k, q0, 1 - Bit(k, q0), n);
    IoCcxIndex(q0, q1, q2, k);
  }

  lemma IoCcxIndex(q0: nat, q1: nat, q2: nat, k: nat)
    requires q0 != q1 && q0 != q2 && q1 != q2
    ensures Member3(k, q0, q1, q2, [0, 1, 2, 7, 4, 5, 6, 3][Local3(k, q0, q1, q2)])
      == if Bit(k, q1) == 1 && Bit(k, q2) == 1 then With(k, q0, 1 - Bit(k, q0)) else k
  {
    var b0, b1, b2 := Bit(k, q0), Bit(k, q1), Bit(k, q2);
    var both := b1 == 1 && b2 == 1;
    var x0 := if both then 1 - b0 else b0;
    assert [0, 1, 2, 7, 4, 5, 6, 3][4 * b0 + 2 * b1 + b2] == 4 * x0 + 2 * b1 + b2;
    Member3Bits(k, q0, q1, q2, x0, b1, b2);
    var x := With(k, q0, x0);
    WithSame(k, q0);
    BitWith(k, q0, x0, q1);
    BitWith(k, q0, x0, q2);
    WithSame(x, q1);
    WithSame(x, q2);
  }
}
