/**
 * The constant gate matrices of GateMatrices and the rotation builders, as
 * data, plus the matrix algebra needed to state what they do: the row-by-vector
 * sum that the simulator evaluates, matrix products, and (phased) permutation
 * matrices.
 */
module GateMatrices {
  import opened ComplexNumbers
  import opened RealMath

  /** A square complex matrix, stored row by row. */
  type Matrix = seq<seq<Complex>>

  /** The helper `c(r)`: a real number as a complex one. */
  function C(r: real): Complex
  {
    Complex(r, 0.0)
  }

  /** The helper `ci(i)`: a purely imaginary number. */
  function Ci(i: real): Complex
  {
    Complex(0.0, i)
  }

  predicate IsSquare(m: Matrix, n: nat)
  {
    |m| == n && forall i :: 0 <= i < n ==> |m[i]| == n
  }

  // ---------------------------------------------------------------- constants

  const X: Matrix := [[C(0.0), C(1.0)], [C(1.0), C(0.0)]]
  const Y: Matrix := [[C(0.0), Ci(-1.0)], [Ci(1.0), C(0.0)]]
  const Z: Matrix := [[C(1.0), C(0.0)], [C(0.0), C(-1.0)]]
  const S: Matrix := [[C(1.0), C(0.0)], [C(0.0), Ci(1.0)]]

  /** H, with every entry ±INV_SQRT2. */
  function H(num: Numerics): Matrix
  {
    var h := num.invSqrt(2.0);
    [[C(h), C(h)], [C(h), C(-h)]]
  }

  /** T = diag(1, e^{iπ/4}). */
  function T(num: Numerics): Matrix
  {
    [[C(1.0), C(0.0)], [C(0.0), Complex(num.cos(PI / 4.0), num.sin(PI / 4.0))]]
  }

  /** RX(θ) with ct = cos(θ/2) and st = sin(θ/2); symmetric with equal diagonal entries. */
  function RX(num: Numerics, theta: real): (r: Matrix)
    ensures IsSquare(r, 2) && r[0][1] == r[1][0] && r[0][0] == r[1][1]
    ensures r[0][0].im == 0.0 && r[0][1].re == 0.0
  {
    var ct := num.cos(theta / 2.0);
    var st := num.sin(theta / 2.0);
    [[C(ct), Ci(-st)], [Ci(-st), C(ct)]]
  }

  /** RY(θ): a real rotation matrix, the lower-left entry the negated upper-right one. */
  function RY(num: Numerics, theta: real): (r: Matrix)
    ensures IsSquare(r, 2) && r[0][0] == r[1][1] && Sub(Zero, r[0][1]) == r[1][0]
    ensures forall i, j :: 0 <= i < 2 && 0 <= j < 2 ==> r[i][j].im == 0.0
  {
    var ct := num.cos(theta / 2.0);
    var st := num.sin(theta / 2.0);
    [[C(ct), C(-st)], [C(st), C(ct)]]
  }

  /** RZ(θ) = diag(ct − i·st, ct + i·st): diagonal, its two entries conjugate. */
  function RZ(num: Numerics, theta: real): (r: Matrix)
    ensures IsDiagonal(r, 2) && r[1][1] == Conjugate(r[0][0])
  {
    var ct := num.cos(theta / 2.0);
    var st := num.sin(theta / 2.0);
    [[Complex(ct, -st), C(0.0)], [C(0.0), Complex(ct, st)]]
  }

  /** CNOT, in the local order |q0 q1⟩ = 00, 01, 10, 11 with q0 the control. */
  const CNOT: Matrix :=
    [[C(1.0), C(0.0), C(0.0), C(0.0)],
     [C(0.0), C(1.0), C(0.0), C(0.0)],
     [C(0.0), C(0.0), C(0.0), C(1.0)],
     [C(0.0), C(0.0), C(1.0), C(0.0)]]

  const CZ: Matrix :=
    [[C(1.0), C(0.0), C(0.0), C(0.0)],
     [C(0.0), C(1.0), C(0.0), C(0.0)],
     [C(0.0), C(0.0), C(1.0), C(0.0)],
     [C(0.0), C(0.0), C(0.0), C(-1.0)]]

  const SWAP: Matrix :=
    [[C(1.0), C(0.0), C(0.0), C(0.0)],
     [C(0.0), C(0.0), C(1.0), C(0.0)],
     [C(0.0), C(1.0), C(0.0), C(0.0)],
     [C(0.0), C(0.0), C(0.0), C(1.0)]]

  const ISWAP: Matrix :=
    [[C(1.0), C(0.0), C(0.0), C(0.0)],
     [C(0.0), C(0.0), Ci(1.0), C(0.0)],
     [C(0.0), Ci(1.0), C(0.0), C(0.0)],
     [C(0.0), C(0.0), C(0.0), C(1.0)]]

  /** Controlled-H: the identity on local 0 and 1, H on local 2 and 3. */
  function CH(num: Numerics): Matrix
  {
    var h := num.invSqrt(2.0);
    [[C(1.0), C(0.0), C(0.0), C(0.0)],
     [C(0.0), C(1.0), C(0.0), C(0.0)],
     [C(0.0), C(0.0), C(h), C(h)],
     [C(0.0), C(0.0), C(h), C(-h)]]
  }

  /** Toffoli, in the local order |q0 q1 q2⟩ = 000 … 111. */
  const CCX: Matrix :=
    [[C(1.0), C(0.0), C(0.0), C(0.0), C(0.0), C(0.0), C(0.0), C(0.0)],
     [C(0.0), C(1.0), C(0.0), C(0.0), C(0.0), C(0.0), C(0.0), C(0.0)],
     [C(0.0), C(0.0), C(1.0), C(0.0), C(0.0), C(0.0), C(0.0), C(0.0)],
     [C(0.0), C(0.0), C(0.0), C(1.0), C(0.0), C(0.0), C(0.0), C(0.0)],
     [C(0.0), C(0.0), C(0.0), C(0.0), C(1.0), C(0.0), C(0.0), C(0.0)],
     [C(0.0), C(0.0), C(0.0), C(0.0), C(0.0), C(1.0), C(0.0), C(0.0)],
     [C(0.0), C(0.0), C(0.0), C(0.0), C(0.0), C(0.0), C(0.0), C(1.0)],
     [C(0.0), C(0.0), C(0.0), C(0.0), C(0.0), C(0.0), C(1.0), C(0.0)]]

  // ---------------------------------------------------------------- algebra

  /** Σ row[c]·v[c], accumulated left to right from ZERO as the simulator does. */
  function Dot(row: seq<Complex>, v: seq<Complex>): Complex
    requires |row| == |v|
    decreases |row|
  {
    if |row| == 0 then Zero
    else Add(Dot(row[..|row| - 1], v[..|v| - 1]), Mul(row[|row| - 1], v[|v| - 1]))
  }

  function MatVec(m: Matrix, v: seq<Complex>): (r: seq<Complex>)
    requires forall i :: 0 <= i < |m| ==> |m[i]| == |v|
    ensures |r| == |m|
  {
    seq(|m|, i requires 0 <= i < |m| => Dot(m[i], v))
  }

  function Column(m: Matrix, j: nat): seq<Complex>
    requires forall i :: 0 <= i < |m| ==> j < |m[i]|
  {
    seq(|m|, i requires 0 <= i < |m| => m[i][j])
  }

  function MatMul(a: Matrix, b: Matrix, n: nat): (r: Matrix)
    requires IsSquare(a, n) && IsSquare(b, n)
    ensures IsSquare(r, n)
  {
    seq(n, i requires 0 <= i < n => seq(n, j requires 0 <= j < n => Dot(a[i], Column(b, j))))
  }

  function Identity(n: nat): Matrix
  {
    seq(n, i => seq(n, j => if i == j then One else Zero))
  }

  /** The local basis vector |k⟩ of dimension n, scaled by a. */
  function ScaledBasis(n: nat, k: nat, a: Complex): seq<Complex>
  {
    seq(n, i => if i == k then a else Zero)
  }

  function Basis(n: nat, k: nat): seq<Complex>
  {
    ScaledBasis(n, k, One)
  }

  predicate IsDiagonal(m: Matrix, n: nat)
  {
    IsSquare(m, n) && forall i, j :: 0 <= i < n && 0 <= j < n && i != j ==> m[i][j] == Zero
  }

  /** A 0/1 matrix with exactly one 1 in each row and in each column. */
  predicate IsPermutationMatrix(m: Matrix, n: nat)
  {
    IsSquare(m, n)
    && (forall i, j :: 0 <= i < n && 0 <= j < n ==> m[i][j] == Zero || m[i][j] == One)
    && (forall i :: 0 <= i < n ==> RowHasOne(m, n, i))
    && (forall j :: 0 <= j < n ==> ColumnHasOne(m, n, j))
    && (forall i, j, k :: 0 <= i < n && 0 <= j < n && 0 <= k < n && m[i][j] == One && m[i][k] == One ==> j == k)
    && (forall i, j, k :: 0 <= i < n && 0 <= j < n && 0 <= k < n && m[i][k] == One && m[j][k] == One ==> i == j)
  }

  predicate RowHasOne(m: Matrix, n: nat, i: nat)
    requires IsSquare(m, n) && i < n
  {
    exists j :: 0 <= j < n && m[i][j] == One
  }

  predicate ColumnHasOne(m: Matrix, n: nat, j: nat)
    requires IsSquare(m, n) && j < n
  {
    exists i :: 0 <= i < n && m[i][j] == One
  }

  /** p is a permutation of 0..|p|-1 that is its own inverse. */
  predicate IsInvolution(p: seq<nat>)
  {
    forall i :: 0 <= i < |p| ==> p[i] < |p| && p[p[i]] == i
  }

  /** Row i holds ph[i] in column p[i] and ZERO elsewhere. */
  function PhasedPerm(p: seq<nat>, ph: seq<Complex>): (r: Matrix)
    requires |ph| == |p|
    ensures IsSquare(r, |p|)
  {
    seq(|p|, i requires 0 <= i < |p| => seq(|p|, j => if p[i] == j then ph[i] else Zero))
  }

  function Ones(n: nat): (r: seq<Complex>)
    ensures |r| == n && forall i :: 0 <= i < n ==> r[i] == One
  {
    seq(n, i => One)
  }

  function PermMatrix(p: seq<nat>): Matrix
  {
    PhasedPerm(p, Ones(|p|))
  }

  // ---------------------------------------------------------------- general lemmas

  /** A row that is ZERO except for a at column t contributes a·v[t]. */
  lemma {:induction false} DotSparse(row: seq<Complex>, v: seq<Complex>, t: nat, a: Complex)
    requires |row| == |v|
    requires forall j :: 0 <= j < |row| ==> row[j] == if j == t then a else Zero
    ensures Dot(row, v) == if t < |row| then Mul(a, v[t]) else Zero
    decreases |row|
  {
    if |row| > 0 {
      var k := |row| - 1;
      var pre, vp := row[..k], v[..k];
      assert forall j :: 0 <= j < |pre| ==> pre[j] == row[j];
      DotSparse(pre, vp, t, a);
      var d := Dot(pre, vp);
      assert Dot(row, v) == Add(d, Mul(row[k], v[k]));
      if t == k {
        ZeroLaws(Mul(a, v[k]));
      } else {
        ZeroLaws(v[k]);
        ZeroLaws(d);
        if t < k {
          assert vp[t] == v[t];
        }
      }
    }
  }

  /** A phased permutation matrix sends v to (ph[i]·v[p[i]])_i. */
  lemma PhasedPermMatVec(p: seq<nat>, ph: seq<Complex>, v: seq<Complex>)
    requires |ph| == |p| == |v| && IsInvolution(p)
    ensures forall i :: 0 <= i < |p| ==> MatVec(PhasedPerm(p, ph), v)[i] == Mul(ph[i], v[p[i]])
  {
    var m := PhasedPerm(p, ph);
    forall i | 0 <= i < |p|
      ensures MatVec(m, v)[i] == Mul(ph[i], v[p[i]])
    {
      DotSparse(m[i], v, p[i], ph[i]);
    }
  }

  /** A phased permutation by an involution sends |k⟩ to ph[p[k]]·|p[k]⟩. */
  lemma PhasedPermBasis(p: seq<nat>, ph: seq<Complex>, k: nat)
    requires |ph| == |p| && IsInvolution(p) && k < |p|
    ensures MatVec(PhasedPerm(p, ph), Basis(|p|, k)) == ScaledBasis(|p|, p[k], ph[p[k]])
  {
    var v := Basis(|p|, k);
    PhasedPermMatVec(p, ph, v);
    forall i | 0 <= i < |p|
      ensures MatVec(PhasedPerm(p, ph), v)[i] == ScaledBasis(|p|, p[k], ph[p[k]])[i]
    {
      MulOneIdentity(ph[i]);
      ZeroLaws(ph[i]);
      assert p[i] == k <==> i == p[k];
    }
  }

  /** A phased involution squares to the identity when ph[i]·ph[p[i]] = 1 for every i. */
  lemma PhasedPermSquare(p: seq<nat>, ph: seq<Complex>)
    requires |ph| == |p| && IsInvolution(p)
    requires forall i :: 0 <= i < |p| ==> Mul(ph[i], ph[p[i]]) == One
    ensures MatMul(PhasedPerm(p, ph), PhasedPerm(p, ph), |p|) == Identity(|p|)
  {
    var n := |p|;
    var m := PhasedPerm(p, ph);
    var r := MatMul(m, m, n);
    forall i, j | 0 <= i < n && 0 <= j < n
      ensures r[i][j] == Identity(n)[i][j]
    {
      var col := Column(m, j);
      DotSparse(m[i], col, p[i], ph[i]);
      ZeroLaws(ph[i]);
      assert col[p[i]] == if p[p[i]] == j then ph[p[i]] else Zero;
    }
    forall i | 0 <= i < n
      ensures r[i] == Identity(n)[i]
    {
    }
  }

  /** A permutation matrix built from an involution is a 0/1 matrix with one 1 per row and column. */
  lemma InvolutionPermutationMatrix(p: seq<nat>)
    requires IsInvolution(p)
    ensures IsPermutationMatrix(PermMatrix(p), |p|)
  {
    var n := |p|;
    var m := PermMatrix(p);
    forall i | 0 <= i < n
      ensures RowHasOne(m, n, i)
    {
      assert m[i][p[i]] == One;
    }
    forall j | 0 <= j < n
      ensures ColumnHasOne(m, n, j)
    {
      assert m[p[j]][j] == One;
    }
    forall i, j | 0 <= i < n && 0 <= j < n
      ensures m[i][j] == One <==> p[i] == j
    {
    }
    forall i, j, k | 0 <= i < n && 0 <= j < n && 0 <= k < n && m[i][k] == One && m[j][k] == One
      ensures i == j
    {
      assert p[i] == k && p[j] == k;
      assert i == p[p[i]] && j == p[p[j]];
    }
  }

  // ---------------------------------------------------------------- the constants

  /** Every constant and built matrix has the shape its gate class checks for. */
  lemma MatrixShapes(num: Numerics, theta: real)
    ensures IsSquare(X, 2) && IsSquare(Y, 2) && IsSquare(Z, 2) && IsSquare(H(num), 2)
    ensures IsSquare(S, 2) && IsSquare(T(num), 2)
    ensures IsSquare(RX(num, theta), 2) && IsSquare(RY(num, theta), 2) && IsSquare(RZ(num, theta), 2)
    ensures IsSquare(CNOT, 4) && IsSquare(CZ, 4) && IsSquare(SWAP, 4) && IsSquare(ISWAP, 4)
    ensures IsSquare(CH(num), 4) && IsSquare(CCX, 8)
  {
  }

  /** X, CNOT, SWAP and CCX are the permutation matrices of involutions. */
  lemma XIsPerm()
    ensures X == PermMatrix([1, 0])
  {
    var px := PermMatrix([1, 0]);
    forall i | 0 <= i < 2 ensures X[i] == px[i] { }
  }

  lemma CnotIsPerm()
    ensures CNOT == PermMatrix([0, 1, 3, 2])
  {
    var pc := PermMatrix([0, 1, 3, 2]);
    forall i | 0 <= i < 4 ensures CNOT[i] == pc[i] { }
  }

  lemma SwapIsPerm()
    ensures SWAP == PermMatrix([0, 2, 1, 3])
  {
    var ps := PermMatrix([0, 2, 1, 3]);
    forall i | 0 <= i < 4 ensures SWAP[i] == ps[i] { }
  }

  lemma CcxIsPerm()
    ensures CCX == PermMatrix([0, 1, 2, 3, 4, 5, 7, 6])
  {
    var pt := PermMatrix([0, 1, 2, 3, 4, 5, 7, 6]);
    forall i | 0 <= i < 8 ensures CCX[i] == pt[i] { }
  }

  /** X, CNOT, SWAP and CCX have exactly one 1 per row and per column, and 0 elsewhere. */
  lemma PermutationGatesArePermutationMatrices()
    ensures IsPermutationMatrix(X, 2) && IsPermutationMatrix(CNOT, 4)
    ensures IsPermutationMatrix(SWAP, 4) && IsPermutationMatrix(CCX, 8)
  {
    XIsPerm();
    CnotIsPerm();
    SwapIsPerm();
    CcxIsPerm();
    InvolutionPermutationMatrix([1, 0]);
    InvolutionPermutationMatrix([0, 1, 3, 2]);
    InvolutionPermutationMatrix([0, 2, 1, 3]);
    InvolutionPermutationMatrix([0, 1, 2, 3, 4, 5, 7, 6]);
  }

  /** CNOT fixes local |00⟩ and |01⟩ and exchanges |10⟩ and |11⟩: the first argument controls. */
  lemma CnotOnBasis(k: nat)
    requires k < 4
    ensures MatVec(CNOT, Basis(4, k)) == Basis(4, [0, 1, 3, 2][k])
  {
    CnotIsPerm();
    PhasedPermBasis([0, 1, 3, 2], Ones(4), k);
  }

  /** SWAP exchanges local |01⟩ and |10⟩ and fixes |00⟩ and |11⟩. */
  lemma SwapOnBasis(k: nat)
    requires k < 4
    ensures MatVec(SWAP, Basis(4, k)) == Basis(4, [0, 2, 1, 3][k])
  {
    SwapIsPerm();
    PhasedPermBasis([0, 2, 1, 3], Ones(4), k);
  }

  /** CCX is the identity except that it exchanges local |110⟩ and |111⟩: the third argument is the target. */
  lemma CcxOnBasis(k: nat)
    requires k < 8
    ensures MatVec(CCX, Basis(8, k)) == Basis(8, [0, 1, 2, 3, 4, 5, 7, 6][k])
  {
    CcxIsPerm();
    PhasedPermBasis([0, 1, 2, 3, 4, 5, 7, 6], Ones(8), k);
  }

  /** Y, Z, CZ and ISWAP are phased permutation matrices. */
  lemma PhasedConstants()
    ensures Y == PhasedPerm([1, 0], [Ci(-1.0), Ci(1.0)])
    ensures Z == PhasedPerm([0, 1], [One, C(-1.0)])
    ensures CZ == PhasedPerm([0, 1, 2, 3], [One, One, One, C(-1.0)])
    ensures ISWAP == PhasedPerm([0, 2, 1, 3], [One, I, I, One])
  {
    var py := PhasedPerm([1, 0], [Ci(-1.0), Ci(1.0)]);
    forall i | 0 <= i < 2 ensures Y[i] == py[i] { }
    var pz := PhasedPerm([0, 1], [One, C(-1.0)]);
    forall i | 0 <= i < 2 ensures Z[i] == pz[i] { }
    var pcz := PhasedPerm([0, 1, 2, 3], [One, One, One, C(-1.0)]);
    forall i | 0 <= i < 4 ensures CZ[i] == pcz[i] { }
    var pis := PhasedPerm([0, 2, 1, 3], [One, I, I, One]);
    forall i | 0 <= i < 4 ensures ISWAP[i] == pis[i] { }
  }

  /** ISWAP sends local |01⟩ to i·|10⟩ and |10⟩ to i·|01⟩, and fixes |00⟩ and |11⟩. */
  lemma IswapOnBasis(k: nat)
    requires k < 4
    ensures MatVec(ISWAP, Basis(4, k)) == ScaledBasis(4, [0, 2, 1, 3][k], [One, I, I, One][k])
  {
    PhasedConstants();
    var p: seq<nat> := [0, 2, 1, 3];
    var ph := [One, I, I, One];
    assert IsInvolution(p);
    PhasedPermBasis(p, ph, k);
    assert ph[p[k]] == ph[k] by {
      if k == 0 { } else if k == 1 { } else if k == 2 { } else { }
    }
  }

  /** X, CNOT, SWAP and CCX are their own inverses. */
  lemma SelfInversePermutations()
    ensures MatMul(X, X, 2) == Identity(2)
    ensures MatMul(CNOT, CNOT, 4) == Identity(4)
    ensures MatMul(SWAP, SWAP, 4) == Identity(4)
    ensures MatMul(CCX, CCX, 8) == Identity(8)
  {
    XIsPerm();
    CnotIsPerm();
    SwapIsPerm();
    CcxIsPerm();
    PhasedPermSquare([1, 0], Ones(2));
    PhasedPermSquare([0, 1, 3, 2], Ones(4));
    PhasedPermSquare([0, 2, 1, 3], Ones(4));
    PhasedPermSquare([0, 1, 2, 3, 4, 5, 7, 6], Ones(8));
  }

  /** Y, Z and CZ are their own inverses. */
  lemma SelfInversePhased()
    ensures MatMul(Y, Y, 2) == Identity(2)
    ensures MatMul(Z, Z, 2) == Identity(2)
    ensures MatMul(CZ, CZ, 4) == Identity(4)
  {
    YSquare();
    ZSquare();
    CzSquare();
  }

  lemma YSquare()
    ensures MatMul(Y, Y, 2) == Identity(2)
  {
    PhasedConstants();
    PhasedPermSquare([1, 0], [Ci(-1.0), Ci(1.0)]);
  }

  lemma ZSquare()
    ensures MatMul(Z, Z, 2) == Identity(2)
  {
    PhasedConstants();
    PhasedPermSquare([0, 1], [One, C(-1.0)]);
  }

  lemma CzSquare()
    ensures MatMul(CZ, CZ, 4) == Identity(4)
  {
    PhasedConstants();
    PhasedPermSquare([0, 1, 2, 3], [One, One, One, C(-1.0)]);
  }

  /** Z, S, T and CZ are diagonal; CZ's diagonal is 1, 1, 1, −1. */
  lemma DiagonalConstants(num: Numerics)
    ensures IsDiagonal(Z, 2) && IsDiagonal(S, 2) && IsDiagonal(T(num), 2) && IsDiagonal(CZ, 4)
    ensures CZ[0][0] == One && CZ[1][1] == One && CZ[2][2] == One && CZ[3][3] == C(-1.0)
  {
  }

  /** The product of two real complex numbers is real. */
  lemma RealProduct(a: real, b: real)
    ensures Mul(C(a), C(b)) == C(a * b)
  {
  }

  lemma NegatedProducts(a: real, b: real)
    ensures a * (-b) == -(a * b) && (-a) * b == -(a * b) && (-a) * (-b) == a * b
  {
  }

  /** Products of ±h with h² = ½ are ±½. */
  lemma HalfSquares(h: real)
    requires h * h == 0.5
    ensures Mul(C(h), C(h)) == C(0.5) && Mul(C(-h), C(-h)) == C(0.5)
    ensures Mul(C(h), C(-h)) == C(-0.5) && Mul(C(-h), C(h)) == C(-0.5)
  {
    RealProduct(h, h);
    RealProduct(h, -h);
    RealProduct(-h, h);
    RealProduct(-h, -h);
    NegatedProducts(h, h);
  }

  /** A two-term row sum, spelled out. */
  lemma Dot2(row: seq<Complex>, v: seq<Complex>)
    requires |row| == |v| == 2
    ensures Dot(row, v) == Add(Mul(row[0], v[0]), Mul(row[1], v[1]))
  {
    assert row[..1][..0] == [] && v[..1][..0] == [];
    assert Dot(row[..1], v[..1]) == Add(Zero, Mul(row[0], v[0]));
    ZeroLaws(Mul(row[0], v[0]));
  }

  /** A four-term row sum, spelled out. */
  lemma Dot4(row: seq<Complex>, v: seq<Complex>)
    requires |row| == |v| == 4
    ensures Dot(row, v) == Add(Add(Add(Mul(row[0], v[0]), Mul(row[1], v[1])), Mul(row[2], v[2])), Mul(row[3], v[3]))
  {
    assert row[..3][..2] == row[..2] && v[..3][..2] == v[..2];
    Dot2(row[..2], v[..2]);
    assert Dot(row[..3], v[..3]) == Add(Dot(row[..2], v[..2]), Mul(row[2], v[2]));
  }

  /** H is its own inverse, given INV_SQRT2² = ½. */
  lemma HadamardSelfInverse(num: Numerics)
    requires ExactInvSqrt2(num)
    ensures MatMul(H(num), H(num), 2) == Identity(2)
  {
    var h := num.invSqrt(2.0);
    var m := H(num);
    var r := MatMul(m, m, 2);
    HalfSquares(h);
    forall i, j | 0 <= i < 2 && 0 <= j < 2
      ensures r[i][j] == Identity(2)[i][j]
    {
      Dot2(m[i], Column(m, j));
    }
    forall i | 0 <= i < 2 ensures r[i] == Identity(2)[i] { }
  }

  /** One entry of CH·CH. */
  lemma ControlledHadamardEntry(num: Numerics, i: nat, j: nat)
    requires ExactInvSqrt2(num) && i < 4 && j < 4
    ensures Dot(CH(num)[i], Column(CH(num), j)) == Identity(4)[i][j]
  {
    var h := num.invSqrt(2.0);
    var m := CH(num);
    var col := Column(m, j);
    if i < 2 {
      DotSparse(m[i], col, i, One);
      MulOneIdentity(col[i]);
    } else if j < 2 {
      DotSparse(col, m[i], j, One);
      MulOneIdentity(m[i][j]);
      Dot4(m[i], col);
      Dot4(col, m[i]);
      ZeroLaws(m[i][2]);
      ZeroLaws(m[i][3]);
      MulCommutes(m[i][0], col[0]);
      MulCommutes(m[i][1], col[1]);
    } else {
      HalfSquares(h);
      Dot4(m[i], col);
      ZeroLaws(col[0]);
      ZeroLaws(col[1]);
    }
  }

  /** CH is its own inverse, given INV_SQRT2² = ½. */
  lemma ControlledHadamardSelfInverse(num: Numerics)
    requires ExactInvSqrt2(num)
    ensures MatMul(CH(num), CH(num), 4) == Identity(4)
  {
    var r := MatMul(CH(num), CH(num), 4);
    forall i, j | 0 <= i < 4 && 0 <= j < 4
      ensures r[i][j] == Identity(4)[i][j]
    {
      ControlledHadamardEntry(num, i, j);
    }
    forall i | 0 <= i < 4 ensures r[i] == Identity(4)[i] { }
  }
}
