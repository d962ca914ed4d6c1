/**
 * The three gate base classes: their constructor shape checks and their
 * `apply` methods, which rewrite the amplitude array of a state vector in
 * place (one and two qubits) or through a scratch buffer (three qubits).
 * `1 << q` is `Pow2(q)`, `i | (1 << q)` is `With(i, q, 1)` and
 * `(i & (1 << q)) == 0` is `Bit(i, q) == 0`.
 */
module GateKernels {
  import opened Wrappers
  import opened ComplexNumbers
  import opened Bits
  import opened AmplitudeGroups
  import opened StateVectors
  import M = GateMatrices

  /** A `SingleQubitGate`: its 2×2 matrix. */
  datatype SingleQubitGate = SingleQubitGate(matrix: M.Matrix)

  /** A `TwoQubitGate`: its 4×4 matrix in local order |q0 q1⟩. */
  datatype TwoQubitGate = TwoQubitGate(matrix: M.Matrix)

  /** A `ThreeQubitGate`: its 8×8 matrix in local order |q0 q1 q2⟩. */
  datatype ThreeQubitGate = ThreeQubitGate(matrix: M.Matrix)

  // ---------------------------------------------------------------- constructors

  /** The SingleQubitGate constructor: IllegalArgument unless the matrix is 2×2. */
  function NewSingleQubitGate(m: M.Matrix): (r: Result<SingleQubitGate>)
    ensures r.Ok? <==> M.IsSquare(m, 2)
    ensures r.Ok? ==> r.value.matrix == m
    ensures r.Err? ==> r.error == IllegalArgument
  {
    if |m| != 2 || |m[0]| != 2 || |m[1]| != 2 then Err(IllegalArgument) else Ok(SingleQubitGate(m))
  }

  /** The TwoQubitGate constructor's test as written: the row count and the FIRST row's length only. */
  predicate TwoQubitCheckAsWritten(m: M.Matrix)
  {
    !(|m| != 4 || |m[0]| != 4)
  }

  /** The ThreeQubitGate constructor's test as written: the row count and the FIRST row's length only. */
  predicate ThreeQubitCheckAsWritten(m: M.Matrix)
  {
    !(|m| != 8 || |m[0]| != 8)
  }

  /** Four rows, the second of them one entry short. */
  const Ragged4: M.Matrix :=
    [[Zero, Zero, Zero, Zero], [Zero, Zero, Zero], [Zero, Zero, Zero, Zero], [Zero, Zero, Zero, Zero]]

  /** Eight rows of eight, except the last, which is empty. */
  const Ragged8: M.Matrix := seq(7, i => seq(8, j => Zero)) + [[]]

  /**
   * The as-written checks accept matrices that are not square; `apply` then
   * reads `matrix[1][3]`, or `matrix[7][0]`, outside its row.
   */
  lemma ShapeChecksAdmitRaggedRows()
    ensures TwoQubitCheckAsWritten(Ragged4) && !M.IsSquare(Ragged4, 4) && |Ragged4[1]| == 3
    ensures ThreeQubitCheckAsWritten(Ragged8) && !M.IsSquare(Ragged8, 8) && |Ragged8[7]| == 0
  {
    assert |Ragged4[1]| != 4;
    assert Ragged8[7] == [];
    assert |Ragged8[7]| != 8;
  }

  /** The TwoQubitGate constructor as its message intends: IllegalArgument unless every row has 4 entries. */
  function NewTwoQubitGate(m: M.Matrix): (r: Result<TwoQubitGate>)
    ensures r.Ok? <==> M.IsSquare(m, 4)
    ensures r.Ok? ==> r.value.matrix == m && TwoQubitCheckAsWritten(m)
    ensures r.Err? ==> r.error == IllegalArgument
  {
    if |m| != 4 || exists i :: 0 <= i < 4 && |m[i]| != 4 then Err(IllegalArgument) else Ok(TwoQubitGate(m))
  }

  /** The ThreeQubitGate constructor as its message intends: IllegalArgument unless every row has 8 entries. */
  function NewThreeQubitGate(m: M.Matrix): (r: Result<ThreeQubitGate>)
    ensures r.Ok? <==> M.IsSquare(m, 8)
    ensures r.Ok? ==> r.value.matrix == m && ThreeQubitCheckAsWritten(m)
    ensures r.Err? ==> r.error == IllegalArgument
  {
    if |m| != 8 || exists i :: 0 <= i < 8 && |m[i]| != 8 then Err(IllegalArgument) else Ok(ThreeQubitGate(m))
  }

  // ---------------------------------------------------------------- what apply computes

  /** The amplitude pair of g for target t: bit t clear, then set. */
  function Group1(a: seq<Complex>, n: nat, t: nat, g: nat): (v: seq<Complex>)
    requires |a| == Pow2(n) && t < n && g < |a|
    ensures |v| == 2
  {
    WithBound(g, t, 0, n);
    WithBound(g, t, 1, n);
    [a[With(g, t, 0)], a[With(g, t, 1)]]
  }

  /** The state after a single-qubit gate: amplitude g is row (bit t of g) of M times g's pair. */
  function SingleResult(m: M.Matrix, a: seq<Complex>, n: nat, t: nat): (r: seq<Complex>)
    requires M.IsSquare(m, 2) && |a| == Pow2(n) && t < n
    ensures |r| == |a|
  {
    seq(|a|, g requires 0 <= g < |a| => M.Dot(m[Bit(g, t)], Group1(a, n, t, g)))
  }

  /** The four amplitudes of g's group for targets (q0, q1), in local order. */
  function Group2(a: seq<Complex>, n: nat, q0: nat, q1: nat, g: nat): (v: seq<Complex>)
    requires |a| == Pow2(n) && q0 < n && q1 < n && g < |a|
    ensures |v| == 4
  {
    seq(4, c requires 0 <= c < 4 => Member2Bound(g, q0, q1, c, n); a[Member2(g, q0, q1, c)])
  }

  /** The state after a two-qubit gate: amplitude g is row Local2(g) of M times g's group. */
  function TwoResult(m: M.Matrix, a: seq<Complex>, n: nat, q0: nat, q1: nat): (r: seq<Complex>)
    requires M.IsSquare(m, 4) && |a| == Pow2(n) && q0 < n && q1 < n
    ensures |r| == |a|
  {
    seq(|a|, g requires 0 <= g < |a| => M.Dot(m[Local2(g, q0, q1)], Group2(a, n, q0, q1, g)))
  }

  /** The eight amplitudes of g's group for targets (q0, q1, q2), in local order. */
  function Group3(a: seq<Complex>, n: nat, q0: nat, q1: nat, q2: nat, g: nat): (v: seq<Complex>)
    requires |a| == Pow2(n) && q0 < n && q1 < n && q2 < n && g < |a|
    ensures |v| == 8
  {
    seq(8, c requires 0 <= c < 8 => Member3Bound(g, q0, q1, q2, c, n); a[Member3(g, q0, q1, q2, c)])
  }

  /** The state after a three-qubit gate: amplitude g is row Local3(g) of M times g's group. */
  function ThreeResult(m: M.Matrix, a: seq<Complex>, n: nat, q0: nat, q1: nat, q2: nat): (r: seq<Complex>)
    requires M.IsSquare(m, 8) && |a| == Pow2(n) && q0 < n && q1 < n && q2 < n
    ensures |r| == |a|
  {
    seq(|a|, g requires 0 <= g < |a| => M.Dot(m[Local3(g, q0, q1, q2)], Group3(a, n, q0, q1, q2, g)))
  }

  // ---------------------------------------------------------------- one-qubit kernel

  /** Amplitudes whose pair base lies below i hold their new value, the others their old one. */
  ghost predicate SingleDoneBelow(s: seq<Complex>, a: seq<Complex>, r: seq<Complex>, t: nat, i: nat)
    requires |s| == |a| == |r|
  {
    forall g :: 0 <= g < |s| ==> s[g] == if With(g, t, 0) < i then r[g] else a[g]
  }

  /**
   * One pass of the loop at an i whose bit t is clear: i and its partner
   * still hold their old amplitudes, their new ones are the two rows of M
   * times the pair, and writing both moves the frontier past i.
   */
  lemma SingleStep(m: M.Matrix, a: seq<Complex>, n: nat, t: nat, s: seq<Complex>, i: nat)
    requires M.IsSquare(m, 2) && |a| == Pow2(n) && t < n && |s| == |a| && i < |a| && Bit(i, t) == 0
    requires SingleDoneBelow(s, a, SingleResult(m, a, n, t), t, i)
    ensures With(i, t, 1) < |a| && s[i] == a[i] && s[With(i, t, 1)] == a[With(i, t, 1)]
    ensures var j, r := With(i, t, 1), SingleResult(m, a, n, t);
      r[i] == Add(Mul(m[0][0], a[i]), Mul(m[0][1], a[j]))
      && r[j] == Add(Mul(m[1][0], a[i]), Mul(m[1][1], a[j]))
      && SingleDoneBelow(s[i := r[i]][j := r[j]], a, r, t, i + 1)
  {
    var j, r := With(i, t, 1), SingleResult(m, a, n, t);
    WithBound(i, t, 1, n);
    Pair1(i, t, i);
    WithWith(i, t, 1, 1);
    assert Group1(a, n, t, i) == [a[i], a[j]];
    assert Group1(a, n, t, j) == [a[i], a[j]];
    M.Dot2(m[0], Group1(a, n, t, i));
    M.Dot2(m[1], Group1(a, n, t, j));
    var s' := s[i := r[i]][j := r[j]];
    forall g | 0 <= g < |s|
      ensures s'[g] == if With(g, t, 0) < i + 1 then r[g] else a[g]
    {
      Pair1(i, t, g);
    }
  }

  /** At an i whose bit t is set no index has base i, so nothing changes. */
  lemma SingleSkip(s: seq<Complex>, a: seq<Complex>, r: seq<Complex>, t: nat, i: nat)
    requires |s| == |a| == |r| && Bit(i, t) == 1
    requires SingleDoneBelow(s, a, r, t, i)
    ensures SingleDoneBelow(s, a, r, t, i + 1)
  {
    forall g | 0 <= g < |s|
      ensures With(g, t, 0) != i
    {
      BitWith(g, t, 0, t);
    }
  }

  /** Every base is at most its index, so after the last pass every amplitude is new. */
  lemma SingleDone(s: seq<Complex>, a: seq<Complex>, r: seq<Complex>, t: nat)
    requires |s| == |a| == |r|
    requires SingleDoneBelow(s, a, r, t, |a|)
    ensures s == r
  {
    forall g | 0 <= g < |s|
      ensures s[g] == r[g]
    {
      Base1Below(g, t);
    }
  }

  /**
   * `SingleQubitGate.apply(state, target)`: IllegalArgument for a target
   * outside [0, n); otherwise every pair (i, i | mask) with bit t of i clear
   * becomes M times its old values.
   */
  method ApplySingle(gate: SingleQubitGate, state: StateVector, target: int) returns (res: Result<()>)
    requires state.Valid() && M.IsSquare(gate.matrix, 2)
    modifies state.amplitudes
    ensures !(0 <= target < state.numQubits) ==> res == Err(IllegalArgument)
    ensures !(0 <= target < state.numQubits) ==> state.amplitudes[..] == old(state.amplitudes[..])
    ensures 0 <= target < state.numQubits ==> res == Ok(())
    ensures 0 <= target < state.numQubits ==>
      state.amplitudes[..] == SingleResult(gate.matrix, old(state.amplitudes[..]), state.numQubits, target)
  {
    var nQubits := state.GetNumQubits();
    if target < 0 || target >= nQubits {
      return Err(IllegalArgument);
    }
    var amps := state.GetAmplitudes();
    var dim := amps.Length;
    var m := gate.matrix;
    ghost var a := amps[..];
    ghost var r := SingleResult(m, a, nQubits, target);
    var i := 0;
    while i < dim
      invariant 0 <= i <= dim && |amps[..]| == dim
      invariant SingleDoneBelow(amps[..], a, r, target, i)
    {
      if Bit(i, target) == 0 {
        var j := With(i, target, 1);
        SingleStep(m, a, nQubits, target, amps[..], i);
        var a0 := amps[i];
        var a1 := amps[j];
        var new0 := Add(Mul(m[0][0], a0), Mul(m[0][1], a1));
        var new1 := Add(Mul(m[1][0], a0), Mul(m[1][1], a1));
        ghost var s := amps[..];
        amps[i] := new0;
        amps[j] := new1;
        assert amps[..] == s[i := new0][j := new1];
      } else {
        SingleSkip(amps[..], a, r, target, i);
      }
      i := i + 1;
    }
    SingleDone(amps[..], a, r, target);
    res := Ok(());
  }

  // ---------------------------------------------------------------- two-qubit kernel

  /** Row `row` of a 4×4 matrix times (v0, v1, v2, v3), summed left to right as the Java code does. */
  function Combine4(row: seq<Complex>, v0: Complex, v1: Complex, v2: Complex, v3: Complex): Complex
    requires |row| == 4
  {
    Add(Add(Add(Mul(row[0], v0), Mul(row[1], v1)), Mul(row[2], v2)), Mul(row[3], v3))
  }

  /** The four Java indices of the group at a base idx are its members 0..3. */
  lemma BaseGroup2(idx: nat, q0: nat, q1: nat)
    requires q0 != q1 && Bit(idx, q0) == 0 && Bit(idx, q1) == 0
    ensures Member2(idx, q0, q1, 0) == idx
    ensures Member2(idx, q0, q1, 1) == With(idx, q1, 1)
    ensures Member2(idx, q0, q1, 2) == With(idx, q0, 1)
    ensures Member2(idx, q0, q1, 3) == With(With(idx, q0, 1), q1, 1)
  {
    WithSame(idx, q0);
    WithSame(idx, q1);
    BitWith(idx, q0, 1, q1);
    WithSame(With(idx, q0, 1), q1);
  }

  /** An index lies in the group of a base idx exactly when it is one of the four members. */
  lemma InGroup2(g: nat, q0: nat, q1: nat, idx: nat)
    requires q0 != q1 && Bit(idx, q0) == 0 && Bit(idx, q1) == 0
    ensures Base2(g, q0, q1) == idx <==>
      g == Member2(idx, q0, q1, 0) || g == Member2(idx, q0, q1, 1)
      || g == Member2(idx, q0, q1, 2) || g == Member2(idx, q0, q1, 3)
  {
    WithSame(idx, q0);
    WithSame(idx, q1);
    Groups2Partition(g, q0, q1, idx, Local2(g, q0, q1));
    Member2Member2(idx, q0, q1, 1, 0);
    Member2Member2(idx, q0, q1, 2, 0);
    Member2Member2(idx, q0, q1, 3, 0);
  }

  /** Amplitudes whose group base lies below idx hold their new value, the others their old one. */
  ghost predicate TwoDoneBelow(s: seq<Complex>, a: seq<Complex>, r: seq<Complex>, q0: nat, q1: nat, idx: nat)
    requires |s| == |a| == |r|
  {
    forall g :: 0 <= g < |s| ==> s[g] == if Base2(g, q0, q1) < idx then r[g] else a[g]
  }

  /** The new amplitude of member c of a base's group is row c of M times the group. */
  lemma TwoResultAtBase(m: M.Matrix, a: seq<Complex>, n: nat, q0: nat, q1: nat, idx: nat, c: nat)
    requires M.IsSquare(m, 4) && |a| == Pow2(n) && q0 != q1 && q0 < n && q1 < n && idx < |a| && c < 4
    requires Bit(idx, q0) == 0 && Bit(idx, q1) == 0
    ensures Member2(idx, q0, q1, c) < |a|
    ensures var v := Group2(a, n, q0, q1, idx);
      TwoResult(m, a, n, q0, q1)[Member2(idx, q0, q1, c)] == Combine4(m[c], v[0], v[1], v[2], v[3])
  {
    Member2Bound(idx, q0, q1, c, n);
    var g := Member2(idx, q0, q1, c);
    WithSame(idx, q0);
    WithSame(idx, q1);
    Local2Member2(idx, q0, q1, c);
    forall d | 0 <= d < 4
      ensures Group2(a, n, q0, q1, g)[d] == Group2(a, n, q0, q1, idx)[d]
    {
      Member2Member2(idx, q0, q1, c, d);
    }
    assert Group2(a, n, q0, q1, g) == Group2(a, n, q0, q1, idx);
    M.Dot4(m[c], Group2(a, n, q0, q1, idx));
  }

  /** Writing the four members of the group at base idx moves the frontier past idx. */
  lemma TwoAdvance(s: seq<Complex>, a: seq<Complex>, r: seq<Complex>, q0: nat, q1: nat, idx: nat)
    requires |s| == |a| == |r| && q0 != q1 && Bit(idx, q0) == 0 && Bit(idx, q1) == 0
    requires Member2(idx, q0, q1, 0) < |a| && Member2(idx, q0, q1, 1) < |a|
    requires Member2(idx, q0, q1, 2) < |a| && Member2(idx, q0, q1, 3) < |a|
    requires TwoDoneBelow(s, a, r, q0, q1, idx)
    ensures var i00, i01, i10, i11 := Member2(idx, q0, q1, 0), Member2(idx, q0, q1, 1),
                                      Member2(idx, q0, q1, 2), Member2(idx, q0, q1, 3);
      TwoDoneBelow(s[i00 := r[i00]][i01 := r[i01]][i10 := r[i10]][i11 := r[i11]], a, r, q0, q1, idx + 1)
  {
    var i00, i01, i10, i11 := Member2(idx, q0, q1, 0), Member2(idx, q0, q1, 1),
                              Member2(idx, q0, q1, 2), Member2(idx, q0, q1, 3);
    var s' := s[i00 := r[i00]][i01 := r[i01]][i10 := r[i10]][i11 := r[i11]];
    forall g | 0 <= g < |s|
      ensures s'[g] == if Base2(g, q0, q1) < idx + 1 then r[g] else a[g]
    {
      InGroup2(g, q0, q1, idx);
    }
  }

  /**
   * At a base idx the four members of its group still hold their old
   * amplitudes, and their new ones are the rows of M times the group.
   */
  lemma TwoStep(m: M.Matrix, a: seq<Complex>, n: nat, q0: nat, q1: nat, s: seq<Complex>, idx: nat)
    requires M.IsSquare(m, 4) && |a| == Pow2(n) && q0 != q1 && q0 < n && q1 < n && |s| == |a| && idx < |a|
    requires Bit(idx, q0) == 0 && Bit(idx, q1) == 0
    requires TwoDoneBelow(s, a, TwoResult(m, a, n, q0, q1), q0, q1, idx)
    ensures var i00, i01, i10, i11 := Member2(idx, q0, q1, 0), Member2(idx, q0, q1, 1),
                                      Member2(idx, q0, q1, 2), Member2(idx, q0, q1, 3);
      i00 < |a| && i01 < |a| && i10 < |a| && i11 < |a|
      && s[i00] == a[i00] && s[i01] == a[i01] && s[i10] == a[i10] && s[i11] == a[i11]
    ensures var i00, i01, i10, i11 := Member2(idx, q0, q1, 0), Member2(idx, q0, q1, 1),
                                      Member2(idx, q0, q1, 2), Member2(idx, q0, q1, 3);
      var r := TwoResult(m, a, n, q0, q1);
      r[i00] == Combine4(m[0], a[i00], a[i01], a[i10], a[i11])
      && r[i01] == Combine4(m[1], a[i00], a[i01], a[i10], a[i11])
      && r[i10] == Combine4(m[2], a[i00], a[i01], a[i10], a[i11])
      && r[i11] == Combine4(m[3], a[i00], a[i01], a[i10], a[i11])
  {
    TwoResultAtBase(m, a, n, q0, q1, idx, 0);
    TwoResultAtBase(m, a, n, q0, q1, idx, 1);
    TwoResultAtBase(m, a, n, q0, q1, idx, 2);
    TwoResultAtBase(m, a, n, q0, q1, idx, 3);
    InGroup2(Member2(idx, q0, q1, 0), q0, q1, idx);
    InGroup2(Member2(idx, q0, q1, 1), q0, q1, idx);
    InGroup2(Member2(idx, q0, q1, 2), q0, q1, idx);
    InGroup2(Member2(idx, q0, q1, 3), q0, q1, idx);
  }

  /** At an idx with a target bit set no index has base idx, so nothing changes. */
  lemma TwoSkip(s: seq<Complex>, a: seq<Complex>, r: seq<Complex>, q0: nat, q1: nat, idx: nat)
    requires |s| == |a| == |r| && q0 != q1 && (Bit(idx, q0) != 0 || Bit(idx, q1) != 0)
    requires TwoDoneBelow(s, a, r, q0, q1, idx)
    ensures TwoDoneBelow(s, a, r, q0, q1, idx + 1)
  {
    forall g | 0 <= g < |s|
      ensures Base2(g, q0, q1) != idx
    {
      Local2Member2(g, q0, q1, 0);
    }
  }

  lemma TwoDone(s: seq<Complex>, a: seq<Complex>, r: seq<Complex>, q0: nat, q1: nat)
    requires |s| == |a| == |r|
    requires TwoDoneBelow(s, a, r, q0, q1, |a|)
    ensures s == r
  {
    forall g | 0 <= g < |s|
      ensures s[g] == r[g]
    {
      Base2Below(g, q0, q1);
    }
  }

  /** The four members of the group at a base idx lie inside the vector. */
  lemma GroupBounds2(a: seq<Complex>, n: nat, q0: nat, q1: nat, idx: nat)
    requires |a| == Pow2(n) && q0 != q1 && q0 < n && q1 < n && idx < |a|
    requires Bit(idx, q0) == 0 && Bit(idx, q1) == 0
    ensures With(idx, q1, 1) < |a| && With(idx, q0, 1) < |a| && With(With(idx, q0, 1), q1, 1) < |a|
  {
    BaseGroup2(idx, q0, q1);
    Member2Bound(idx, q0, q1, 1, n);
    Member2Bound(idx, q0, q1, 2, n);
    Member2Bound(idx, q0, q1, 3, n);
  }

  /** Updating the group at base idx with the rows of M extends the finished part past idx. */
  lemma TwoGroupDone(m: M.Matrix, a: seq<Complex>, n: nat, q0: nat, q1: nat, s: seq<Complex>, t: seq<Complex>, idx: nat)
    requires M.IsSquare(m, 4) && |a| == Pow2(n) && q0 != q1 && q0 < n && q1 < n && |s| == |a| && idx < |a|
    requires Bit(idx, q0) == 0 && Bit(idx, q1) == 0
    requires TwoDoneBelow(s, a, TwoResult(m, a, n, q0, q1), q0, q1, idx)
    requires With(idx, q1, 1) < |a| && With(idx, q0, 1) < |a| && With(With(idx, q0, 1), q1, 1) < |a|
    requires var i00, i01, i10, i11 := idx, With(idx, q1, 1), With(idx, q0, 1), With(With(idx, q0, 1), q1, 1);
      t == s[i00 := Combine4(m[0], s[i00], s[i01], s[i10], s[i11])]
            [i01 := Combine4(m[1], s[i00], s[i01], s[i10], s[i11])]
            [i10 := Combine4(m[2], s[i00], s[i01], s[i10], s[i11])]
            [i11 := Combine4(m[3], s[i00], s[i01], s[i10], s[i11])]
    ensures |t| == |a| && TwoDoneBelow(t, a, TwoResult(m, a, n, q0, q1), q0, q1, idx + 1)
  {
    var r := TwoResult(m, a, n, q0, q1);
    BaseGroup2(idx, q0, q1);
    TwoStep(m, a, n, q0, q1, s, idx);
    TwoAdvance(s, a, r, q0, q1, idx);
  }

  /** The body of the group loop: the four members become the rows of M times their old values. */
  method UpdateGroup2(amps: array<Complex>, m: M.Matrix, i00: nat, i01: nat, i10: nat, i11: nat)
    requires M.IsSquare(m, 4)
    requires i00 < amps.Length && i01 < amps.Length && i10 < amps.Length && i11 < amps.Length
    modifies amps
    ensures var s := old(amps[..]);
      amps[..] == s[i00 := Combine4(m[0], s[i00], s[i01], s[i10], s[i11])]
                   [i01 := Combine4(m[1], s[i00], s[i01], s[i10], s[i11])]
                   [i10 := Combine4(m[2], s[i00], s[i01], s[i10], s[i11])]
                   [i11 := Combine4(m[3], s[i00], s[i01], s[i10], s[i11])]
  {
    var a00 := amps[i00];
    var a01 := amps[i01];
    var a10 := amps[i10];
    var a11 := amps[i11];
    amps[i00] := Add(Add(Add(Mul(m[0][0], a00), Mul(m[0][1], a01)), Mul(m[0][2], a10)), Mul(m[0][3], a11));
    amps[i01] := Add(Add(Add(Mul(m[1][0], a00), Mul(m[1][1], a01)), Mul(m[1][2], a10)), Mul(m[1][3], a11));
    amps[i10] := Add(Add(Add(Mul(m[2][0], a00), Mul(m[2][1], a01)), Mul(m[2][2], a10)), Mul(m[2][3], a11));
    amps[i11] := Add(Add(Add(Mul(m[3][0], a00), Mul(m[3][1], a01)), Mul(m[3][2], a10)), Mul(m[3][3], a11));
  }

  /**
   * `TwoQubitGate.apply(state, q0, q1)`: IllegalArgument when q0 == q1; an
   * out-of-bounds read, before any write, when a qubit lies outside [0, n);
   * otherwise every group becomes M times its old values, local index
   * (bit q0 << 1) | bit q1.
   */
  method ApplyTwo(gate: TwoQubitGate, state: StateVector, q0: int, q1: int) returns (res: Result<()>)
    requires state.Valid() && M.IsSquare(gate.matrix, 4)
    modifies state.amplitudes
    ensures q0 == q1 ==> res == Err(IllegalArgument)
    ensures q0 != q1 && !(0 <= q0 < state.numQubits && 0 <= q1 < state.numQubits) ==> res == Err(IndexOutOfBounds)
    ensures res.Err? ==> state.amplitudes[..] == old(state.amplitudes[..])
    ensures q0 != q1 && 0 <= q0 < state.numQubits && 0 <= q1 < state.numQubits ==> res == Ok(())
    ensures res.Ok? ==>
      state.amplitudes[..] == TwoResult(gate.matrix, old(state.amplitudes[..]), state.numQubits, q0, q1)
  {
    if q0 == q1 {
      return Err(IllegalArgument);
    }
    var amps := state.GetAmplitudes();
    var dim := amps.Length;
    var n := state.GetNumQubits();
    if q0 < 0 || q0 >= n || q1 < 0 || q1 >= n {
      // idx = 0 is a base, and reading its partner 1 << q already leaves the array
      return Err(IndexOutOfBounds);
    }
    var m := gate.matrix;
    ghost var a := amps[..];
    ghost var r := TwoResult(m, a, n, q0, q1);
    var idx := 0;
    while idx < dim
      invariant 0 <= idx <= dim && |amps[..]| == dim
      invariant TwoDoneBelow(amps[..], a, r, q0, q1, idx)
    {
      if Bit(idx, q0) == 0 && Bit(idx, q1) == 0 {
        var i00 := idx;
        var i01 := With(idx, q1, 1);
        var i10 := With(idx, q0, 1);
        var i11 := With(With(idx, q0, 1), q1, 1);
        GroupBounds2(a, n, q0, q1, idx);
        ghost var s := amps[..];
        UpdateGroup2(amps, m, i00, i01, i10, i11);
        TwoGroupDone(m, a, n, q0, q1, s, amps[..], idx);
      } else {
        TwoSkip(amps[..], a, r, q0, q1, idx);
      }
      idx := idx + 1;
    }
    TwoDone(amps[..], a, r, q0, q1);
    res := Ok(());
  }

  // ---------------------------------------------------------------- three-qubit kernel

  /** The members of the group of g, read from the group's base, are g's group. */
  lemma Group3OfBase(a: seq<Complex>, n: nat, q0: nat, q1: nat, q2: nat, g: nat)
    requires |a| == Pow2(n) && q0 < n && q1 < n && q2 < n && g < |a|
    requires q0 != q1 && q0 != q2 && q1 != q2
    ensures forall c :: 0 <= c < 8 ==>
      (Member3(Base3(g, q0, q1, q2), q0, q1, q2, c) < |a|
       && a[Member3(Base3(g, q0, q1, q2), q0, q1, q2, c)] == Group3(a, n, q0, q1, q2, g)[c])
  {
    forall c | 0 <= c < 8
      ensures Member3(Base3(g, q0, q1, q2), q0, q1, q2, c) < |a|
      ensures a[Member3(Base3(g, q0, q1, q2), q0, q1, q2, c)] == Group3(a, n, q0, q1, q2, g)[c]
    {
      Member3Member3(g, q0, q1, q2, 0, c);
      Member3Bound(g, q0, q1, q2, c, n);
    }
  }

  /** The inner loop of ThreeQubitGate.apply: the sum over c of row[c] · src[base | bits(c)], from zero. */
  method GroupSum(row: seq<Complex>, src: array<Complex>, base: nat, q0: nat, q1: nat, q2: nat, ghost v: seq<Complex>)
    returns (sum: Complex)
    requires |row| == 8 && |v| == 8
    requires forall c :: 0 <= c < 8 ==>
      (Member3(base, q0, q1, q2, c) < src.Length && src[Member3(base, q0, q1, q2, c)] == v[c])
    ensures sum == M.Dot(row, v)
  {
    sum := Zero;
    var c := 0;
    while c < 8
      invariant 0 <= c <= 8
      invariant sum == M.Dot(row[..c], v[..c])
    {
      var c0 := (c / 4) % 2;
      var c1 := (c / 2) % 2;
      var c2 := c % 2;
      var srcIdx := With(With(With(base, q0, c0), q1, c1), q2, c2);
      assert srcIdx == Member3(base, q0, q1, q2, c);
      sum := Add(sum, Mul(row[c], src[srcIdx]));
      assert row[..c + 1][..c] == row[..c] && v[..c + 1][..c] == v[..c];
      c := c + 1;
    }
    assert row[..8] == row && v[..8] == v;
  }

  /** The main loop of ThreeQubitGate.apply: every amplitude of the result, from the untouched source, into dest. */
  method ThreeInto(m: M.Matrix, src: array<Complex>, dest: array<Complex>, n: nat, q0: nat, q1: nat, q2: nat)
    requires M.IsSquare(m, 8) && src.Length == dest.Length == Pow2(n) && src != dest
    requires q0 < n && q1 < n && q2 < n && q0 != q1 && q0 != q2 && q1 != q2
    modifies dest
    ensures dest[..] == ThreeResult(m, src[..], n, q0, q1, q2)
  {
    ghost var a := src[..];
    ghost var r := ThreeResult(m, a, n, q0, q1, q2);
    var dim := src.Length;
    var globalIdx := 0;
    while globalIdx < dim
      invariant 0 <= globalIdx <= dim
      invariant forall g :: 0 <= g < globalIdx ==> dest[g] == r[g]
    {
      var b0 := if Bit(globalIdx, q0) != 0 then 1 else 0;
      var b1 := if Bit(globalIdx, q1) != 0 then 1 else 0;
      var b2 := if Bit(globalIdx, q2) != 0 then 1 else 0;
      var localK := 4 * b0 + 2 * b1 + b2;
      assert localK == Local3(globalIdx, q0, q1, q2);
      var base := With(With(With(globalIdx, q0, 0), q1, 0), q2, 0);
      assert base == Base3(globalIdx, q0, q1, q2);
      Group3OfBase(a, n, q0, q1, q2, globalIdx);
      var sum := GroupSum(m[localK], src, base, q0, q1, q2, Group3(a, n, q0, q1, q2, globalIdx));
      dest[globalIdx] := sum;
      globalIdx := globalIdx + 1;
    }
    assert dest[..] == r;
  }

  /**
   * `ThreeQubitGate.apply(state, q0, q1, q2)`: IllegalArgument unless the
   * three are distinct; an out-of-bounds read, before the state is touched,
   * when one lies outside [0, n); otherwise every amplitude is computed from
   * the OLD array into a zero-filled buffer, local index
   * (b0 << 2) | (b1 << 1) | b2, and the buffer is copied back.
   */
  method ApplyThree(gate: ThreeQubitGate, state: StateVector, q0: int, q1: int, q2: int) returns (res: Result<()>)
    requires state.Valid() && M.IsSquare(gate.matrix, 8)
    modifies state.amplitudes
    ensures (q0 == q1 || q0 == q2 || q1 == q2) ==> res == Err(IllegalArgument)
    ensures q0 != q1 && q0 != q2 && q1 != q2
      && !(0 <= q0 < state.numQubits && 0 <= q1 < state.numQubits && 0 <= q2 < state.numQubits)
      ==> res == Err(IndexOutOfBounds)
    ensures res.Err? ==> state.amplitudes[..] == old(state.amplitudes[..])
    ensures q0 != q1 && q0 != q2 && q1 != q2
      && 0 <= q0 < state.numQubits && 0 <= q1 < state.numQubits && 0 <= q2 < state.numQubits
      ==> res == Ok(())
    ensures res.Ok? ==>
      state.amplitudes[..] == ThreeResult(gate.matrix, old(state.amplitudes[..]), state.numQubits, q0, q1, q2)
  {
    if q0 == q1 || q0 == q2 || q1 == q2 {
      return Err(IllegalArgument);
    }
    var src := state.GetAmplitudes();
    var dim := src.Length;
    var n := state.GetNumQubits();
    ghost var a := src[..];
    var dest := new Complex[dim];
    var i := 0;
    while i < dim
      invariant 0 <= i <= dim
      modifies dest
    {
      dest[i] := Zero;
      i := i + 1;
    }
    if q0 < 0 || q0 >= n || q1 < 0 || q1 >= n || q2 < 0 || q2 >= n {
      // at globalIdx = 0 some source index base | (1 << q) leaves the array
      return Err(IndexOutOfBounds);
    }
    assert src[..] == a;
    ThreeInto(gate.matrix, src, dest, n, q0, q1, q2);
    ghost var r := dest[..];
    assert r == ThreeResult(gate.matrix, a, n, q0, q1, q2);
    forall k | 0 <= k < dim {
      src[k] := dest[k];
    }
    assert src[..] == r;
    res := Ok(());
  }
}
