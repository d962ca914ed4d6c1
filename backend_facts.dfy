/**
 * What the backend's results mean: the counts map tallies every shot's
 * outcome, every outcome string has one digit per qubit, the gate dispatch
 * covers every gate, and the measurement circuits of the backend's own tests
 * (X then MEASURE, X then measureAll) give the bit pattern of the prepared
 * basis state on every shot.
 */
module BackendFacts {
  import opened Wrappers
  import opened ComplexNumbers
  import opened RealMath
  import opened Bits
  import M = GateMatrices
  import G = Gates
  import opened Circuits
  import opened StateVectors
  import opened GateKernels
  import opened Backend
  import opened GateTraces

  // ---------------------------------------------------------------- dispatch

  /** Every gate is single-, two- or three-qubit, so the UnsupportedOperation branch is never taken. */
  lemma DispatchTotal(num: Numerics, n: nat, a: seq<Complex>, g: G.Gate, qs: seq<int>)
    requires |a| == Pow2(n)
    ensures G.IsSingleQubit(g) || G.IsTwoQubit(g) || G.IsThreeQubit(g)
    ensures GateStep(num, n, a, g, qs) != Err(UnsupportedOperation)
  {
    assert G.Arity(g) <= 3;
  }

  // ---------------------------------------------------------------- counts

  /** `counts.merge`: each string's count is the number of outcomes equal to it, and no other key appears. */
  lemma {:induction false} TallyCounts(outs: seq<string>)
    ensures forall o :: o in Tally(outs) <==> o in multiset(outs)
    ensures forall o :: o in Tally(outs) ==> Tally(outs)[o] == multiset(outs)[o]
    decreases |outs|
  {
    if |outs| > 0 {
      var init := outs[..|outs| - 1];
      TallyCounts(init);
      assert outs == init + [outs[|outs| - 1]];
    }
  }

  /** Shots that all report the same string give one key, counted once per shot. */
  lemma {:induction false} TallyConstant(outs: seq<string>, s: string)
    requires |outs| > 0 && forall i :: 0 <= i < |outs| ==> outs[i] == s
    ensures Tally(outs) == map[s := |outs|]
    decreases |outs|
  {
    if |outs| > 1 {
      TallyConstant(outs[..|outs| - 1], s);
    }
  }

  /** The string a shot reports has one digit per qubit. */
  lemma OutcomeLength(num: Numerics, c: Circuit, d: nat -> real)
    requires c.numQubits > 0 && ShotOutcome(num, c, d).Ok?
    ensures |ShotOutcome(num, c, d).value.0| == c.numQubits
  {
  }

  /** A completed run of k shots holds k outcomes, each one a shot's outcome. */
  lemma {:induction false} OutcomesAreShots(shot: nat -> Result<Outcome>, k: nat)
    requires Outcomes(shot, k).Ok?
    ensures forall i :: 0 <= i < k ==> shot(i) == Ok(Outcomes(shot, k).value[i])
    decreases k
  {
    if k > 0 {
      OutcomesAreShots(shot, k - 1);
    }
  }

  /**
   * A run that completes counts each outcome string as often as the shots
   * report it, the counts adding up to the number of shots, and every key has
   * one digit per qubit.
   */
  lemma RunCounts(num: Numerics, c: Circuit, shots: int, draw: nat -> nat -> real)
    requires RunValue(num, c, shots, draw).Ok?
    ensures c.numQubits > 0
    ensures var keys := Keys(Outcomes(ShotOutcomes(num, c, draw), if shots < 0 then 0 else shots).value);
      var counts := RunValue(num, c, shots, draw).value.counts;
      |keys| == (if shots < 0 then 0 else shots)
      && (forall o :: o in counts <==> o in multiset(keys))
      && (forall o :: o in counts ==> counts[o] == multiset(keys)[o])
      && (forall o :: o in counts ==> |o| == c.numQubits)
  {
    var k := if shots < 0 then 0 else shots;
    var perShot := ShotOutcomes(num, c, draw);
    var os := Outcomes(perShot, k).value;
    var keys := Keys(os);
    TallyCounts(keys);
    OutcomesAreShots(perShot, k);
    forall o | o in multiset(keys)
      ensures |o| == c.numQubits
    {
      var i :| 0 <= i < |keys| && keys[i] == o;
      assert perShot(i) == ShotOutcome(num, c, draw(i));
      OutcomeLength(num, c, draw(i));
    }
  }

  /** Shots that all report string s make a run whose counts are s ↦ shots. */
  lemma {:induction false} OutcomesConstant(shot: nat -> Result<Outcome>, k: nat, s: string)
    requires forall i :: 0 <= i < k ==> shot(i).Ok? && shot(i).value.0 == s
    ensures Outcomes(shot, k).Ok?
    ensures forall i :: 0 <= i < k ==> Keys(Outcomes(shot, k).value)[i] == s
    decreases k
  {
    if k > 0 {
      OutcomesConstant(shot, k - 1, s);
      var os := Outcomes(shot, k - 1).value;
      var all := os + [shot(k - 1).value];
      assert Outcomes(shot, k).value == all;
      forall i | 0 <= i < k
        ensures Keys(all)[i] == s
      {
        if i < k - 1 {
          assert all[i] == os[i];
          assert Keys(os)[i] == s;
        }
      }
    }
  }

  // ---------------------------------------------------------------- measuring basis states

  /** Every amplitude whose bit q is not b is zero. */
  predicate ZeroOff(a: seq<Complex>, q: nat, b: nat)
  {
    forall i {:trigger Bit(i, q)} :: 0 <= i < |a| && Bit(i, q) != b ==> a[i] == Zero
  }

  /** Qubit q of a is certainly b: the norm is 1 and only amplitudes with bit q = b are non-zero. */
  predicate Certain(a: seq<Complex>, q: nat, b: nat)
  {
    b < 2 && Sum(Probabilities(a)) == 1.0 && ZeroOff(a, q, b)
  }

  /** Collapsing onto b with factor 1 keeps such a state, and the other outcome has probability 0. */
  lemma ZeroOffCollapse(a: seq<Complex>, q: nat, b: nat)
    requires b < 2 && ZeroOff(a, q, b)
    ensures Collapse(a, q, b, 1.0) == a
    ensures BitProb(a, q, 1 - b) == 0.0
  {
    var c := Collapse(a, q, b, 1.0);
    assert forall i :: 0 <= i < |a| ==> c[i] == a[i];
    assert c == a;
    CollapseClearsOther(a, q, b, 1.0);
  }

  /** Every qubit of a basis state is certain, with the value of its bit. */
  lemma BasisCertain(d: nat, k: nat, q: nat, b: nat)
    requires k < d && b == Bit(k, q)
    ensures Certain(M.Basis(d, k), q, b)
  {
    BasisNorm(d, k);
  }

  /**
   * MEASURE(q, cb) on a state whose qubit q is certainly b writes b into
   * register[cb] and leaves the state as it was, whatever the draw.
   */
  lemma MeasureCertain(num: Numerics, n: nat, a: seq<Complex>, reg: seq<int>, q: int, cb: int, r: real, b: nat)
    requires |a| == Pow2(n) && 0 <= q < n && Certain(a, q, b)
    requires num.invSqrt(1.0) == 1.0 && 0.0 <= r < 1.0 && 0 <= cb < |reg|
    ensures MeasureStep(num, n, Shot(a, reg), q, cb, r) == Ok(Shot(a, reg[cb := b]))
  {
    ZeroOffCollapse(a, q, b);
    OneOutcomeCertain(a, q, b, r);
  }

  /** The bits of the index with only bit a set: 1 at a, 0 elsewhere. */
  function Indicator(n: nat, a: nat): (bits: seq<int>)
    ensures |bits| == n && forall q :: 0 <= q < n ==> bits[q] == if q == a then 1 else 0
  {
    seq(n, q => if q == a then 1 else 0)
  }

  /** After X(a) from |0…0⟩ every qubit is certain: qubit a is 1, the others 0. */
  lemma FlippedCertain(n: nat, a: nat, q: nat)
    requires a < n
    ensures With(0, a, 1) < Pow2(n)
    ensures Certain(M.Basis(Pow2(n), With(0, a, 1)), q, if q == a then 1 else 0)
  {
    FlipFromZero(n, a, M.Basis(Pow2(n), 0), SingleResult(M.X, M.Basis(Pow2(n), 0), n, a));
    BasisCertain(Pow2(n), With(0, a, 1), q, if q == a then 1 else 0);
  }

  /** Running one more instruction is one more Step, with the draw of its position. */
  lemma ExecuteSnoc(num: Numerics, n: nat, s: seq<Instruction>, x: Instruction, d: nat -> real)
    ensures Execute(num, n, s, d).Err? ==> Execute(num, n, s + [x], d) == Execute(num, n, s, d)
    ensures Execute(num, n, s, d).Ok? ==> Execute(num, n, s + [x], d) == Step(num, n, Execute(num, n, s, d).value, x, d(|s|))
  {
    assert (s + [x])[..|s|] == s;
  }

  /** X(a) from |0…0⟩ leaves the basis state with only bit a set and an all-zero register. */
  lemma ExecuteX(num: Numerics, n: nat, a: nat, d: nat -> real)
    requires a < n
    ensures With(0, a, 1) < Pow2(n)
    ensures Execute(num, n, [GateOp(G.X, [a])], d) == Ok(Shot(M.Basis(Pow2(n), With(0, a, 1)), Zeros(n)))
  {
    ExecuteSnoc(num, n, [], GateOp(G.X, [a]), d);
    assert [] + [GateOp(G.X, [a])] == [GateOp(G.X, [a])];
    assert G.Matrix(num, G.X) == M.X;
    FlipFromZero(n, a, M.Basis(Pow2(n), 0), SingleResult(M.X, M.Basis(Pow2(n), 0), n, a));
  }

  /** After X(a), MEASURE(a, cb) stores 1 in register[cb] and the other entries stay 0. */
  lemma XMeasureExecute(num: Numerics, n: nat, a: nat, cb: nat, d: nat -> real)
    requires a < n && cb < n && num.invSqrt(1.0) == 1.0 && 0.0 <= d(1) < 1.0
    ensures Execute(num, n, [GateOp(G.X, [a]), MeasureOp(a, cb)], d)
      == Ok(Shot(M.Basis(Pow2(n), With(0, a, 1)), Zeros(n)[cb := 1]))
  {
    ExecuteX(num, n, a, d);
    ExecuteSnoc(num, n, [GateOp(G.X, [a])], MeasureOp(a, cb), d);
    assert [GateOp(G.X, [a])] + [MeasureOp(a, cb)] == [GateOp(G.X, [a]), MeasureOp(a, cb)];
    FlippedCertain(n, a, a);
    MeasureCertain(num, n, M.Basis(Pow2(n), With(0, a, 1)), Zeros(n), a, cb, d(1), 1);
  }

  /** The string of the circuit `x(a).measure(a, cb)`: a single '1', at digit cb. */
  function OneAt(n: nat, cb: nat): (s: string)
    ensures |s| == n && forall i :: 0 <= i < n ==> (s[i] == '1' <==> i == cb)
  {
    seq(n, i => if i == cb then '1' else '0')
  }

  /** `x(a).measure(a, cb)` reports bit cb set, every shot. */
  lemma XMeasureShot(num: Numerics, n: nat, a: nat, cb: nat, d: nat -> real)
    requires a < n && cb < n && num.invSqrt(1.0) == 1.0 && 0.0 <= d(1) < 1.0
    ensures ShotOutcome(num, Circuit(n, [GateOp(G.X, [a]), MeasureOp(a, cb)]), d).Ok?
    ensures ShotOutcome(num, Circuit(n, [GateOp(G.X, [a]), MeasureOp(a, cb)]), d).value.0 == OneAt(n, cb)
  {
    var instrs := [GateOp(G.X, [a]), MeasureOp(a, cb)];
    XMeasureExecute(num, n, a, cb, d);
    assert instrs[1].MeasureOp?;
    var reg := Zeros(n)[cb := 1];
    assert ClassicalString(reg) == OneAt(n, cb);
  }

  /**
   * The backend's `testMeasureOne` generalised: `x(a).measure(a, cb)` run
   * for any positive number of shots counts OneAt(n, cb) on every shot and
   * nothing else.
   */
  lemma XMeasureRun(num: Numerics, n: nat, a: nat, cb: nat, shots: int, draw: nat -> nat -> real)
    requires a < n && cb < n && shots > 0 && num.invSqrt(1.0) == 1.0
    requires forall s, i :: 0.0 <= draw(s)(i) < 1.0
    ensures RunValue(num, Circuit(n, [GateOp(G.X, [a]), MeasureOp(a, cb)]), shots, draw).Ok?
    ensures RunValue(num, Circuit(n, [GateOp(G.X, [a]), MeasureOp(a, cb)]), shots, draw).value.counts == map[OneAt(n, cb) := shots]
  {
    var c := Circuit(n, [GateOp(G.X, [a]), MeasureOp(a, cb)]);
    var perShot := ShotOutcomes(num, c, draw);
    forall i: nat | i < shots
      ensures perShot(i).Ok? && perShot(i).value.0 == OneAt(n, cb)
    {
      XMeasureShot(num, n, a, cb, draw(i));
    }
    OutcomesConstant(perShot, shots, OneAt(n, cb));
    TallyConstant(Keys(Outcomes(perShot, shots).value), OneAt(n, cb));
  }

  // ---------------------------------------------------------------- measureAll

  /** MEASURE(q, q) on amplitudes a, whatever the register and the draw, keeps a and writes b. */
  ghost predicate MeasuresTo(num: Numerics, n: nat, a: seq<Complex>, q: nat, b: int)
  {
    |a| == Pow2(n) && q < n &&
    forall reg: seq<int>, r: real {:trigger MeasureStep(num, n, Shot(a, reg), q, q, r)} ::
      |reg| == n && 0.0 <= r < 1.0 ==> MeasureStep(num, n, Shot(a, reg), q, q, r) == Ok(Shot(a, reg[q := b]))
  }

  lemma CertainMeasures(num: Numerics, n: nat, a: seq<Complex>, q: nat, b: nat)
    requires |a| == Pow2(n) && q < n && Certain(a, q, b) && num.invSqrt(1.0) == 1.0
    ensures MeasuresTo(num, n, a, q, b)
  {
    forall reg: seq<int>, r: real | |reg| == n && 0.0 <= r < 1.0
      ensures MeasureStep(num, n, Shot(a, reg), q, q, r) == Ok(Shot(a, reg[q := b]))
    {
      MeasureCertain(num, n, a, reg, q, q, r, b);
    }
  }

  /** Measuring each qubit q < m of a writes bits[q]. */
  ghost predicate AllMeasure(num: Numerics, n: nat, a: seq<Complex>, bits: seq<int>, m: nat)
    requires m <= |bits|
  {
    m == 0 || (AllMeasure(num, n, a, bits, m - 1) && MeasuresTo(num, n, a, m - 1, bits[m - 1]))
  }

  lemma {:induction false} AllMeasureFrom(num: Numerics, n: nat, a: seq<Complex>, bits: seq<int>, m: nat)
    requires m <= |bits|
    requires forall q :: 0 <= q < m ==> MeasuresTo(num, n, a, q, bits[q])
    ensures AllMeasure(num, n, a, bits, m)
  {
    if m > 0 {
      AllMeasureFrom(num, n, a, bits, m - 1);
    }
  }

  /** The instruction list and the register before any MEASURE of measureAll. */
  lemma RegisterStart(pre: seq<Instruction>, reg: seq<int>, bits: seq<int>)
    ensures pre + MeasureAllOps(0) == pre && bits[..0] + reg[0..] == reg
  {
    assert pre + MeasureAllOps(0) == pre;
    assert bits[..0] + reg[0..] == reg;
  }

  /** The instruction list, one MEASURE further on. */
  lemma OpsStep(pre: seq<Instruction>, m: nat)
    requires 0 < m
    ensures pre + MeasureAllOps(m) == (pre + MeasureAllOps(m - 1)) + [MeasureOp(m - 1, m - 1)]
  {
  }

  /** The register, one MEASURE(q, q) further on. */
  lemma RegisterStep(reg: seq<int>, bits: seq<int>, m: nat)
    requires 0 < m <= |bits| <= |reg|
    ensures (bits[..m - 1] + reg[m - 1..])[m - 1 := bits[m - 1]] == bits[..m] + reg[m..]
  {
  }

  /**
   * The ops of `measureAll()` on a state whose qubits are certainly bits:
   * MEASURE(q, q) for q < m writes bits[q] into register[q], leaving the
   * state and the other entries alone.
   */
  lemma {:induction false} MeasureAllOpsExecute(num: Numerics, n: nat, pre: seq<Instruction>, amps: seq<Complex>,
                                              bits: seq<int>, reg: seq<int>, m: nat, d: nat -> real)
    requires |amps| == Pow2(n) && |bits| == n && |reg| == n && m <= n && num.invSqrt(1.0) == 1.0
    requires AllMeasure(num, n, amps, bits, m)
    requires forall i :: 0.0 <= d(i) < 1.0
    requires Execute(num, n, pre, d) == Ok(Shot(amps, reg))
    ensures Execute(num, n, pre + MeasureAllOps(m), d) == Ok(Shot(amps, bits[..m] + reg[m..]))
    decreases m
  {
    if m == 0 {
      RegisterStart(pre, reg, bits);
    } else {
      MeasureAllOpsExecute(num, n, pre, amps, bits, reg, m - 1, d);
      RegisterStep(reg, bits, m);
      MeasureAllStep(num, n, pre, amps, bits[m - 1], bits[..m - 1] + reg[m - 1..], bits[..m] + reg[m..], m, d);
    }
  }

  lemma MeasureAllStep(num: Numerics, n: nat, pre: seq<Instruction>, amps: seq<Complex>,
                       b: int, reg: seq<int>, reg': seq<int>, m: nat, d: nat -> real)
    requires |amps| == Pow2(n) && |reg| == n && 0 < m <= n
    requires MeasuresTo(num, n, amps, m - 1, b) && reg[m - 1 := b] == reg'
    requires forall i :: 0.0 <= d(i) < 1.0
    requires Execute(num, n, pre + MeasureAllOps(m - 1), d) == Ok(Shot(amps, reg))
    ensures Execute(num, n, pre + MeasureAllOps(m), d) == Ok(Shot(amps, reg'))
  {
    OpsStep(pre, m);
    MeasureNext(num, n, pre + MeasureAllOps(m - 1), pre + MeasureAllOps(m), amps, reg, reg', m - 1, b, d);
  }

  /** One more MEASURE(q, q) on a state whose qubit q is certainly b writes b into register[q]. */
  lemma MeasureNext(num: Numerics, n: nat, init: seq<Instruction>, next: seq<Instruction>, amps: seq<Complex>,
                    reg: seq<int>, reg': seq<int>, q: nat, b: int, d: nat -> real)
    requires |amps| == Pow2(n) && q < n && |reg| == n && MeasuresTo(num, n, amps, q, b)
    requires 0.0 <= d(|init|) < 1.0
    requires next == init + [MeasureOp(q, q)] && reg' == reg[q := b]
    requires Execute(num, n, init, d) == Ok(Shot(amps, reg))
    ensures Execute(num, n, next, d) == Ok(Shot(amps, reg'))
  {
    ExecuteSnoc(num, n, init, MeasureOp(q, q), d);
    assert MeasureStep(num, n, Shot(amps, reg), q, q, d(|init|)) == Ok(Shot(amps, reg'));
  }

  /**
   * The backend's `testMeasureAll` generalised: `x(a).measureAll()` on n
   * qubits reports the string with a single '1', at digit a, every shot.
   */
  lemma XMeasureAllShot(num: Numerics, n: nat, a: nat, d: nat -> real)
    requires a < n && num.invSqrt(1.0) == 1.0
    requires forall i :: 0.0 <= d(i) < 1.0
    ensures ShotOutcome(num, Circuit(n, [GateOp(G.X, [a])] + MeasureAllOps(n)), d).Ok?
    ensures ShotOutcome(num, Circuit(n, [GateOp(G.X, [a])] + MeasureAllOps(n)), d).value.0 == OneAt(n, a)
  {
    var pre := [GateOp(G.X, [a])];
    var amps := M.Basis(Pow2(n), With(0, a, 1));
    var bits := Indicator(n, a);
    forall q | 0 <= q < n
      ensures MeasuresTo(num, n, amps, q, bits[q])
    {
      FlippedCertain(n, a, q);
      CertainMeasures(num, n, amps, q, bits[q]);
    }
    AllMeasureFrom(num, n, amps, bits, n);
    ExecuteX(num, n, a, d);
    MeasureAllOpsExecute(num, n, pre, amps, bits, Zeros(n), n, d);
    var instrs := pre + MeasureAllOps(n);
    assert instrs[|instrs| - 1] == MeasureOp(n - 1, n - 1);
    assert bits[..n] + Zeros(n)[n..] == bits;
    assert ClassicalString(bits) == OneAt(n, a);
  }

  /** `x(a).measureAll()` run for any positive number of shots counts OneAt(n, a) on every shot. */
  lemma XMeasureAllRun(num: Numerics, n: nat, a: nat, shots: int, draw: nat -> nat -> real)
    requires a < n && shots > 0 && num.invSqrt(1.0) == 1.0
    requires forall s, i :: 0.0 <= draw(s)(i) < 1.0
    ensures RunValue(num, Circuit(n, [GateOp(G.X, [a])] + MeasureAllOps(n)), shots, draw).Ok?
    ensures RunValue(num, Circuit(n, [GateOp(G.X, [a])] + MeasureAllOps(n)), shots, draw).value.counts == map[OneAt(n, a) := shots]
  {
    var c := Circuit(n, [GateOp(G.X, [a])] + MeasureAllOps(n));
    var perShot := ShotOutcomes(num, c, draw);
    forall i: nat | i < shots
      ensures perShot(i).Ok? && perShot(i).value.0 == OneAt(n, a)
    {
      XMeasureAllShot(num, n, a, draw(i));
    }
    OutcomesConstant(perShot, shots, OneAt(n, a));
    TallyConstant(Keys(Outcomes(perShot, shots).value), OneAt(n, a));
  }
}
