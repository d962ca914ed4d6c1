/**
 * The state-vector backend. Every shot starts from a fresh |0…0⟩, runs the
 * instructions in order, dispatching gates by arity class to the kernels and
 * writing each measured bit into the classical register, and ends in an
 * outcome string; the counts map tallies those strings.
 *
 * The random draws are a parameter: draw(s, i) is the number in [0, 1) the
 * shot s state's generator yields at instruction i, and draw(s, |instructions|)
 * the one its final `measureAll` uses.
 */
module Backend {
  import opened Wrappers
  import opened ComplexNumbers
  import opened RealMath
  import opened Bits
  import M = GateMatrices
  import G = Gates
  import opened Circuits
  import opened StateVectors
  import opened GateKernels
  import opened Options

  /** What a shot carries from one instruction to the next. */
  datatype Shot = Shot(amps: seq<Complex>, register: seq<int>)

  /** The counts map and the last shot's final state, None when no shot ran. */
  datatype RunResult = RunResult(counts: map<string, nat>, finalState: Option<seq<Complex>>)

  // ---------------------------------------------------------------- specification

  /** `containsMeasurements`: some instruction is a MEASURE. */
  function ContainsMeasurements(s: seq<Instruction>): (r: bool)
    ensures r <==> exists i :: 0 <= i < |s| && s[i].MeasureOp?
  {
    if |s| == 0 then false
    else if s[0].MeasureOp? then (assert s[0].MeasureOp?; true)
    else
      var rest := ContainsMeasurements(s[1..]);
      assert forall i :: 0 <= i < |s| - 1 ==> s[1..][i] == s[i + 1];
      rest
  }

  /** A register entry printed by `StringBuilder.append(int)`: entries are measured bits. */
  function Digit(b: int): char
    requires 0 <= b < 2
  {
    if b == 1 then '1' else '0'
  }

  predicate IsBits(reg: seq<int>)
  {
    forall i :: 0 <= i < |reg| ==> 0 <= reg[i] < 2
  }

  /** `buildClassicalString`: the register printed from index 0. */
  function ClassicalString(reg: seq<int>): string
    requires IsBits(reg)
  {
    seq(|reg|, i requires 0 <= i < |reg| => Digit(reg[i]))
  }

  /**
   * What one gate instruction does to the amplitudes: the kernel of the
   * gate's arity class on qs[0..arity), IndexOutOfBounds when qs is shorter
   * than that, and the kernel's own errors otherwise.
   */
  function GateStep(num: Numerics, n: nat, a: seq<Complex>, g: G.Gate, qs: seq<int>): (r: Result<seq<Complex>>)
    requires |a| == Pow2(n)
    ensures r.Ok? ==> |r.value| == |a|
  {
    var m := G.Matrix(num, g);
    G.MatrixMatchesArity(num, g);
    assert Pow2(1) == 2 && Pow2(2) == 4 && Pow2(3) == 8;
    if G.IsSingleQubit(g) then
      if |qs| < 1 then Err(IndexOutOfBounds)
      else if 0 <= qs[0] < n then Ok(SingleResult(m, a, n, qs[0]))
      else Err(IllegalArgument)
    else if G.IsTwoQubit(g) then
      if |qs| < 2 then Err(IndexOutOfBounds)
      else if qs[0] == qs[1] then Err(IllegalArgument)
      else if 0 <= qs[0] < n && 0 <= qs[1] < n then Ok(TwoResult(m, a, n, qs[0], qs[1]))
      else Err(IndexOutOfBounds)
    else if G.IsThreeQubit(g) then
      if |qs| < 3 then Err(IndexOutOfBounds)
      else if qs[0] == qs[1] || qs[0] == qs[2] || qs[1] == qs[2] then Err(IllegalArgument)
      else if 0 <= qs[0] < n && 0 <= qs[1] < n && 0 <= qs[2] < n then Ok(ThreeResult(m, a, n, qs[0], qs[1], qs[2]))
      else Err(IndexOutOfBounds)
    else
      Err(UnsupportedOperation)
  }

  /**
   * MEASURE(q, c) with draw r: `measureOne(q)` decides and collapses, then
   * the bit overwrites classicalRegister[c], whatever was there.
   */
  function MeasureStep(num: Numerics, n: nat, s: Shot, q: int, c: int, r: real): (res: Result<Shot>)
    requires |s.amps| == Pow2(n)
    ensures res.Ok? ==> |res.value.amps| == |s.amps| && |res.value.register| == |s.register|
    ensures res.Ok? ==> 0 <= c < |s.register| && 0 <= q < n
    ensures res.Ok? && IsBits(s.register) ==> IsBits(res.value.register)
  {
    if !(0 <= q < n) then Err(IllegalArgument)
    else
      match OneOutcome(s.amps, q, r)
      case Err(e) => Err(e)
      case Ok((b, p)) =>
        OutcomeIsBit(s.amps, q, r);
        if 0 <= c < |s.register| then Ok(Shot(Collapse(s.amps, q, b, num.invSqrt(p)), s.register[c := b]))
        else Err(IndexOutOfBounds)
  }

  /** `measureOne` returns 0 or 1. */
  lemma OutcomeIsBit(a: seq<Complex>, q: nat, r: real)
    requires OneOutcome(a, q, r).Ok?
    ensures OneOutcome(a, q, r).value.0 < 2
  {
  }

  function Step(num: Numerics, n: nat, s: Shot, inst: Instruction, r: real): (res: Result<Shot>)
    requires |s.amps| == Pow2(n)
    ensures res.Ok? ==> |res.value.amps| == |s.amps| && |res.value.register| == |s.register|
    ensures res.Ok? && IsBits(s.register) ==> IsBits(res.value.register)
  {
    match inst
    case GateOp(g, qs) =>
      (match GateStep(num, n, s.amps, g, qs)
       case Err(e) => Err(e)
       case Ok(a) => Ok(Shot(a, s.register)))
    case MeasureOp(q, c) => MeasureStep(num, n, s, q, c, r)
  }

  /** The register a shot starts with: `new int[n]`. */
  function Zeros(n: nat): (z: seq<int>)
    ensures |z| == n && IsBits(z)
  {
    seq(n, i => 0)
  }

  /** One shot's state after the instructions, from |0…0⟩, using draw d(i) at instruction i. */
  function Execute(num: Numerics, n: nat, instrs: seq<Instruction>, d: nat -> real): (r: Result<Shot>)
    ensures r.Ok? ==> |r.value.amps| == Pow2(n) && |r.value.register| == n && IsBits(r.value.register)
    decreases |instrs|
  {
    if |instrs| == 0 then Ok(Shot(M.Basis(Pow2(n), 0), Zeros(n)))
    else
      var k := |instrs| - 1;
      match Execute(num, n, instrs[..k], d)
      case Err(e) => Err(e)
      case Ok(s) => Step(num, n, s, instrs[k], d(k))
  }

  /** `measureAll()` on amplitudes a with draw r: the outcome string and the collapsed state. */
  function MeasureAllValue(a: seq<Complex>, n: nat, r: real): Result<(string, seq<Complex>)>
  {
    var p := Probabilities(a);
    if Sum(p) == 0.0 then Err(IllegalState)
    else
      var chosen := Choose(Normalized(p, Sum(p)), r);
      Ok((BitString(chosen, n), M.Basis(|a|, chosen)))
  }

  /**
   * One shot's outcome string and final state: the classical register when
   * the circuit measures anything, `measureAll` of the final state otherwise.
   */
  function ShotOutcome(num: Numerics, c: Circuit, d: nat -> real): Result<Outcome>
    requires c.numQubits > 0
  {
    var n := c.numQubits as nat;
    match Execute(num, n, c.instructions, d)
    case Err(e) => Err(e)
    case Ok(s) =>
      if ContainsMeasurements(c.instructions) then Ok((ClassicalString(s.register), s.amps))
      else MeasureAllValue(s.amps, n, d(|c.instructions|))
  }

  /** A shot's outcome string and final state. */
  type Outcome = (string, seq<Complex>)

  /** Shot s of a run: the circuit on its own draws. */
  function ShotOutcomes(num: Numerics, c: Circuit, draw: nat -> nat -> real): nat -> Result<Outcome>
    requires c.numQubits > 0
  {
    (s: nat) => ShotOutcome(num, c, draw(s))
  }

  /** The outcomes of shots 0 .. k-1, or the exception of the first shot that throws. */
  function Outcomes(shot: nat -> Result<Outcome>, k: nat): (r: Result<seq<Outcome>>)
    ensures r.Ok? ==> |r.value| == k
  {
    if k == 0 then Ok([])
    else
      match Outcomes(shot, k - 1)
      case Err(e) => Err(e)
      case Ok(os) =>
        match shot(k - 1)
        case Err(e) => Err(e)
        case Ok(o) => Ok(os + [o])
  }

  function Keys(os: seq<Outcome>): (r: seq<string>)
    ensures |r| == |os| && forall i :: 0 <= i < |os| ==> r[i] == os[i].0
  {
    seq(|os|, i requires 0 <= i < |os| => os[i].0)
  }

  /** `counts.merge(o, 1, Integer::sum)`: one more occurrence of o. */
  function Merge(counts: map<string, nat>, o: string): (r: map<string, nat>)
    ensures o in r && r[o] == (if o in counts then counts[o] else 0) + 1
  {
    counts[o := (if o in counts then counts[o] else 0) + 1]
  }

  /** `counts.merge(outcome, 1, Integer::sum)` over the outcomes in order. */
  function Tally(outs: seq<string>): map<string, nat>
  {
    if |outs| == 0 then map[] else Merge(Tally(outs[..|outs| - 1]), outs[|outs| - 1])
  }

  /**
   * `run(circuit, options)`: IllegalArgument when the circuit has no qubits;
   * otherwise the first shot's exception, or the tally of all outcomes with
   * the last shot's final state.
   */
  function RunValue(num: Numerics, c: Circuit, shots: int, draw: nat -> nat -> real): Result<RunResult>
  {
    if c.numQubits <= 0 then Err(IllegalArgument)
    else
      match Outcomes(ShotOutcomes(num, c, draw), if shots < 0 then 0 else shots)
      case Err(e) => Err(e)
      case Ok(os) => Ok(RunResult(Tally(Keys(os)), if |os| == 0 then None else Some(os[|os| - 1].1)))
  }

  // ---------------------------------------------------------------- the backend

  /** The gate case of the instruction switch: dispatch by class, then the kernel. */
  method ApplyGate(num: Numerics, g: G.Gate, qs: seq<int>, state: StateVector) returns (res: Result<()>)
    requires state.Valid()
    modifies state.amplitudes
    ensures res.Ok? ==> GateStep(num, state.numQubits, old(state.amplitudes[..]), g, qs) == Ok(state.amplitudes[..])
    ensures res.Err? ==> GateStep(num, state.numQubits, old(state.amplitudes[..]), g, qs) == Err(res.error)
  {
    var m := G.Matrix(num, g);
    G.MatrixMatchesArity(num, g);
    assert Pow2(1) == 2 && Pow2(2) == 4 && Pow2(3) == 8;
    if G.IsSingleQubit(g) {
      if |qs| < 1 {
        return Err(IndexOutOfBounds);
      }
      res := ApplySingle(SingleQubitGate(m), state, qs[0]);
    } else if G.IsTwoQubit(g) {
      if |qs| < 2 {
        return Err(IndexOutOfBounds);
      }
      res := ApplyTwo(TwoQubitGate(m), state, qs[0], qs[1]);
    } else if G.IsThreeQubit(g) {
      if |qs| < 3 {
        return Err(IndexOutOfBounds);
      }
      res := ApplyThree(ThreeQubitGate(m), state, qs[0], qs[1], qs[2]);
    } else {
      return Err(UnsupportedOperation);
    }
  }

  /** `buildClassicalString`: one digit per register entry, from index 0. */
  method BuildClassicalString(register: array<int>) returns (s: string)
    requires IsBits(register[..])
    ensures s == ClassicalString(register[..])
  {
    s := "";
    var i := 0;
    while i < register.Length
      invariant 0 <= i <= register.Length
      invariant IsBits(register[..i])
      invariant s == ClassicalString(register[..i])
    {
      assert register[..i + 1] == register[..i] + [register[i]];
      s := s + [Digit(register[i])];
      i := i + 1;
    }
    assert register[..register.Length] == register[..];
  }

  /** Running one more instruction is one more Step. */
  lemma ExecuteNext(num: Numerics, n: nat, instrs: seq<Instruction>, d: nat -> real, i: nat, s: Shot)
    requires i < |instrs| && Execute(num, n, instrs[..i], d) == Ok(s)
    ensures |s.amps| == Pow2(n)
    ensures Execute(num, n, instrs[..i + 1], d) == Step(num, n, s, instrs[i], d(i))
  {
    assert instrs[..i + 1][..i] == instrs[..i];
  }

  /** Once a prefix throws, so does every longer one, with the same exception. */
  lemma ErrorSticks(num: Numerics, n: nat, instrs: seq<Instruction>, d: nat -> real, j: nat, k: nat)
    requires j <= k <= |instrs| && Execute(num, n, instrs[..j], d).Err?
    ensures Execute(num, n, instrs[..k], d) == Execute(num, n, instrs[..j], d)
  {
    var f := (i: nat) => if i <= |instrs| then Execute(num, n, instrs[..i], d) else Err(IllegalState);
    forall i | j <= i < k && f(i).Err?
      ensures f(i + 1) == f(i)
    {
      ErrorNext(num, n, instrs, d, i);
    }
    FailureSticks(f, j, k);
  }

  /** In a chain where a failure passes unchanged to the next link, the first failure reaches the end. */
  lemma {:induction false} FailureSticks<T>(f: nat -> Result<T>, j: nat, k: nat)
    requires j <= k && f(j).Err?
    requires forall i :: j <= i < k && f(i).Err? ==> f(i + 1) == f(i)
    ensures f(k) == f(j)
    decreases k
  {
    if k > j {
      FailureSticks(f, j, k - 1);
    }
  }

  /** An exception in a prefix passes through the next instruction unchanged. */
  lemma ErrorNext(num: Numerics, n: nat, instrs: seq<Instruction>, d: nat -> real, i: nat)
    requires i < |instrs| && Execute(num, n, instrs[..i], d).Err?
    ensures Execute(num, n, instrs[..i + 1], d) == Execute(num, n, instrs[..i], d)
  {
    assert instrs[..i + 1][..i] == instrs[..i];
  }

  /** One pass of the instruction switch: a gate or a measurement into the register. */
  method ExecuteInstruction(num: Numerics, inst: Instruction, state: StateVector, register: array<int>, r: real)
    returns (res: Result<()>)
    requires state.Valid() && register.Length == state.numQubits
    modifies state.amplitudes, register
    ensures var s := Step(num, state.numQubits, Shot(old(state.amplitudes[..]), old(register[..])), inst, r);
      if res.Ok? then s == Ok(Shot(state.amplitudes[..], register[..])) else s == Err(res.error)
  {
    match inst {
      case GateOp(g, qs) =>
        res := ApplyGate(num, g, qs, state);
      case MeasureOp(q, cb) =>
        var b := state.MeasureOne(num, q, r);
        if b.Err? {
          return Err(b.error);
        }
        if cb < 0 || cb >= register.Length {
          return Err(IndexOutOfBounds);
        }
        register[cb] := b.value;
        res := Ok(());
    }
  }

  /** The body of the shot loop for one shot, on a fresh copy of |0…0⟩. */
  /** One iteration of the shot loop: a fresh copy of the base state, then shot k on it. */
  method CopyAndRunShot(num: Numerics, c: Circuit, baseState: StateVector, hasMeasurements: bool,
                        draw: nat -> nat -> real, k: nat)
    returns (res: Result<Outcome>)
    requires c.numQubits > 0 && baseState.Valid() && baseState.numQubits == c.numQubits
    requires baseState.amplitudes[..] == M.Basis(Pow2(baseState.numQubits), 0)
    requires hasMeasurements == ContainsMeasurements(c.instructions)
    ensures res == ShotOutcomes(num, c, draw)(k)
  {
    var state := baseState.Copy();
    res := RunShot(num, c, state, hasMeasurements, draw(k));
  }

  method RunShot(num: Numerics, c: Circuit, state: StateVector, hasMeasurements: bool, d: nat -> real)
    returns (res: Result<Outcome>)
    requires c.numQubits > 0 && state.Valid() && state.numQubits == c.numQubits
    requires state.amplitudes[..] == M.Basis(Pow2(state.numQubits), 0)
    requires hasMeasurements == ContainsMeasurements(c.instructions)
    modifies state.amplitudes
    ensures res == ShotOutcome(num, c, d)
  {
    var n := c.numQubits;
    var register := new int[n](_ => 0);
    assert register[..] == Zeros(n);
    assert c.instructions[..0] == [];
    var r := ExecuteAll(num, c.instructions, state, register, d);
    if r.Err? {
      return Err(r.error);
    }
    if hasMeasurements {
      var s := BuildClassicalString(register);
      res := Ok((s, state.amplitudes[..]));
    } else {
      var m := state.MeasureAll(d(|c.instructions|));
      if m.Err? {
        return Err(m.error);
      }
      res := Ok((m.value, state.amplitudes[..]));
    }
  }

  /** Instruction i of the shot loop, on the state that instructions [0, i) left. */
  method ExecuteAt(num: Numerics, instrs: seq<Instruction>, i: nat, state: StateVector, register: array<int>, d: nat -> real)
    returns (r: Result<()>)
    requires state.Valid() && register.Length == state.numQubits && i < |instrs|
    requires Execute(num, state.numQubits, instrs[..i], d) == Ok(Shot(state.amplitudes[..], register[..]))
    modifies state.amplitudes, register
    ensures state.Valid()
    ensures r.Ok? ==> Execute(num, state.numQubits, instrs[..i + 1], d) == Ok(Shot(state.amplitudes[..], register[..]))
    ensures r.Err? ==> Execute(num, state.numQubits, instrs[..i + 1], d) == Err(r.error)
  {
    ghost var before := Shot(state.amplitudes[..], register[..]);
    ExecuteNext(num, state.numQubits, instrs, d, i, before);
    r := ExecuteInstruction(num, instrs[i], state, register, d(i));
  }

  /** The instruction loop of one shot, from |0…0⟩ and an all-zero register. */
  method ExecuteAll(num: Numerics, instrs: seq<Instruction>, state: StateVector, register: array<int>, d: nat -> real)
    returns (res: Result<()>)
    requires state.Valid() && register.Length == state.numQubits
    requires Execute(num, state.numQubits, instrs[..0], d) == Ok(Shot(state.amplitudes[..], register[..]))
    modifies state.amplitudes, register
    ensures state.Valid()
    ensures res.Ok? ==> Execute(num, state.numQubits, instrs, d) == Ok(Shot(state.amplitudes[..], register[..]))
    ensures res.Err? ==> Execute(num, state.numQubits, instrs, d) == Err(res.error)
  {
    var n := state.numQubits;
    var i := 0;
    while i < |instrs|
      invariant 0 <= i <= |instrs| && state.Valid()
      invariant Execute(num, n, instrs[..i], d) == Ok(Shot(state.amplitudes[..], register[..]))
    {
      var r := ExecuteAt(num, instrs, i, state, register, d);
      if r.Err? {
        ErrorSticks(num, n, instrs, d, i + 1, |instrs|);
        assert instrs[..|instrs|] == instrs;
        return Err(r.error);
      }
      i := i + 1;
    }
    assert instrs[..|instrs|] == instrs;
    return Ok(());
  }


  /**
   * `run(circuit, options)`: a fresh copy of the base state per shot, the
   * outcome merged into the counts, and the last shot's state kept.
   */
  method Run(num: Numerics, c: Circuit, options: RunOptions, draw: nat -> nat -> real) returns (res: Result<RunResult>)
    ensures res == RunValue(num, c, options.shots, draw)
  {
    var created := Create(c.numQubits);
    if created.Err? {
      return Err(created.error);
    }
    var shots := options.GetShots();
    res := RunShots(num, c, created.value, shots, draw);
  }

  /** The shot loop of `run`, from the base state |0…0⟩. */
  method RunShots(num: Numerics, c: Circuit, baseState: StateVector, shots: int, draw: nat -> nat -> real)
    returns (res: Result<RunResult>)
    requires c.numQubits > 0 && baseState.Valid() && baseState.numQubits == c.numQubits
    requires baseState.amplitudes[..] == M.Basis(Pow2(c.numQubits), 0)
    ensures res == RunValue(num, c, shots, draw)
  {
    var counts: map<string, nat> := map[];
    var hasMeasurements := ContainsMeasurements(c.instructions);
    var finalState: Option<seq<Complex>> := None;
    ghost var os: seq<Outcome> := [];
    ghost var perShot := ShotOutcomes(num, c, draw);
    var shot: nat := 0;
    ghost var base := baseState.amplitudes[..];
    while shot < shots
      invariant shot <= (if shots < 0 then 0 else shots)
      invariant baseState.Valid() && baseState.numQubits == c.numQubits
      invariant baseState.amplitudes[..] == base
      invariant Outcomes(perShot, shot) == Ok(os)
      invariant counts == Tally(Keys(os))
      invariant finalState == if |os| == 0 then None else Some(os[|os| - 1].1)
    {
      var out := CopyAndRunShot(num, c, baseState, hasMeasurements, draw, shot);
      if out.Err? {
        OutcomesFail(perShot, shot, os, out.error, shots);
        RunValueFail(num, c, shots, draw, out.error);
        return Err(out.error);
      }
      var outcome := out.value.0;
      OutcomesStep(perShot, shot, os, out.value);
      counts := Merge(counts, outcome);
      finalState := Some(out.value.1);
      os := os + [out.value];
      assert os[|os| - 1] == out.value;
      shot := shot + 1;
    }
    assert shot == if shots < 0 then 0 else shots;
    RunValueOk(num, c, shots, draw, os);
    res := Ok(RunResult(counts, finalState));
  }

  /** A run in which some shot throws reports that exception. */
  lemma RunValueFail(num: Numerics, c: Circuit, shots: int, draw: nat -> nat -> real, e: Failure)
    requires c.numQubits > 0 && shots >= 0
    requires Outcomes(ShotOutcomes(num, c, draw), shots) == Err(e)
    ensures RunValue(num, c, shots, draw) == Err(e)
  {
  }

  /** A run whose shots all complete reports their tally and the last final state. */
  lemma RunValueOk(num: Numerics, c: Circuit, shots: int, draw: nat -> nat -> real, os: seq<Outcome>)
    requires c.numQubits > 0
    requires Outcomes(ShotOutcomes(num, c, draw), if shots < 0 then 0 else shots) == Ok(os)
    ensures RunValue(num, c, shots, draw) == Ok(RunResult(Tally(Keys(os)), if |os| == 0 then None else Some(os[|os| - 1].1)))
  {
  }

  /** A shot that completes adds its outcome to the run and one to its string's count. */
  lemma OutcomesStep(shot: nat -> Result<Outcome>, k: nat, os: seq<Outcome>, o: Outcome)
    requires Outcomes(shot, k) == Ok(os) && shot(k) == Ok(o)
    ensures Outcomes(shot, k + 1) == Ok(os + [o])
    ensures Tally(Keys(os + [o])) == Merge(Tally(Keys(os)), o.0)
  {
    assert Keys(os + [o])[..|os|] == Keys(os);
  }

  /** A shot that throws ends the run with its exception, however many shots remain. */
  lemma OutcomesFail(shot: nat -> Result<Outcome>, k: nat, os: seq<Outcome>, e: Failure, shots: int)
    requires Outcomes(shot, k) == Ok(os) && shot(k) == Err(e) && k < shots
    ensures Outcomes(shot, shots as nat) == Err(e)
  {
    OutcomesErrorSticks(shot, k + 1, shots);
  }

  /** Once a shot throws, the whole run throws the same exception. */
  lemma {:induction false} OutcomesErrorSticks(shot: nat -> Result<Outcome>, j: nat, k: int)
    requires j <= k && Outcomes(shot, j).Err?
    ensures Outcomes(shot, k as nat) == Outcomes(shot, j)
    decreases k - j
  {
    if j < k {
      OutcomesErrorSticks(shot, j, k - 1);
    }
  }
}
