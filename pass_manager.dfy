/**
 * The transpiler passes as one closed family, and PassManager: an ordered
 * list of passes that `run` applies one after the other, each to the previous
 * one's output. A pass that reads past the end of an instruction's qubit
 * array, or outside the RemoveRedundantMeasurementPass table, throws in Java;
 * here the run then yields None. `Accepts` is each pass's own condition for
 * running without a throw.
 */
module Transpiler {
  import opened Wrappers
  import opened Gates
  import opened Circuits
  import SwapDecomposition
  import CXCancellation
  import RotationFusion
  import U3Decomposition
  import BasisDecomposition
  import CXToCZ
  import GateCommutation
  import GateInversion
  import CancelPairs
  import RemoveRedundantMeasurement

  datatype Pass =
    | SwapDecompositionPass
    | CXCancellationPass
    | RotationFusionPass
    | U3DecompositionPass
    | BasisGateDecompositionPass
    | CXToCZDecompositionPass
    | GateCommutationPass
    | GateInversionPass
    | CancelDoubleXPass
    | CancelDoubleHPass
    | CancelDoubleZPass
    | RemoveRedundantMeasurementPass

  /** The pass runs on c without throwing. */
  predicate Accepts(p: Pass, c: Circuit)
  {
    match p
    case SwapDecompositionPass => SwapDecomposition.Ready(c.instructions)
    case CXCancellationPass => !CXCancellation.Fails(c.instructions)
    case U3DecompositionPass => U3Decomposition.Ready(c.instructions)
    case BasisGateDecompositionPass => BasisDecomposition.Ready(c.instructions)
    case CXToCZDecompositionPass => CXToCZ.Ready(c.instructions)
    case GateCommutationPass => !GateCommutation.Fails(c.instructions)
    case RemoveRedundantMeasurementPass => RemoveRedundantMeasurement.InRange(c.numQubits, c.instructions)
    case _ => true
  }

  /** `pass.apply(c)`: the circuit the pass returns. */
  function Transform(p: Pass, c: Circuit): Circuit
    requires Accepts(p, c)
  {
    match p
    case SwapDecompositionPass => Circuit(c.numQubits, SwapDecomposition.Decompose(c.instructions))
    case CXCancellationPass => Circuit(c.numQubits, CXCancellation.Cancel(c.instructions))
    case RotationFusionPass => Circuit(c.numQubits, RotationFusion.Fuse(c.instructions))
    case U3DecompositionPass => Circuit(c.numQubits, U3Decomposition.Decompose(c.instructions))
    case BasisGateDecompositionPass => Circuit(c.numQubits, BasisDecomposition.Decompose(c.instructions))
    case CXToCZDecompositionPass => Circuit(c.numQubits, CXToCZ.Decompose(c.instructions))
    case GateCommutationPass => Circuit(c.numQubits, GateCommutation.Commute(c.instructions))
    case GateInversionPass => Circuit(c.numQubits, GateInversion.Invert(c.instructions))
    case CancelDoubleXPass => Circuit(c.numQubits, CancelPairs.Cancel(X, c.instructions))
    case CancelDoubleHPass => Circuit(c.numQubits, CancelPairs.Cancel(H, c.instructions))
    case CancelDoubleZPass => Circuit(c.numQubits, CancelPairs.Cancel(Z, c.instructions))
    case RemoveRedundantMeasurementPass => Circuit(c.numQubits, RemoveRedundantMeasurement.Dedup(c.instructions))
  }

  /** Dispatch to the pass's own `apply`. */
  method ApplyPass(p: Pass, c: Circuit) returns (r: Circuit)
    requires Accepts(p, c)
    ensures r == Transform(p, c)
  {
    match p {
      case SwapDecompositionPass => r := SwapDecomposition.Apply(c);
      case CXCancellationPass => r := CXCancellation.Apply(c);
      case RotationFusionPass => r := RotationFusion.Apply(c);
      case U3DecompositionPass => r := U3Decomposition.Apply(c);
      case BasisGateDecompositionPass => r := BasisDecomposition.Apply(c);
      case CXToCZDecompositionPass => r := CXToCZ.Apply(c);
      case GateCommutationPass => r := GateCommutation.Apply(c);
      case GateInversionPass => r := GateInversion.Apply(c);
      case CancelDoubleXPass => r := CancelPairs.CancelDoubleX(c);
      case CancelDoubleHPass => r := CancelPairs.CancelDoubleH(c);
      case CancelDoubleZPass => r := CancelPairs.CancelDoubleZ(c);
      case RemoveRedundantMeasurementPass => r := RemoveRedundantMeasurement.Apply(c);
    }
  }

  /** The passes applied in order, each to the previous output; None once one of them throws. */
  function RunPasses(ps: seq<Pass>, c: Circuit): Option<Circuit>
    decreases |ps|
  {
    if |ps| == 0 then Some(c)
    else if Accepts(ps[0], c) then RunPasses(ps[1..], Transform(ps[0], c))
    else None
  }

  class PassManager {
    var passes: seq<Pass>

    /** `new PassManager()`: no passes. */
    constructor ()
      ensures passes == []
    {
      passes := [];
    }

    /** `getPasses()`: the passes in insertion order. */
    function GetPasses(): seq<Pass>
      reads this
    {
      passes
    }

    /** `addPass(p)`: appends p at the end and returns this manager. */
    method AddPass(p: Pass) returns (r: PassManager)
      modifies this
      ensures r == this && GetPasses() == old(GetPasses()) + [p]
    {
      passes := passes + [p];
      r := this;
    }

    /** `run(c)`: each pass in insertion order, applied to the current circuit. */
    method Run(c: Circuit) returns (r: Option<Circuit>)
      ensures r == RunPasses(passes, c)
    {
      var current := c;
      for k := 0 to |passes|
        invariant RunPasses(passes[k..], current) == RunPasses(passes, c)
      {
        assert passes[k..][1..] == passes[k + 1..];
        if !Accepts(passes[k], current) {
          return None;
        }
        current := ApplyPass(passes[k], current);
      }
      assert passes[|passes|..] == [];
      r := Some(current);
    }
  }

  // ---------------------------------------------------------------- properties

  /** Running ps then qs is running ps + qs: `run` is a left fold over the list. */
  lemma {:induction false} RunAppend(ps: seq<Pass>, qs: seq<Pass>, c: Circuit)
    ensures RunPasses(ps + qs, c) == if RunPasses(ps, c).None? then None else RunPasses(qs, RunPasses(ps, c).value)
    decreases |ps|
  {
    if |ps| == 0 {
      assert ps + qs == qs;
    } else {
      assert (ps + qs)[0] == ps[0];
      assert (ps + qs)[1..] == ps[1..] + qs;
      if Accepts(ps[0], c) {
        RunAppend(ps[1..], qs, Transform(ps[0], c));
      }
    }
  }

  /** A single pass runs as itself. */
  lemma RunOne(p: Pass, c: Circuit)
    ensures RunPasses([p], c) == if Accepts(p, c) then Some(Transform(p, c)) else None
  {
    assert [p][1..] == [];
  }

  /** No pass changes the qubit count, so no pipeline does. */
  lemma {:induction false} RunKeepsQubits(ps: seq<Pass>, c: Circuit)
    ensures RunPasses(ps, c).Some? ==> RunPasses(ps, c).value.numQubits == c.numQubits
    decreases |ps|
  {
    if |ps| > 0 && Accepts(ps[0], c) {
      RunKeepsQubits(ps[1..], Transform(ps[0], c));
    }
  }

  /**
   * Short qubit arrays make CX cancellation fail only where Java reads past
   * them: a lone one-qubit CX is returned, two equal one-qubit CX throw.
   */
  lemma ShortCXRun(n: int, a: int)
    ensures RunPasses([CXCancellationPass], Circuit(n, [GateOp(CNOT, [a])])) == Some(Circuit(n, [GateOp(CNOT, [a])]))
    ensures RunPasses([CXCancellationPass], Circuit(n, [GateOp(CNOT, [a]), GateOp(CNOT, [a])])) == None
  {
    CXCancellation.LoneShortCX(a);
    CXCancellation.EqualShortCXFail(a);
    RunOne(CXCancellationPass, Circuit(n, [GateOp(CNOT, [a])]));
    RunOne(CXCancellationPass, Circuit(n, [GateOp(CNOT, [a]), GateOp(CNOT, [a])]));
  }

  /**
   * Gate commutation on short qubit arrays: a lone gate without qubits is
   * returned, and an RZ moves in front of a CX holding only its control.
   */
  lemma ShortCommuteRun(n: int, a: int, theta: real)
    ensures RunPasses([GateCommutationPass], Circuit(n, [GateOp(H, [])])) == Some(Circuit(n, [GateOp(H, [])]))
    ensures RunPasses([GateCommutationPass], Circuit(n, [GateOp(CNOT, [a]), GateOp(RZ(theta), [a])]))
         == Some(Circuit(n, [GateOp(RZ(theta), [a]), GateOp(CNOT, [a])]))
  {
    GateCommutation.LoneGateWithoutQubits(H);
    GateCommutation.RzCrossesShortCX(a, theta);
    RunOne(GateCommutationPass, Circuit(n, [GateOp(H, [])]));
    RunOne(GateCommutationPass, Circuit(n, [GateOp(CNOT, [a]), GateOp(RZ(theta), [a])]));
  }

  /** The cancellation passes and the measurement pass never throw on qubit and bit indices below the qubit count. */
  lemma {:induction false} CleanupPipelineRuns(ps: seq<Pass>, c: Circuit)
    requires forall k :: 0 <= k < |ps| ==> ps[k] in {CancelDoubleXPass, CancelDoubleHPass, CancelDoubleZPass, RemoveRedundantMeasurementPass}
    requires RemoveRedundantMeasurement.InRange(c.numQubits, c.instructions)
    ensures RunPasses(ps, c).Some?
    ensures RemoveRedundantMeasurement.InRange(c.numQubits, RunPasses(ps, c).value.instructions)
    decreases |ps|
  {
    if |ps| > 0 {
      var d := Transform(ps[0], c);
      CleanupKeepsRange(ps[0], c);
      CleanupPipelineRuns(ps[1..], d);
    }
  }

  lemma CleanupKeepsRange(p: Pass, c: Circuit)
    requires p in {CancelDoubleXPass, CancelDoubleHPass, CancelDoubleZPass, RemoveRedundantMeasurementPass}
    requires RemoveRedundantMeasurement.InRange(c.numQubits, c.instructions)
    ensures Accepts(p, c)
    ensures RemoveRedundantMeasurement.InRange(c.numQubits, Transform(p, c).instructions)
  {
    var s := c.instructions;
    var r := Transform(p, c).instructions;
    if p == RemoveRedundantMeasurementPass {
      RemoveRedundantMeasurement.DedupSubset(s);
    } else {
      var g := if p == CancelDoubleXPass then X else if p == CancelDoubleHPass then H else Z;
      CancelPairs.CancelSubset(g, s);
    }
    assert forall k :: 0 <= k < |r| ==> r[k] in s;
  }

  /**
   * X, X, H, H, Z, Z, MEASURE(q, q), MEASURE(q, q) through the double-X,
   * double-H and double-Z passes and the measurement pass leaves only
   * MEASURE(q, q).
   */
  lemma CleanupPipelineExample(n: int, q: int)
    requires 0 <= q < n
    ensures RunPasses([CancelDoubleXPass, CancelDoubleHPass, CancelDoubleZPass, RemoveRedundantMeasurementPass],
                      Circuit(n, [GateOp(X, [q]), GateOp(X, [q]), GateOp(H, [q]), GateOp(H, [q]),
                                  GateOp(Z, [q]), GateOp(Z, [q]), MeasureOp(q, q), MeasureOp(q, q)]))
         == Some(Circuit(n, [MeasureOp(q, q)]))
  {
    var m := MeasureOp(q, q);
    var t := [m, m];
    var last := [RemoveRedundantMeasurementPass];
    PeelThree(last, n, q, t);
    assert RunPasses(last, Circuit(n, t)) == Some(Circuit(n, [m])) by {
      RemoveRedundantMeasurement.RepeatDropped(q, q);
      RunOne(RemoveRedundantMeasurementPass, Circuit(n, t));
    }
    PipelineShape(q, t);
  }

  /** The four-pass list and the eight-instruction list, grouped as the pass-by-pass proof peels them. */
  lemma PipelineShape(q: int, t: seq<Instruction>)
    ensures [CancelDoubleXPass, CancelDoubleHPass, CancelDoubleZPass, RemoveRedundantMeasurementPass]
         == [CancelDoubleXPass] + ([CancelDoubleHPass] + ([CancelDoubleZPass] + [RemoveRedundantMeasurementPass]))
    ensures [GateOp(X, [q]), GateOp(X, [q]), GateOp(H, [q]), GateOp(H, [q]), GateOp(Z, [q]), GateOp(Z, [q])] + t
         == [GateOp(X, [q]), GateOp(X, [q])] + ([GateOp(H, [q]), GateOp(H, [q])] + ([GateOp(Z, [q]), GateOp(Z, [q])] + t))
    ensures t == [MeasureOp(q, q), MeasureOp(q, q)] ==>
      [GateOp(X, [q]), GateOp(X, [q]), GateOp(H, [q]), GateOp(H, [q]), GateOp(Z, [q]), GateOp(Z, [q])] + t
      == [GateOp(X, [q]), GateOp(X, [q]), GateOp(H, [q]), GateOp(H, [q]),
          GateOp(Z, [q]), GateOp(Z, [q]), MeasureOp(q, q), MeasureOp(q, q)]
  {
  }

  /** The double-X, double-H and double-Z passes remove X X H H Z Z on one qubit from the front of a list of measurements. */
  lemma PeelThree(rest: seq<Pass>, n: int, q: int, t: seq<Instruction>)
    requires forall k :: 0 <= k < |t| ==> t[k].MeasureOp?
    ensures RunPasses([CancelDoubleXPass] + ([CancelDoubleHPass] + ([CancelDoubleZPass] + rest)),
                      Circuit(n, [GateOp(X, [q]), GateOp(X, [q])] + ([GateOp(H, [q]), GateOp(H, [q])] + ([GateOp(Z, [q]), GateOp(Z, [q])] + t))))
         == RunPasses(rest, Circuit(n, t))
  {
    var s2 := [GateOp(Z, [q]), GateOp(Z, [q])] + t;
    var s1 := [GateOp(H, [q]), GateOp(H, [q])] + s2;
    PeelStep(CancelDoubleZPass, Z, rest, n, q, t);
    PeelStep(CancelDoubleHPass, H, [CancelDoubleZPass] + rest, n, q, s2);
    PeelStep(CancelDoubleXPass, X, [CancelDoubleHPass] + ([CancelDoubleZPass] + rest), n, q, s1);
  }

  /** A cancellation pass for g removes G(q), G(q) from the front of a list free of g. */
  lemma PeelStep(p: Pass, g: Gate, rest: seq<Pass>, n: int, q: int, t: seq<Instruction>)
    requires (p == CancelDoubleXPass && g == X) || (p == CancelDoubleHPass && g == H) || (p == CancelDoubleZPass && g == Z)
    requires forall k :: 0 <= k < |t| ==> !CancelPairs.IsTarget(g, t[k])
    ensures RunPasses([p] + rest, Circuit(n, [GateOp(g, [q]), GateOp(g, [q])] + t)) == RunPasses(rest, Circuit(n, t))
  {
    var s := [GateOp(g, [q]), GateOp(g, [q])] + t;
    assert s[0..] == s && s[2..] == t;
    CancelPairs.DropAt(g, s, 0);
    CancelPairs.NoneOf(g, t);
    assert ([p] + rest)[1..] == rest;
  }
}
