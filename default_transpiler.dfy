/**
 * DefaultTranspiler: a PassManager holding SwapDecompositionPass,
 * CXCancellationPass, U3DecompositionPass and RotationFusionPass, in that
 * order, run on the circuit.
 */
module DefaultTranspiler {
  import opened Wrappers
  import opened Gates
  import opened Circuits
  import opened Transpiler
  import SD = SwapDecomposition
  import CXC = CXCancellation
  import U3D = U3Decomposition
  import RF = RotationFusion

  /** The four passes, in the order `transpile` adds them. */
  const Pipeline: seq<Pass> := [SwapDecompositionPass, CXCancellationPass, U3DecompositionPass, RotationFusionPass]

  /** `transpile(c)`: None when a pass throws. */
  function Transpile(c: Circuit): Option<Circuit>
  {
    RunPasses(Pipeline, c)
  }

  /** Every pass accepts what the passes before it produced from a well-formed list. */
  lemma StagesReady(s: seq<Instruction>)
    requires WellFormed(s)
    ensures SD.Ready(s)
    ensures CXC.Ready(SD.Decompose(s))
    ensures U3D.Ready(CXC.Cancel(SD.Decompose(s)))
    ensures WellFormed(RF.Fuse(U3D.Decompose(CXC.Cancel(SD.Decompose(s)))))
  {
    SD.DecomposeWellFormed(s);
    CXC.CancelWellFormed(SD.Decompose(s));
    U3D.DecomposeWellFormed(CXC.Cancel(SD.Decompose(s)));
    RF.FuseWellFormed(U3D.Decompose(CXC.Cancel(SD.Decompose(s))));
  }

  /**
   * On a well-formed circuit no pass throws, the qubit count stays, and the
   * result is the rotation fusion of the U decomposition of the CX
   * cancellation of the SWAP decomposition: the passes run in insertion
   * order. The result is well formed again.
   */
  lemma Stages(c: Circuit)
    requires WellFormed(c.instructions)
    ensures SD.Ready(c.instructions) && CXC.Ready(SD.Decompose(c.instructions))
    ensures U3D.Ready(CXC.Cancel(SD.Decompose(c.instructions)))
    ensures Transpile(c) == Some(Circuit(c.numQubits, RF.Fuse(U3D.Decompose(CXC.Cancel(SD.Decompose(c.instructions))))))
    ensures WellFormed(Transpile(c).value.instructions)
  {
    StagesReady(c.instructions);
    StagesRun(c);
  }

  /** The passes run in insertion order whenever none of them throws. */
  lemma StagesRun(c: Circuit)
    requires SD.Ready(c.instructions) && CXC.Ready(SD.Decompose(c.instructions))
    requires U3D.Ready(CXC.Cancel(SD.Decompose(c.instructions)))
    ensures Transpile(c) == Some(Circuit(c.numQubits, RF.Fuse(U3D.Decompose(CXC.Cancel(SD.Decompose(c.instructions))))))
  {
    var n := c.numQubits;
    var d1 := SD.Decompose(c.instructions);
    var d2 := CXC.Cancel(d1);
    var d3 := U3D.Decompose(d2);
    var p3 := [RotationFusionPass];
    PipelineSplit();
    RunOne(RotationFusionPass, Circuit(n, d3));
    PeelU3(n, d2, p3);
    PeelCX(n, d1, [U3DecompositionPass] + p3);
    PeelSwap(c, [CXCancellationPass] + ([U3DecompositionPass] + p3));
  }

  lemma PipelineSplit()
    ensures Pipeline == [SwapDecompositionPass] + ([CXCancellationPass] + ([U3DecompositionPass] + [RotationFusionPass]))
  {
  }

  lemma PeelSwap(c: Circuit, rest: seq<Pass>)
    requires SD.Ready(c.instructions)
    ensures RunPasses([SwapDecompositionPass] + rest, c) == RunPasses(rest, Circuit(c.numQubits, SD.Decompose(c.instructions)))
  {
    assert ([SwapDecompositionPass] + rest)[1..] == rest;
  }

  lemma PeelCX(n: int, s: seq<Instruction>, rest: seq<Pass>)
    requires CXC.Ready(s)
    ensures RunPasses([CXCancellationPass] + rest, Circuit(n, s)) == RunPasses(rest, Circuit(n, CXC.Cancel(s)))
  {
    CXC.ReadyCompletes(s);
    assert ([CXCancellationPass] + rest)[1..] == rest;
  }

  lemma PeelU3(n: int, s: seq<Instruction>, rest: seq<Pass>)
    requires U3D.Ready(s)
    ensures RunPasses([U3DecompositionPass] + rest, Circuit(n, s)) == RunPasses(rest, Circuit(n, U3D.Decompose(s)))
  {
    assert ([U3DecompositionPass] + rest)[1..] == rest;
  }

  /** Transpile, from the result of each pass in turn. */
  lemma TranspileBy(c: Circuit, d1: seq<Instruction>, d2: seq<Instruction>, d3: seq<Instruction>, r: seq<Instruction>)
    requires SD.Ready(c.instructions) && SD.Decompose(c.instructions) == d1
    requires CXC.Ready(d1) && CXC.Cancel(d1) == d2
    requires U3D.Ready(d2) && U3D.Decompose(d2) == d3
    requires RF.Fuse(d3) == r
    ensures Transpile(c) == Some(Circuit(c.numQubits, r))
  {
    StagesRun(c);
  }

  /** Transpile, for a circuit none of the first three passes changes. */
  lemma Untouched(c: Circuit)
    requires forall k :: 0 <= k < |c.instructions| ==> !SD.IsSwap(c.instructions[k]) && !U3D.IsU(c.instructions[k])
    requires CXC.Ready(c.instructions) && CXC.Reduced(c.instructions)
    ensures Transpile(c) == Some(Circuit(c.numQubits, RF.Fuse(c.instructions)))
  {
    var s := c.instructions;
    SD.DecomposeIdentity(s);
    CXC.CancelReducedIdentity(s);
    U3D.DecomposeIdentity(s);
    TranspileBy(c, s, s, s, RF.Fuse(s));
  }

  /** Stack steps of CX cancellation over CX(a, b), CX(b, a), CX(a, b). */
  lemma CancelThree(a: int, b: int)
    requires a != b
    ensures CXC.Ready([GateOp(CNOT, [a, b]), GateOp(CNOT, [b, a]), GateOp(CNOT, [a, b])])
    ensures CXC.Cancel([GateOp(CNOT, [a, b]), GateOp(CNOT, [b, a]), GateOp(CNOT, [a, b])])
         == [GateOp(CNOT, [a, b]), GateOp(CNOT, [b, a]), GateOp(CNOT, [a, b])]
  {
    var s := [GateOp(CNOT, [a, b]), GateOp(CNOT, [b, a]), GateOp(CNOT, [a, b])];
    assert CXC.Reduced(s) by {
      assert !CXC.SameCX(s[0], s[1]) && !CXC.SameCX(s[1], s[2]);
    }
    CXC.CancelReducedIdentity(s);
  }

  /** CX(a, b), CX(b, a), CX(a, b) twice over cancels from the middle out. */
  lemma CancelMirrored(a: int, b: int)
    requires a != b
    ensures CXC.Ready([GateOp(CNOT, [a, b]), GateOp(CNOT, [b, a]), GateOp(CNOT, [a, b]),
                       GateOp(CNOT, [a, b]), GateOp(CNOT, [b, a]), GateOp(CNOT, [a, b])])
    ensures CXC.Cancel([GateOp(CNOT, [a, b]), GateOp(CNOT, [b, a]), GateOp(CNOT, [a, b]),
                        GateOp(CNOT, [a, b]), GateOp(CNOT, [b, a]), GateOp(CNOT, [a, b])]) == []
  {
    var x, y := GateOp(CNOT, [a, b]), GateOp(CNOT, [b, a]);
    MirroredShape(x, y);
    CXC.PairRemovable([x, y], x, [y, x]);
    CXC.PairRemovable([x], y, [x]);
    CXC.PairRemovable([], x, []);
  }

  /** The regroupings the pair removals of CancelMirrored go through. */
  lemma MirroredShape(x: Instruction, y: Instruction)
    ensures [x, y, x, x, y, x] == [x, y] + [x, x] + [y, x]
    ensures [x, y] + [y, x] == [x] + [y, y] + [x]
    ensures [x] + [x] == [] + [x, x] + []
  {
  }

  /** SWAP(a, b); SWAP(a, b): the six CX the two swaps become cancel, leaving nothing. */
  lemma TwoSwapsCancel(n: int, a: int, b: int)
    requires a != b
    ensures Transpile(Circuit(n, [GateOp(SWAP, [a, b]), GateOp(SWAP, [a, b])])) == Some(Circuit(n, []))
  {
    var x, y := GateOp(CNOT, [a, b]), GateOp(CNOT, [b, a]);
    var sw := GateOp(SWAP, [a, b]);
    SwapsShape(sw, x, y);
    SD.DecomposeOne(sw);
    SD.DecomposeAppend([sw], [sw]);
    CancelMirrored(a, b);
    U3D.DecomposeIdentity([]);
    TranspileBy(Circuit(n, [sw, sw]), [x, y, x, x, y, x], [], [], []);
  }

  lemma SwapsShape(sw: Instruction, x: Instruction, y: Instruction)
    ensures [sw] + [sw] == [sw, sw]
    ensures [x, y, x] + [x, y, x] == [x, y, x, x, y, x]
  {
  }

  /** RZ(q, t1), RZ(q, t2), RZ(q, -(t1 + t2)) fuse to nothing (the test uses 0.1, 0.2, -0.3). */
  lemma RotationsCancel(n: int, q: int, t1: real, t2: real)
    requires RF.Abs(t1 + t2) >= RF.EPS
    ensures Transpile(Circuit(n, [GateOp(RZ(t1), [q]), GateOp(RZ(t2), [q]), GateOp(RZ(-(t1 + t2)), [q])])) == Some(Circuit(n, []))
  {
    var s := [GateOp(RZ(t1), [q]), GateOp(RZ(t2), [q]), GateOp(RZ(-(t1 + t2)), [q])];
    assert CXC.Ready(s) && CXC.Reduced(s);
    Untouched(Circuit(n, s));
    ThreeRotationsFuse(q, t1, t2);
  }

  lemma ThreeRotationsFuse(q: int, t1: real, t2: real)
    requires RF.Abs(t1 + t2) >= RF.EPS
    ensures RF.Fuse([GateOp(RZ(t1), [q]), GateOp(RZ(t2), [q]), GateOp(RZ(-(t1 + t2)), [q])]) == []
  {
    var r1, r2, r3 := GateOp(RZ(t1), [q]), GateOp(RZ(t2), [q]), GateOp(RZ(-(t1 + t2)), [q]);
    Snocs(r1, r2, r3, r3);
    RF.FusePushes([], r1);
    RF.FuseMerges([r1], r2);
    RF.FuseCancels([r1, r2], r3);
  }

  /** SWAP(a, b) decomposes to CX(a, b), CX(b, a), CX(a, b) in front of a list without SWAP. */
  lemma SwapInFront(a: int, b: int, t: seq<Instruction>)
    requires forall k :: 0 <= k < |t| ==> !SD.IsSwap(t[k])
    ensures SD.Decompose([GateOp(SWAP, [a, b])] + t)
         == [GateOp(CNOT, [a, b]), GateOp(CNOT, [b, a]), GateOp(CNOT, [a, b])] + t
  {
    SD.DecomposeOne(GateOp(SWAP, [a, b]));
    SD.DecomposeIdentity(t);
    SD.DecomposeAppend([GateOp(SWAP, [a, b])], t);
  }

  /** CX cancellation over the swap's three CX, CX(a, b) twice, and two other instructions. */
  lemma CancelAfterSwap(a: int, b: int, r1: Instruction, r2: Instruction)
    requires a != b && !CXC.IsCX(r1) && !CXC.IsCX(r2)
    ensures CXC.Ready([GateOp(CNOT, [a, b]), GateOp(CNOT, [b, a]), GateOp(CNOT, [a, b]),
                       GateOp(CNOT, [a, b]), GateOp(CNOT, [a, b]), r1, r2])
    ensures CXC.Cancel([GateOp(CNOT, [a, b]), GateOp(CNOT, [b, a]), GateOp(CNOT, [a, b]),
                        GateOp(CNOT, [a, b]), GateOp(CNOT, [a, b]), r1, r2])
         == [GateOp(CNOT, [a, b]), GateOp(CNOT, [b, a]), GateOp(CNOT, [a, b]), r1, r2]
  {
    var x, y := GateOp(CNOT, [a, b]), GateOp(CNOT, [b, a]);
    AfterSwapShape(x, y, r1, r2);
    CXC.PairRemovable([x, y, x], x, [r1, r2]);
    CXC.NoCXAppend([x, y, x], [r1, r2]);
    CancelThree(a, b);
  }

  lemma AfterSwapShape(x: Instruction, y: Instruction, r1: Instruction, r2: Instruction)
    ensures [x, y, x, x, x, r1, r2] == [x, y, x] + [x, x] + [r1, r2]
    ensures [x, y, x] + [r1, r2] == [x, y, x, r1, r2]
  {
  }

  /**
   * swap(a, b), cx(a, b), cx(a, b), rz(q, t1), rz(q, t2) becomes the three
   * CX of the swap followed by the single RZ(q, t1 + t2): the passes run in
   * their order, the two CX cancel and the rotations fuse (the test uses 0.1
   * and 0.2).
   */
  lemma PassOrderingRespected(n: int, a: int, b: int, q: int, t1: real, t2: real)
    requires a != b && RF.Abs(t1 + t2) >= RF.EPS
    ensures Transpile(Circuit(n, [GateOp(SWAP, [a, b]), GateOp(CNOT, [a, b]), GateOp(CNOT, [a, b]),
                                  GateOp(RZ(t1), [q]), GateOp(RZ(t2), [q])]))
         == Some(Circuit(n, [GateOp(CNOT, [a, b]), GateOp(CNOT, [b, a]), GateOp(CNOT, [a, b]), GateOp(RZ(t1 + t2), [q])]))
  {
    var x, y := GateOp(CNOT, [a, b]), GateOp(CNOT, [b, a]);
    var r1, r2 := GateOp(RZ(t1), [q]), GateOp(RZ(t2), [q]);
    var e := [x, y, x, r1, r2];
    SwapStage(a, b, q, t1, t2);
    CancelAfterSwap(a, b, r1, r2);
    U3D.DecomposeIdentity(e);
    FuseAfterCX(a, b, q, t1, t2);
    TranspileBy(Circuit(n, [GateOp(SWAP, [a, b]), x, x, r1, r2]), [x, y, x, x, x, r1, r2], e, e, [x, y, x, GateOp(RZ(t1 + t2), [q])]);
  }

  /** The swap decomposition stage of that example. */
  lemma SwapStage(a: int, b: int, q: int, t1: real, t2: real)
    ensures SD.Ready([GateOp(SWAP, [a, b]), GateOp(CNOT, [a, b]), GateOp(CNOT, [a, b]), GateOp(RZ(t1), [q]), GateOp(RZ(t2), [q])])
    ensures SD.Decompose([GateOp(SWAP, [a, b]), GateOp(CNOT, [a, b]), GateOp(CNOT, [a, b]), GateOp(RZ(t1), [q]), GateOp(RZ(t2), [q])])
         == [GateOp(CNOT, [a, b]), GateOp(CNOT, [b, a]), GateOp(CNOT, [a, b]), GateOp(CNOT, [a, b]), GateOp(CNOT, [a, b]), GateOp(RZ(t1), [q]), GateOp(RZ(t2), [q])]
  {
    var x, y := GateOp(CNOT, [a, b]), GateOp(CNOT, [b, a]);
    var r1, r2 := GateOp(RZ(t1), [q]), GateOp(RZ(t2), [q]);
    var sw := GateOp(SWAP, [a, b]);
    OrderShape(sw, x, y, r1, r2);
    SwapInFront(a, b, [x, x, r1, r2]);
  }

  lemma OrderShape(sw: Instruction, x: Instruction, y: Instruction, r1: Instruction, r2: Instruction)
    ensures [sw] + [x, x, r1, r2] == [sw, x, x, r1, r2]
    ensures [x, y, x] + [x, x, r1, r2] == [x, y, x, x, x, r1, r2]
  {
  }

  lemma CXShape(x: Instruction, y: Instruction, r1: Instruction, r2: Instruction)
    ensures [x, y, x, r1] + [r2] == [x, y, x, r1, r2]
    ensures [x, y, x, r1][..3] == [x, y, x]
  {
  }

  lemma FuseAfterCX(a: int, b: int, q: int, t1: real, t2: real)
    requires RF.Abs(t1 + t2) >= RF.EPS
    ensures RF.Fuse([GateOp(CNOT, [a, b]), GateOp(CNOT, [b, a]), GateOp(CNOT, [a, b]), GateOp(RZ(t1), [q]), GateOp(RZ(t2), [q])])
         == [GateOp(CNOT, [a, b]), GateOp(CNOT, [b, a]), GateOp(CNOT, [a, b]), GateOp(RZ(t1 + t2), [q])]
  {
    var x, y := GateOp(CNOT, [a, b]), GateOp(CNOT, [b, a]);
    var r1, r2 := GateOp(RZ(t1), [q]), GateOp(RZ(t2), [q]);
    var f := [x, y, x, r1];
    assert RF.Reduced(f);
    RF.FuseReducedIdentity(f);
    RF.FuseMerges(f, r2);
    CXShape(x, y, r1, r2);
  }

  /** Transpiling that output again changes nothing. */
  lemma PipelineStable(n: int, a: int, b: int, q: int, t: real)
    requires a != b
    ensures Transpile(Circuit(n, [GateOp(CNOT, [a, b]), GateOp(CNOT, [b, a]), GateOp(CNOT, [a, b]), GateOp(RZ(t), [q])]))
         == Some(Circuit(n, [GateOp(CNOT, [a, b]), GateOp(CNOT, [b, a]), GateOp(CNOT, [a, b]), GateOp(RZ(t), [q])]))
  {
    var s := [GateOp(CNOT, [a, b]), GateOp(CNOT, [b, a]), GateOp(CNOT, [a, b]), GateOp(RZ(t), [q])];
    assert CXC.Ready(s) && CXC.Reduced(s);
    Untouched(Circuit(n, s));
    assert RF.Reduced(s);
    RF.FuseReducedIdentity(s);
  }

  /** Rotation fusion removes RZ(q, t), RZ(q, -t) from between two CX(a, b). */
  lemma FusionJoinsCX(a: int, b: int, q: int, t: real)
    ensures RF.Fuse([GateOp(CNOT, [a, b]), GateOp(RZ(t), [q]), GateOp(RZ(-t), [q]), GateOp(CNOT, [a, b])])
         == [GateOp(CNOT, [a, b]), GateOp(CNOT, [a, b])]
  {
    var x, r1, r2 := GateOp(CNOT, [a, b]), GateOp(RZ(t), [q]), GateOp(RZ(-t), [q]);
    Snocs(x, r1, r2, x);
    RF.FusePushes([], x);
    RF.FusePushes([x], r1);
    RF.FuseCancels([x, r1], r2);
    RF.FusePushes([x, r1, r2], x);
  }

  /**
   * The pipeline is not idempotent: in CX(a, b), RZ(q, t), RZ(q, -t),
   * CX(a, b) the two CX are not neighbours when CX cancellation runs, and
   * become neighbours only when rotation fusion removes the rotations, so a
   * second run removes them.
   */
  lemma SecondRunCanChange(n: int, a: int, b: int, q: int, t: real)
    ensures Transpile(Circuit(n, [GateOp(CNOT, [a, b]), GateOp(RZ(t), [q]), GateOp(RZ(-t), [q]), GateOp(CNOT, [a, b])]))
         == Some(Circuit(n, [GateOp(CNOT, [a, b]), GateOp(CNOT, [a, b])]))
    ensures Transpile(Circuit(n, [GateOp(CNOT, [a, b]), GateOp(CNOT, [a, b])])) == Some(Circuit(n, []))
  {
    var x, r1, r2 := GateOp(CNOT, [a, b]), GateOp(RZ(t), [q]), GateOp(RZ(-t), [q]);
    var s := [x, r1, r2, x];
    assert CXC.Ready(s) && CXC.Reduced(s);
    Untouched(Circuit(n, s));
    FusionJoinsCX(a, b, q, t);
    AdjacentCXCancel(n, a, b);
  }

  /** CX(a, b), CX(a, b) transpiles to nothing. */
  lemma AdjacentCXCancel(n: int, a: int, b: int)
    ensures Transpile(Circuit(n, [GateOp(CNOT, [a, b]), GateOp(CNOT, [a, b])])) == Some(Circuit(n, []))
  {
    var x := GateOp(CNOT, [a, b]);
    NoSwapTwice(a, b);
    CXPairCancels(a, b);
    U3D.DecomposeIdentity([]);
    TranspileBy(Circuit(n, [x, x]), [x, x], [], [], []);
  }

  lemma NoSwapTwice(a: int, b: int)
    ensures SD.Decompose([GateOp(CNOT, [a, b]), GateOp(CNOT, [a, b])]) == [GateOp(CNOT, [a, b]), GateOp(CNOT, [a, b])]
  {
    SD.DecomposeIdentity([GateOp(CNOT, [a, b]), GateOp(CNOT, [a, b])]);
  }

  lemma CXPairCancels(a: int, b: int)
    ensures CXC.Ready([GateOp(CNOT, [a, b]), GateOp(CNOT, [a, b])])
    ensures CXC.Cancel([GateOp(CNOT, [a, b]), GateOp(CNOT, [a, b])]) == []
  {
    var x := GateOp(CNOT, [a, b]);
    CXC.PairRemovable([], x, []);
    MirroredShape(x, x);
  }

  /**
   * U3(q; θ, φ, λ), U1(q; -λ) through U3 decomposition and then rotation
   * fusion: the closing RZ(λ) of the five rotations and the RZ(-λ) of the U1
   * cancel, leaving four gates (the test uses 0.1, 0.2, 0.3).
   */
  lemma DecompositionBeforeFusion(q: int, theta: real, phi: real, lambda: real)
    ensures U3D.Ready([GateOp(U3(theta, phi, lambda), [q]), GateOp(U1(-lambda), [q])])
    ensures RF.Fuse(U3D.Decompose([GateOp(U3(theta, phi, lambda), [q]), GateOp(U1(-lambda), [q])]))
         == U3D.Rotations(q, theta, phi, lambda)[..4]
  {
    DecomposeU3U1(q, theta, phi, lambda);
    FuseUndoesLast(q, theta, phi, lambda);
  }

  lemma DecomposeU3U1(q: int, theta: real, phi: real, lambda: real)
    ensures U3D.Ready([GateOp(U3(theta, phi, lambda), [q]), GateOp(U1(-lambda), [q])])
    ensures U3D.Decompose([GateOp(U3(theta, phi, lambda), [q]), GateOp(U1(-lambda), [q])])
         == U3D.Rotations(q, theta, phi, lambda) + [GateOp(RZ(-lambda), [q])]
  {
    var u3, u1 := GateOp(U3(theta, phi, lambda), [q]), GateOp(U1(-lambda), [q]);
    U3D.DecomposeOne(q, theta, phi, lambda);
    assert [u3, u1][..1] == [u3];
    assert U3D.Expand(u1) == [GateOp(RZ(-lambda), [q])];
  }

  lemma FuseUndoesLast(q: int, theta: real, phi: real, lambda: real)
    ensures RF.Fuse(U3D.Rotations(q, theta, phi, lambda) + [GateOp(RZ(-lambda), [q])]) == U3D.Rotations(q, theta, phi, lambda)[..4]
  {
    var rs := U3D.Rotations(q, theta, phi, lambda);
    var last := GateOp(RZ(-lambda), [q]);
    RotationsReduced(q, theta, phi, lambda);
    RF.FuseReducedIdentity(rs);
    RF.FuseCancels(rs, last);
    assert rs[..4] == rs[..|rs| - 1];
  }

  /** No two neighbours of the five rotations fuse. */
  lemma RotationsReduced(q: int, theta: real, phi: real, lambda: real)
    ensures RF.Reduced(U3D.Rotations(q, theta, phi, lambda))
  {
    var rs := U3D.Rotations(q, theta, phi, lambda);
    forall k | 0 <= k < |rs| - 1
      ensures !RF.Fusable(rs[k], rs[k + 1])
    {
      assert !RF.SameAxis(rs[k], rs[k + 1]);
    }
  }
}
