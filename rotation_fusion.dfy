/**
 * RotationFusionPass: the output list is used as a stack. An RX, RY or RZ
 * with the same axis and the same single qubit as the rotation on top of the
 * stack replaces it by one rotation through the summed angle, or removes it
 * when the sum is within 1e-12 of zero; anything else is pushed. Angles are
 * exact reals, so the tolerance test is an exact comparison.
 */
module RotationFusion {
  import opened Gates
  import opened Circuits

  /** `EPS`, 1e-12. */
  const EPS: real := 0.000000000001

  function Abs(x: real): real
  {
    if x < 0.0 then -x else x
  }

  predicate IsRotation(i: Instruction)
  {
    i.GateOp? && (i.gate.RZ? || i.gate.RX? || i.gate.RY?)
  }

  predicate NotRotation(i: Instruction)
  {
    !IsRotation(i)
  }

  /** `getTheta`. */
  function Theta(i: Instruction): real
    requires IsRotation(i)
  {
    i.gate.theta
  }

  /** `sameAxis`: both RZ, both RX or both RY. */
  predicate SameAxis(a: Instruction, b: Instruction)
  {
    a.GateOp? && b.GateOp? &&
    ((a.gate.RZ? && b.gate.RZ?) || (a.gate.RX? && b.gate.RX?) || (a.gate.RY? && b.gate.RY?))
  }

  /** `sameQubit`: both act on exactly one qubit, the same one. */
  predicate SameQubit(a: Instruction, b: Instruction)
  {
    |GetQubits(a)| == 1 && |GetQubits(b)| == 1 && GetQubits(a)[0] == GetQubits(b)[0]
  }

  /** `makeRotation`: a rotation of like's axis through theta on like's first qubit. */
  function MakeRotation(like: Instruction, theta: real): (r: Instruction)
    requires IsRotation(like) && |like.qubits| >= 1
    ensures IsRotation(r) && SameAxis(r, like) && Theta(r) == theta && r.qubits == [like.qubits[0]]
  {
    var q := like.qubits[0];
    if like.gate.RZ? then GateOp(RZ(theta), [q])
    else if like.gate.RX? then GateOp(RX(theta), [q])
    else GateOp(RY(theta), [q])
  }

  /** The two instructions fuse: a rotation onto a rotation of the same axis on the same qubit. */
  predicate Fusable(prev: Instruction, i: Instruction)
  {
    IsRotation(i) && SameAxis(prev, i) && SameQubit(prev, i)
  }

  /** One iteration of the loop. */
  function Step(out: seq<Instruction>, i: Instruction): seq<Instruction>
  {
    if |out| > 0 && Fusable(out[|out| - 1], i) then
      var prev := out[|out| - 1];
      var fused := Theta(prev) + Theta(i);
      if Abs(fused) < EPS then out[..|out| - 1] else out[..|out| - 1] + [MakeRotation(prev, fused)]
    else
      out + [Copy(i)]
  }

  /** The stack after the whole input. */
  function Fuse(s: seq<Instruction>): seq<Instruction>
  {
    if |s| == 0 then [] else Step(Fuse(s[..|s| - 1]), s[|s| - 1])
  }

  method Apply(c: Circuit) returns (r: Circuit)
    ensures r == Circuit(c.numQubits, Fuse(c.instructions))
  {
    var instructions := c.instructions;
    var out: seq<Instruction> := [];
    for k := 0 to |instructions|
      invariant out == Fuse(instructions[..k])
    {
      assert instructions[..k + 1][..k] == instructions[..k];
      var inst := instructions[k];
      if IsRotation(inst) {
        if |out| > 0 && SameAxis(out[|out| - 1], inst) && SameQubit(out[|out| - 1], inst) {
          var prev := out[|out| - 1];
          out := out[..|out| - 1];
          var fused := Theta(prev) + Theta(inst);
          if Abs(fused) < EPS {
            continue;
          }
          out := out + [MakeRotation(prev, fused)];
          continue;
        }
        out := out + [Copy(inst)];
      } else {
        out := out + [Copy(inst)];
      }
    }
    assert instructions[..|instructions|] == instructions;
    r := Circuit(c.numQubits, out);
  }

  // ---------------------------------------------------------------- properties

  /** No two adjacent instructions of the output fuse. */
  predicate Reduced(s: seq<Instruction>)
  {
    forall k :: 0 <= k < |s| - 1 ==> !Fusable(s[k], s[k + 1])
  }

  lemma StepReduced(out: seq<Instruction>, i: Instruction)
    requires Reduced(out)
    ensures Reduced(Step(out, i))
  {
    if |out| > 0 && Fusable(out[|out| - 1], i) {
      var n := |out|;
      var prev := out[n - 1];
      var fused := Theta(prev) + Theta(i);
      if Abs(fused) >= EPS {
        var r := out[..n - 1] + [MakeRotation(prev, fused)];
        assert r == Step(out, i);
        if n >= 2 {
          // the fused rotation has prev's axis and qubit, and out[n-2] did not fuse with prev
          assert !Fusable(out[n - 2], prev);
          assert r[n - 2] == out[n - 2];
        }
        forall k | 0 <= k < |r| - 1
          ensures !Fusable(r[k], r[k + 1])
        {
          if k < n - 2 {
            assert r[k] == out[k] && r[k + 1] == out[k + 1];
          }
        }
      }
    }
  }

  /** The loop invariant: the output never holds two adjacent fusable rotations. */
  lemma {:induction false} FuseReduced(s: seq<Instruction>)
    ensures Reduced(Fuse(s))
  {
    if |s| > 0 {
      FuseReduced(s[..|s| - 1]);
      StepReduced(Fuse(s[..|s| - 1]), s[|s| - 1]);
    }
  }

  /** A reduced circuit passes through unchanged. */
  lemma {:induction false} FuseReducedIdentity(s: seq<Instruction>)
    requires Reduced(s)
    ensures Fuse(s) == s
  {
    if |s| > 0 {
      var p := s[..|s| - 1];
      assert Reduced(p);
      FuseReducedIdentity(p);
      if |p| > 0 {
        assert p[|p| - 1] == s[|s| - 2];
      }
      assert s == p + [s[|s| - 1]];
    }
  }

  /** Running the pass twice gives what running it once gives. */
  lemma Idempotent(s: seq<Instruction>)
    ensures Fuse(Fuse(s)) == Fuse(s)
  {
    FuseReduced(s);
    FuseReducedIdentity(Fuse(s));
  }

  /** A well-formed input gives a well-formed output. */
  lemma {:induction false} FuseWellFormed(s: seq<Instruction>)
    requires WellFormed(s)
    ensures WellFormed(Fuse(s))
  {
    if |s| > 0 {
      var p := s[..|s| - 1];
      var i := s[|s| - 1];
      assert WellFormed(p) by {
        forall k | 0 <= k < |p| && p[k].GateOp?
          ensures |p[k].qubits| == Arity(p[k].gate)
        {
          assert p[k] == s[k];
        }
      }
      FuseWellFormed(p);
      var out := Fuse(p);
      if |out| > 0 && Fusable(out[|out| - 1], i) {
        var prev := out[|out| - 1];
        assert WellFormed(out[..|out| - 1]);
        WellFormedAppend(out[..|out| - 1], [MakeRotation(prev, Theta(prev) + Theta(i))]);
      } else {
        WellFormedAppend(out, [Copy(i)]);
      }
    }
  }

  /** The output is never longer than the input. */
  lemma {:induction false} FuseLength(s: seq<Instruction>)
    ensures |Fuse(s)| <= |s|
  {
    if |s| > 0 {
      FuseLength(s[..|s| - 1]);
    }
  }

  lemma StepKeepsOthers(out: seq<Instruction>, i: Instruction)
    ensures Filter(Step(out, i), NotRotation) == Filter(out, NotRotation) + Filter([i], NotRotation)
  {
    assert [i][..0] == [];
    if |out| > 0 && Fusable(out[|out| - 1], i) {
      var n := |out|;
      var prev := out[n - 1];
      assert out[..n - 1] + [prev] == out;
      FilterAppend(out[..n - 1], [prev], NotRotation);
      assert [prev][..0] == [];
      var fused := Theta(prev) + Theta(i);
      if Abs(fused) >= EPS {
        var m := MakeRotation(prev, fused);
        FilterAppend(out[..n - 1], [m], NotRotation);
        assert [m][..0] == [];
      }
    } else {
      assert Copy(i) == i;
      FilterAppend(out, [i], NotRotation);
    }
  }

  /** Non-rotation instructions are kept, unchanged and in their order. */
  lemma {:induction false} FuseKeepsOthers(s: seq<Instruction>)
    ensures Filter(Fuse(s), NotRotation) == Filter(s, NotRotation)
  {
    if |s| > 0 {
      var p := s[..|s| - 1];
      FuseKeepsOthers(p);
      StepKeepsOthers(Fuse(p), s[|s| - 1]);
      FilterAppend(p, [s[|s| - 1]], NotRotation);
      SplitLast(s);
    }
  }

  /** Rotations on different axes, or on different qubits, are pushed side by side. */
  lemma NoFusionAcross(out: seq<Instruction>, i: Instruction)
    requires |out| > 0 && IsRotation(i)
    requires !SameAxis(out[|out| - 1], i) || !SameQubit(out[|out| - 1], i)
    ensures Step(out, i) == out + [i]
  {
  }

  /** An instruction that does not fuse with the top of the stack is pushed as it is. */
  lemma FusePushes(p: seq<Instruction>, i: Instruction)
    requires |Fuse(p)| == 0 || !Fusable(Fuse(p)[|Fuse(p)| - 1], i)
    ensures Fuse(p + [i]) == Fuse(p) + [i]
  {
    FuseSnoc(p, i);
    assert Copy(i) == i;
  }

  /** A rotation that fuses with the top of the stack to an angle outside the tolerance replaces it. */
  lemma FuseMerges(p: seq<Instruction>, i: Instruction)
    requires |Fuse(p)| > 0 && Fusable(Fuse(p)[|Fuse(p)| - 1], i)
    requires Abs(Theta(Fuse(p)[|Fuse(p)| - 1]) + Theta(i)) >= EPS
    ensures Fuse(p + [i]) == Fuse(p)[..|Fuse(p)| - 1] + [MakeRotation(Fuse(p)[|Fuse(p)| - 1], Theta(Fuse(p)[|Fuse(p)| - 1]) + Theta(i))]
  {
    FuseSnoc(p, i);
  }

  /** A rotation that fuses with the top of the stack to an angle within the tolerance removes it. */
  lemma FuseCancels(p: seq<Instruction>, i: Instruction)
    requires |Fuse(p)| > 0 && Fusable(Fuse(p)[|Fuse(p)| - 1], i)
    requires Abs(Theta(Fuse(p)[|Fuse(p)| - 1]) + Theta(i)) < EPS
    ensures Fuse(p + [i]) == Fuse(p)[..|Fuse(p)| - 1]
  {
    FuseSnoc(p, i);
  }

  lemma FuseSnoc(p: seq<Instruction>, i: Instruction)
    ensures Fuse(p + [i]) == Step(Fuse(p), i)
  {
    assert (p + [i])[..|p|] == p;
  }

  /** The two-gate input RX(q, a), RZ(q, b) is kept as it is. */
  lemma DifferentAxesStay(q: int, a: real, b: real)
    ensures Fuse([GateOp(RX(a), [q]), GateOp(RZ(b), [q])]) == [GateOp(RX(a), [q]), GateOp(RZ(b), [q])]
  {
    var x, z := GateOp(RX(a), [q]), GateOp(RZ(b), [q]);
    FuseSnoc([], x);
    FuseSnoc([x], z);
    assert !Fusable(x, z);
  }

  /** RY 0.1, 0.2, 0.3, -0.1 on one qubit fuse to the single RY(0.5). */
  lemma ChainFuses(q: int)
    ensures Fuse([GateOp(RY(0.1), [q]), GateOp(RY(0.2), [q]), GateOp(RY(0.3), [q]), GateOp(RY(-0.1), [q])])
         == [GateOp(RY(0.5), [q])]
  {
    var a, b, c, d := GateOp(RY(0.1), [q]), GateOp(RY(0.2), [q]), GateOp(RY(0.3), [q]), GateOp(RY(-0.1), [q]);
    FuseSnoc([], a);
    assert [] + [a] == [a] && Copy(a) == a;
    FuseSnoc([a], b);
    assert [a] + [b] == [a, b];
    assert Fuse([a, b]) == [GateOp(RY(0.3), [q])];
    FuseSnoc([a, b], c);
    assert [a, b] + [c] == [a, b, c];
    assert Fuse([a, b, c]) == [GateOp(RY(0.6), [q])];
    FuseSnoc([a, b, c], d);
    assert [a, b, c] + [d] == [a, b, c, d];
  }

  /**
   * A cancellation exposes the rotation below it: RX(a), RZ(b), RZ(-b), RX(c)
   * on one qubit becomes the single RX(a + c), or nothing when a + c is
   * within the tolerance.
   */
  lemma CancellationExposes(q: int, a: real, b: real, c: real)
    ensures Fuse([GateOp(RX(a), [q]), GateOp(RZ(b), [q]), GateOp(RZ(-b), [q]), GateOp(RX(c), [q])])
         == if Abs(a + c) < EPS then [] else [GateOp(RX(a + c), [q])]
  {
    var w, x, y, z := GateOp(RX(a), [q]), GateOp(RZ(b), [q]), GateOp(RZ(-b), [q]), GateOp(RX(c), [q]);
    ExposeThree(q, a, b);
    FuseSnoc([w, x, y], z);
    assert [w, x, y] + [z] == [w, x, y, z];
    assert Fusable(w, z);
  }

  /** RX(a), RZ(b), RZ(-b): the two RZ cancel and leave RX(a) on top. */
  lemma ExposeThree(q: int, a: real, b: real)
    ensures Fuse([GateOp(RX(a), [q]), GateOp(RZ(b), [q]), GateOp(RZ(-b), [q])]) == [GateOp(RX(a), [q])]
  {
    var w, x, y := GateOp(RX(a), [q]), GateOp(RZ(b), [q]), GateOp(RZ(-b), [q]);
    ExposeTwo(q, a, b);
    FuseSnoc([w, x], y);
    assert [w, x] + [y] == [w, x, y];
    assert Fusable(x, y) && Theta(x) + Theta(y) == 0.0;
    assert [w, x][..1] == [w];
  }

  /** RX(a), RZ(b) on one qubit do not fuse. */
  lemma ExposeTwo(q: int, a: real, b: real)
    ensures Fuse([GateOp(RX(a), [q]), GateOp(RZ(b), [q])]) == [GateOp(RX(a), [q]), GateOp(RZ(b), [q])]
  {
    var w, x := GateOp(RX(a), [q]), GateOp(RZ(b), [q]);
    FuseSnoc([], w);
    assert [] + [w] == [w] && Copy(w) == w;
    FuseSnoc([w], x);
    assert [w] + [x] == [w, x] && Copy(x) == x;
    assert !Fusable(w, x);
  }

}
