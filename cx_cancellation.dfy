/**
 * CXCancellationPass: the output list is used as a stack. A CX equal in
 * (control, target) to the CX on top of the stack pops it and is itself
 * dropped; every other instruction is pushed. So a removal can expose an
 * earlier CX, which a later identical CX then cancels.
 */
module CXCancellation {
  import opened Gates
  import opened Circuits

  /** `isCX`: a gate instruction of the StandardGates CNOT class. */
  predicate IsCX(i: Instruction)
  {
    i.GateOp? && i.gate == CNOT
  }

  predicate NotCX(i: Instruction)
  {
    !IsCX(i)
  }

  /** Every CX holds at least its two qubits: enough for the pass never to throw. */
  predicate Ready(s: seq<Instruction>)
  {
    forall k :: 0 <= k < |s| && IsCX(s[k]) ==> |s[k].qubits| >= 2
  }

  /**
   * Two CX with the same control and the same target. Where Java's
   * comparison would read past a short array (see Throws) the pair is not
   * equal here; the pass reports that case through Fails.
   */
  predicate SameCX(a: Instruction, b: Instruction)
  {
    IsCX(a) && IsCX(b) && |a.qubits| >= 2 && |b.qubits| >= 2
    && a.qubits[0] == b.qubits[0] && a.qubits[1] == b.qubits[1]
  }

  /**
   * `pq[0] == q[0] && pq[1] == q[1]` with prev on top of the stack and i
   * the incoming CX: it throws when either array is empty, and when the
   * first indices agree and either array has no second entry.
   */
  predicate Throws(prev: Instruction, i: Instruction)
  {
    IsCX(prev) && IsCX(i)
    && (|prev.qubits| == 0 || |i.qubits| == 0
        || (prev.qubits[0] == i.qubits[0] && (|prev.qubits| < 2 || |i.qubits| < 2)))
  }

  /** One iteration: pop on a matching CX, push a copy otherwise. */
  function Step(out: seq<Instruction>, i: Instruction): seq<Instruction>
  {
    if |out| > 0 && SameCX(out[|out| - 1], i) then out[..|out| - 1] else out + [Copy(i)]
  }

  /** The iteration for i throws: the comparison reads past an array. */
  predicate StepFails(out: seq<Instruction>, i: Instruction)
  {
    |out| > 0 && Throws(out[|out| - 1], i)
  }

  lemma StepReady(out: seq<Instruction>, i: Instruction)
    requires Ready(out) && (IsCX(i) ==> |i.qubits| >= 2)
    ensures Ready(Step(out, i))
  {
  }

  /** The stack after the whole input. */
  function Cancel(s: seq<Instruction>): (r: seq<Instruction>)
    ensures Ready(s) ==> Ready(r)
  {
    if |s| == 0 then [] else
      var p := Cancel(s[..|s| - 1]);
      StepKeepsReady(s, p);
      Step(p, s[|s| - 1])
  }

  lemma StepKeepsReady(s: seq<Instruction>, p: seq<Instruction>)
    requires |s| > 0 && (Ready(s[..|s| - 1]) ==> Ready(p))
    ensures Ready(s) ==> Ready(Step(p, s[|s| - 1]))
  {
    if Ready(s) {
      ReadyPrefix(s, |s| - 1);
      StepReady(p, s[|s| - 1]);
    }
  }

  lemma ReadyPrefix(s: seq<Instruction>, k: int)
    requires Ready(s) && 0 <= k <= |s|
    ensures Ready(s[..k])
  {
    forall j | 0 <= j < k && IsCX(s[..k][j])
      ensures |s[..k][j].qubits| >= 2
    {
      assert s[..k][j] == s[j];
    }
  }

  /** The pass throws on s: some iteration's comparison reads past an array. */
  predicate Fails(s: seq<Instruction>)
  {
    |s| > 0 && (Fails(s[..|s| - 1]) || StepFails(Cancel(s[..|s| - 1]), s[|s| - 1]))
  }

  method Apply(c: Circuit) returns (r: Circuit)
    requires !Fails(c.instructions)
    ensures r == Circuit(c.numQubits, Cancel(c.instructions))
  {
    var instructions := c.instructions;
    var out: seq<Instruction> := [];
    for k := 0 to |instructions|
      invariant out == Cancel(instructions[..k])
    {
      CancelStep(instructions, k);
      var inst := instructions[k];
      if IsCX(inst) {
        var q := inst.qubits;
        if |out| > 0 {
          var prev := out[|out| - 1];
          if IsCX(prev) {
            var pq := prev.qubits;
            if pq[0] == q[0] && pq[1] == q[1] {
              out := out[..|out| - 1];
              continue;
            }
          }
        }
        out := out + [Copy(inst)];
      } else {
        out := out + [Copy(inst)];
      }
    }
    assert instructions[..|instructions|] == instructions;
    r := Circuit(c.numQubits, out);
  }

  /** Iteration k of a run that does not throw: it does not throw, and it is one more Step. */
  lemma CancelStep(s: seq<Instruction>, k: int)
    requires !Fails(s) && 0 <= k < |s|
    ensures !StepFails(Cancel(s[..k]), s[k])
    ensures Cancel(s[..k + 1]) == Step(Cancel(s[..k]), s[k])
  {
    FailsPrefix(s, k + 1);
    assert s[..k + 1][..k] == s[..k];
    assert s[..k + 1][k] == s[k];
  }

  /** A run that does not throw does not throw on any prefix either. */
  lemma {:induction false} FailsPrefix(s: seq<Instruction>, k: int)
    requires !Fails(s) && 0 <= k <= |s|
    ensures !Fails(s[..k])
    decreases |s|
  {
    if k < |s| {
      assert s[..|s| - 1][..k] == s[..k];
      FailsPrefix(s[..|s| - 1], k);
    } else {
      assert s[..k] == s;
    }
  }

  /** A ready input never makes the pass throw. */
  lemma {:induction false} ReadyCompletes(s: seq<Instruction>)
    requires Ready(s)
    ensures !Fails(s)
  {
    if |s| > 0 {
      ReadyPrefix(s, |s| - 1);
      ReadyCompletes(s[..|s| - 1]);
    }
  }

  // ---------------------------------------------------------------- properties

  /** No two adjacent instructions are identical CX. */
  predicate Reduced(s: seq<Instruction>)
  {
    forall k :: 0 <= k < |s| - 1 ==> !SameCX(s[k], s[k + 1])
  }

  /** The loop invariant: the stack never holds two adjacent identical CX. */
  lemma {:induction false} CancelReduced(s: seq<Instruction>)
    requires Ready(s)
    ensures Reduced(Cancel(s))
  {
    if |s| > 0 {
      CancelReduced(s[..|s| - 1]);
    }
  }

  /** A reduced circuit passes through unchanged. */
  lemma {:induction false} CancelReducedIdentity(s: seq<Instruction>)
    requires Ready(s) && Reduced(s)
    ensures Cancel(s) == s
  {
    if |s| > 0 {
      var p := s[..|s| - 1];
      var i := s[|s| - 1];
      ReducedPrefix(s);
      CancelReducedIdentity(p);
      StepOntoReduced(p, i);
      SplitLast(s);
    }
  }

  /** Dropping the last instruction keeps a circuit ready and reduced, and its last one does not match. */
  lemma ReducedPrefix(s: seq<Instruction>)
    requires Ready(s) && Reduced(s) && |s| > 0
    ensures Ready(s[..|s| - 1]) && Reduced(s[..|s| - 1])
    ensures |s| > 1 ==> !SameCX(s[..|s| - 1][|s| - 2], s[|s| - 1])
  {
    var p := s[..|s| - 1];
    forall k | 0 <= k < |p| && IsCX(p[k])
      ensures |p[k].qubits| >= 2
    {
      assert p[k] == s[k];
    }
    forall k | 0 <= k < |p| - 1
      ensures !SameCX(p[k], p[k + 1])
    {
      assert p[k] == s[k] && p[k + 1] == s[k + 1];
    }
  }

  /** An instruction that does not match the top is pushed as it is. */
  lemma StepOntoReduced(p: seq<Instruction>, i: Instruction)
    requires Ready(p) && (IsCX(i) ==> |i.qubits| >= 2)
    requires |p| > 0 ==> !SameCX(p[|p| - 1], i)
    ensures Step(p, i) == p + [i]
  {
    assert Copy(i) == i;
  }

  /** The pass is idempotent, as its documentation claims. */
  lemma Idempotent(s: seq<Instruction>)
    requires Ready(s)
    ensures Cancel(Cancel(s)) == Cancel(s)
  {
    CancelReduced(s);
    CancelReducedIdentity(Cancel(s));
  }

  /** Appending one instruction runs one more step of the loop. */
  lemma CancelSnoc(p: seq<Instruction>, i: Instruction)
    requires Ready(p) && (IsCX(i) ==> |i.qubits| >= 2)
    ensures Ready(p + [i]) && Cancel(p + [i]) == Step(Cancel(p), i)
  {
    assert (p + [i])[..|p|] == p;
    forall k | 0 <= k < |p + [i]| && IsCX((p + [i])[k])
      ensures |(p + [i])[k].qubits| >= 2
    {
      if k < |p| {
        assert (p + [i])[k] == p[k];
      }
    }
  }

  /** On a reduced stack, pushing the same CX twice leaves the stack as it was. */
  lemma StepPair(out: seq<Instruction>, x: Instruction)
    requires WellFormed(out) && Ready(out) && Reduced(out) && IsCX(x) && |x.qubits| == 2
    ensures Ready(Step(out, x)) && Step(Step(out, x), x) == out
  {
    StepReady(out, x);
    assert Copy(x) == x;
    if |out| > 0 && SameCX(out[|out| - 1], x) {
      var inner := out[..|out| - 1];
      if |inner| > 0 {
        assert inner[|inner| - 1] == out[|out| - 2];
        assert !SameCX(out[|out| - 2], out[|out| - 1]);
      }
      assert Step(inner, x) == inner + [x];
      var top := out[|out| - 1];
      assert top.qubits == [top.qubits[0], top.qubits[1]] && x.qubits == [x.qubits[0], x.qubits[1]];
      assert top == x;
      SplitLast(out);
    } else {
      assert (out + [Copy(x)])[..|out|] == out;
    }
  }

  /** Two identical CX appended to any list leave its output as it was. */
  lemma PairVanishes(p: seq<Instruction>, x: Instruction)
    requires WellFormed(p) && IsCX(x) && |x.qubits| == 2
    ensures Ready(p) && Ready(p + [x, x]) && Cancel(p + [x, x]) == Cancel(p)
  {
    CancelWellFormed(p);
    CancelSnoc(p, x);
    CancelSnoc(p + [x], x);
    AppendTwo(p, x, x);
    CancelReduced(p);
    StepPair(Cancel(p), x);
  }

  /**
   * Two identical adjacent CX anywhere in the input can be removed without
   * changing the output: the stack scan finds every such cancellation,
   * including those a removal exposes.
   */
  lemma {:induction false} PairRemovable(p: seq<Instruction>, x: Instruction, t: seq<Instruction>)
    requires WellFormed(p) && IsCX(x) && |x.qubits| == 2 && Ready(t)
    ensures Ready(p + t) && Ready(p + [x, x] + t)
    ensures Cancel(p + [x, x] + t) == Cancel(p + t)
    decreases |t|
  {
    PairVanishes(p, x);
    if |t| == 0 {
      assert p + [x, x] + t == p + [x, x];
      assert p + t == p;
    } else {
      var t' := t[..|t| - 1];
      var i := t[|t| - 1];
      assert Ready(t') by {
        forall k | 0 <= k < |t'| && IsCX(t'[k])
          ensures |t'[k].qubits| >= 2
        {
          assert t'[k] == t[k];
        }
      }
      PairRemovable(p, x, t');
      CancelSnoc(p + t', i);
      CancelSnoc(p + [x, x] + t', i);
      AppendSplitLast(p, t);
      AppendSplitLast(p + [x, x], t);
    }
  }

  /** An instruction that is not a CX is pushed as it is. */
  lemma StepPush(out: seq<Instruction>, i: Instruction)
    requires Ready(out) && !IsCX(i)
    ensures Step(out, i) == out + [i]
  {
    assert Copy(i) == i;
  }

  /** Instructions without CX are pushed as they are. */
  lemma {:induction false} NoCXAppend(p: seq<Instruction>, t: seq<Instruction>)
    requires Ready(p)
    requires forall k :: 0 <= k < |t| ==> !IsCX(t[k])
    ensures Ready(p + t) && Cancel(p + t) == Cancel(p) + t
    decreases |t|
  {
    if |t| == 0 {
      assert p + t == p;
    } else {
      var t' := t[..|t| - 1];
      var i := t[|t| - 1];
      NoCXAppend(p, t');
      CancelSnoc(p + t', i);
      StepPush(Cancel(p + t'), i);
      AppendSplitLast(p, t);
      AppendSplitLast(Cancel(p), t);
    }
  }

  /** Every output instruction is an input instruction. */
  lemma {:induction false} CancelSubset(s: seq<Instruction>)
    requires Ready(s)
    ensures forall k :: 0 <= k < |Cancel(s)| ==> Cancel(s)[k] in s
  {
    if |s| > 0 {
      var p := s[..|s| - 1];
      CancelSubset(p);
      assert forall i :: i in p ==> i in s;
      assert Copy(s[|s| - 1]) == s[|s| - 1];
    }
  }

  /** Every CX of a well-formed circuit has its two qubits, and the output is well formed again. */
  lemma CancelWellFormed(s: seq<Instruction>)
    requires WellFormed(s)
    ensures Ready(s) && WellFormed(Cancel(s))
  {
    CancelSubset(s);
  }

  /** Non-CX instructions are kept, unchanged and in their order. */
  lemma {:induction false} CancelKeepsOthers(s: seq<Instruction>)
    requires Ready(s)
    ensures Filter(Cancel(s), NotCX) == Filter(s, NotCX)
  {
    if |s| > 0 {
      var p := s[..|s| - 1];
      var i := s[|s| - 1];
      CancelKeepsOthers(p);
      StepKeepsOthers(Cancel(p), i);
      FilterAppend(p, [i], NotCX);
      SplitLast(s);
    }
  }

  lemma StepKeepsOthers(out: seq<Instruction>, i: Instruction)
    requires Ready(out) && (IsCX(i) ==> |i.qubits| >= 2)
    ensures Filter(Step(out, i), NotCX) == Filter(out, NotCX) + Filter([i], NotCX)
  {
    assert [i][..0] == [];
    if |out| > 0 && SameCX(out[|out| - 1], i) {
      var last := out[|out| - 1];
      assert out[..|out| - 1] + [last] == out;
      FilterAppend(out[..|out| - 1], [last], NotCX);
      assert [last][..0] == [];
    } else {
      assert Copy(i) == i;
      FilterAppend(out, [i], NotCX);
    }
  }

  /** Each step adds or removes one instruction, so the output is no longer and has the same parity. */
  lemma {:induction false} CancelLength(s: seq<Instruction>)
    requires Ready(s)
    ensures |Cancel(s)| <= |s| && |Cancel(s)| % 2 == |s| % 2
  {
    if |s| > 0 {
      var p := s[..|s| - 1];
      CancelLength(p);
      var out := Cancel(p);
      var r := Cancel(s);
      assert r == Step(out, s[|s| - 1]);
      assert |r| == |out| + 1 || (|out| >= 1 && |r| == |out| - 1);
      Parity(|out|, |p|, |r|);
    }
  }

  /** One step up or down flips parity, whichever it is. */
  lemma Parity(a: nat, b: nat, c: nat)
    requires a % 2 == b % 2 && (c == a + 1 || c + 1 == a)
    ensures c % 2 == (b + 1) % 2
  {
  }

  /** A run of k identical CX(a, b) reduces to k mod 2 of them. */
  lemma {:induction false} RunOfCX(a: int, b: int, k: nat)
    ensures Ready(Repeat(GateOp(CNOT, [a, b]), k))
    ensures Cancel(Repeat(GateOp(CNOT, [a, b]), k)) == Repeat(GateOp(CNOT, [a, b]), k % 2)
  {
    var x := GateOp(CNOT, [a, b]);
    RepeatReady(x, k);
    if k > 0 {
      RunOfCX(a, b, k - 1);
      assert Repeat(x, k)[..k - 1] == Repeat(x, k - 1);
      assert Cancel(Repeat(x, k)) == Step(Repeat(x, (k - 1) % 2), x);
      Halves(k);
      if k % 2 == 0 {
        assert Repeat(x, 1) == [x];
        assert SameCX(x, x);
      } else {
        assert Repeat(x, 0) == [];
      }
    }
  }

  lemma RepeatReady(x: Instruction, k: nat)
    requires IsCX(x) && |x.qubits| == 2
    ensures Ready(Repeat(x, k))
  {
    var r := Repeat(x, k);
    assert forall j :: 0 <= j < |r| ==> r[j] == x;
  }

  lemma Halves(k: nat)
    requires k > 0
    ensures (k - 1) % 2 == 1 - k % 2
  {
  }

  /** CX(0,1) followed by CX(1,0) does not cancel. */
  lemma ReversedCXStays()
    ensures Ready([GateOp(CNOT, [0, 1]), GateOp(CNOT, [1, 0])])
    ensures Cancel([GateOp(CNOT, [0, 1]), GateOp(CNOT, [1, 0])]) == [GateOp(CNOT, [0, 1]), GateOp(CNOT, [1, 0])]
  {
    var s := [GateOp(CNOT, [0, 1]), GateOp(CNOT, [1, 0])];
    assert s[..1][..0] == [];
    assert !SameCX(s[0], s[1]);
  }

  /** A lone CX holding one qubit is never compared, so the pass returns it. */
  lemma LoneShortCX(a: int)
    ensures !Fails([GateOp(CNOT, [a])]) && Cancel([GateOp(CNOT, [a])]) == [GateOp(CNOT, [a])]
  {
    var x := GateOp(CNOT, [a]);
    assert [x][..0] == [];
  }

  /**
   * A one-qubit CX(a) on top of CX(b, c) with b != a: the first indices
   * differ, so its missing q[1] is never read and it is pushed.
   */
  lemma ShortCXAfterOther(a: int, b: int, c: int)
    requires b != a
    ensures !Fails([GateOp(CNOT, [b, c]), GateOp(CNOT, [a])])
    ensures Cancel([GateOp(CNOT, [b, c]), GateOp(CNOT, [a])]) == [GateOp(CNOT, [b, c]), GateOp(CNOT, [a])]
  {
    var x, y := GateOp(CNOT, [a]), GateOp(CNOT, [b, c]);
    assert [y][..0] == [] && [y, x][..1] == [y];
    assert Cancel([y]) == [y] && !Fails([y]);
    assert !Throws(y, x) && !SameCX(y, x);
  }

  /** Two equal one-qubit CX: the first indices agree, q[1] is read, and the pass throws. */
  lemma EqualShortCXFail(a: int)
    ensures Fails([GateOp(CNOT, [a]), GateOp(CNOT, [a])])
  {
    var x := GateOp(CNOT, [a]);
    assert [x][..0] == [] && [x, x][..1] == [x];
    assert Cancel([x]) == [x];
    assert Throws(x, x);
  }
}
