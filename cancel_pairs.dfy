/**
 * CancelDoubleXPass, CancelDoubleHPass and CancelDoubleZPass: one index scan
 * over the INPUT. When the instruction at i and the one at i + 1 are both the
 * pass's gate on the same single qubit, both are skipped and the scan resumes
 * at i + 2; otherwise the instruction at i is kept. Removals are never
 * re-examined, so the three passes share one definition, parameterised by the
 * gate class.
 */
module CancelPairs {
  import opened Gates
  import opened Circuits

  /** `isSingleX` / `isH` / `isZ`: a gate instruction of the given class. */
  predicate IsTarget(g: Gate, i: Instruction)
  {
    i.GateOp? && i.gate == g
  }

  /** The instructions the pass never removes. */
  function Others(g: Gate): Instruction -> bool
  {
    i => !IsTarget(g, i)
  }

  /** `sameTargetQubit`: both act on exactly one qubit, the same one. */
  predicate SameTargetQubit(a: Instruction, b: Instruction)
  {
    |GetQubits(a)| == 1 && |GetQubits(b)| == 1 && GetQubits(a)[0] == GetQubits(b)[0]
  }

  /** The pair the scan drops. */
  predicate Cancels(g: Gate, a: Instruction, b: Instruction)
  {
    IsTarget(g, a) && IsTarget(g, b) && SameTargetQubit(a, b)
  }

  /** What the scan keeps of s, read from its front. */
  function Cancel(g: Gate, s: seq<Instruction>): seq<Instruction>
    decreases |s|
  {
    if |s| == 0 then []
    else if |s| >= 2 && Cancels(g, s[0], s[1]) then Cancel(g, s[2..])
    else [s[0]] + Cancel(g, s[1..])
  }

  /** `apply` of the pass for gate class g. */
  method Apply(g: Gate, c: Circuit) returns (r: Circuit)
    ensures r == Circuit(c.numQubits, Cancel(g, c.instructions))
  {
    var instructions := c.instructions;
    ghost var total := Cancel(g, instructions);
    var out: seq<Instruction> := [];
    var i := 0;
    while i < |instructions|
      invariant 0 <= i <= |instructions|
      invariant out + Cancel(g, instructions[i..]) == total
    {
      var inst := instructions[i];
      if IsTarget(g, inst) && i + 1 < |instructions| {
        var next := instructions[i + 1];
        if IsTarget(g, next) && SameTargetQubit(inst, next) {
          DropAt(g, instructions, i);
          i := i + 2;
          continue;
        }
      }
      KeepAt(g, instructions, i, out);
      out := out + [inst];
      i := i + 1;
    }
    assert instructions[i..] == [];
    r := Circuit(c.numQubits, out);
  }

  /** The scan at a pair skips both. */
  lemma DropAt(g: Gate, s: seq<Instruction>, i: int)
    requires 0 <= i < |s| - 1 && Cancels(g, s[i], s[i + 1])
    ensures Cancel(g, s[i..]) == Cancel(g, s[i + 2..])
  {
    assert s[i..][2..] == s[i + 2..];
  }

  /** The scan elsewhere keeps the instruction at i. */
  lemma KeepAt(g: Gate, s: seq<Instruction>, i: int, out: seq<Instruction>)
    requires 0 <= i < |s| && !(i + 1 < |s| && Cancels(g, s[i], s[i + 1]))
    ensures out + Cancel(g, s[i..]) == (out + [s[i]]) + Cancel(g, s[i + 1..])
  {
    assert s[i..][1..] == s[i + 1..];
  }

  /** CancelDoubleXPass. */
  method CancelDoubleX(c: Circuit) returns (r: Circuit)
    ensures r == Circuit(c.numQubits, Cancel(X, c.instructions))
  {
    r := Apply(X, c);
  }

  /** CancelDoubleHPass. */
  method CancelDoubleH(c: Circuit) returns (r: Circuit)
    ensures r == Circuit(c.numQubits, Cancel(H, c.instructions))
  {
    r := Apply(H, c);
  }

  /** CancelDoubleZPass. */
  method CancelDoubleZ(c: Circuit) returns (r: Circuit)
    ensures r == Circuit(c.numQubits, Cancel(Z, c.instructions))
  {
    r := Apply(Z, c);
  }

  // ---------------------------------------------------------------- properties

  /** No two neighbours of s form a pair of the pass. */
  predicate NoPair(g: Gate, s: seq<Instruction>)
  {
    forall k :: 0 <= k < |s| - 1 ==> !Cancels(g, s[k], s[k + 1])
  }

  /** Each removal takes two instructions: the output is no longer, by an even amount. */
  lemma {:induction false} CancelLength(g: Gate, s: seq<Instruction>)
    ensures |Cancel(g, s)| <= |s|
    ensures (|s| - |Cancel(g, s)|) % 2 == 0
    decreases |s|
  {
    if |s| >= 2 && Cancels(g, s[0], s[1]) {
      CancelLength(g, s[2..]);
    } else if |s| > 0 {
      CancelLength(g, s[1..]);
    }
  }

  /** Instructions other than the pass's gate are kept, unchanged and in their order. */
  lemma {:induction false} CancelKeepsOthers(g: Gate, s: seq<Instruction>)
    ensures Filter(Cancel(g, s), Others(g)) == Filter(s, Others(g))
    decreases |s|
  {
    if |s| >= 2 && Cancels(g, s[0], s[1]) {
      CancelKeepsOthers(g, s[2..]);
      DropPairFilter(g, s);
    } else if |s| > 0 {
      CancelKeepsOthers(g, s[1..]);
      assert Cancel(g, s) == [s[0]] + Cancel(g, s[1..]);
      FilterCons(s[0], s[1..], Others(g));
      FilterCons(s[0], Cancel(g, s[1..]), Others(g));
      assert [s[0]] + s[1..] == s;
    }
  }

  lemma FilterCons(a: Instruction, t: seq<Instruction>, p: Instruction -> bool)
    ensures Filter([a] + t, p) == (if p(a) then [a] else []) + Filter(t, p)
  {
    var one := [a];
    FilterAppend(one, t, p);
    assert one[..|one| - 1] == [] && one[|one| - 1] == a;
    assert Filter(one, p) == Filter([], p) + (if p(a) then [a] else []);
  }

  /** A dropped pair holds nothing the filter keeps. */
  lemma DropPairFilter(g: Gate, s: seq<Instruction>)
    requires |s| >= 2 && Cancels(g, s[0], s[1])
    ensures Filter(s, Others(g)) == Filter(s[2..], Others(g))
  {
    assert s == [s[0]] + ([s[1]] + s[2..]);
    FilterCons(s[0], [s[1]] + s[2..], Others(g));
    FilterCons(s[1], s[2..], Others(g));
  }

  /** The pass changes s exactly when two neighbours of s form a pair. */
  lemma UnchangedIffNoPair(g: Gate, s: seq<Instruction>)
    ensures Cancel(g, s) == s <==> NoPair(g, s)
  {
    if NoPair(g, s) {
      NoPairUnchanged(g, s);
    } else {
      var k :| 0 <= k < |s| - 1 && Cancels(g, s[k], s[k + 1]);
      PairShortens(g, s, k);
    }
  }

  lemma {:induction false} NoPairUnchanged(g: Gate, s: seq<Instruction>)
    requires NoPair(g, s)
    ensures Cancel(g, s) == s
    decreases |s|
  {
    if |s| > 0 {
      var t := s[1..];
      assert |s| >= 2 ==> !Cancels(g, s[0], s[1]);
      assert NoPair(g, t) by {
        forall k | 0 <= k < |t| - 1
          ensures !Cancels(g, t[k], t[k + 1])
        {
          assert t[k] == s[k + 1] && t[k + 1] == s[k + 2];
        }
      }
      NoPairUnchanged(g, t);
      assert [s[0]] + t == s;
    }
  }

  /** A pair anywhere in s removes at least its two instructions. */
  lemma {:induction false} PairShortens(g: Gate, s: seq<Instruction>, k: int)
    requires 0 <= k < |s| - 1 && Cancels(g, s[k], s[k + 1])
    ensures |Cancel(g, s)| < |s|
    decreases |s|
  {
    if Cancels(g, s[0], s[1]) {
      CancelLength(g, s[2..]);
    } else {
      var t := s[1..];
      assert t[k - 1] == s[k] && t[k] == s[k + 1];
      PairShortens(g, t, k - 1);
    }
  }

  /** Every output instruction is an input instruction. */
  lemma {:induction false} CancelSubset(g: Gate, s: seq<Instruction>)
    ensures forall k :: 0 <= k < |Cancel(g, s)| ==> Cancel(g, s)[k] in s
    decreases |s|
  {
    if |s| >= 2 && Cancels(g, s[0], s[1]) {
      CancelSubset(g, s[2..]);
      assert forall i :: i in s[2..] ==> i in s;
    } else if |s| > 0 {
      CancelSubset(g, s[1..]);
      assert forall i :: i in s[1..] ==> i in s;
    }
  }

  /** Without the pass's gate there is nothing to remove. */
  lemma NoneOf(g: Gate, s: seq<Instruction>)
    requires forall k :: 0 <= k < |s| ==> !IsTarget(g, s[k])
    ensures Cancel(g, s) == s
  {
    NoPairUnchanged(g, s);
  }

  /** G(q), G(q) is removed whole. */
  lemma PairDropped(g: Gate, q: int)
    ensures Cancel(g, [GateOp(g, [q]), GateOp(g, [q])]) == []
  {
    var s := [GateOp(g, [q]), GateOp(g, [q])];
    assert s[2..] == [];
  }

  /** A run of k copies of G(q) leaves k mod 2 of them. */
  lemma {:induction false} RunLeavesParity(g: Gate, q: int, k: nat)
    ensures Cancel(g, Repeat(GateOp(g, [q]), k)) == Repeat(GateOp(g, [q]), k % 2)
    decreases k
  {
    var x := GateOp(g, [q]);
    var s := Repeat(x, k);
    if k >= 2 {
      assert Cancels(g, s[0], s[1]);
      assert s[2..] == Repeat(x, k - 2);
      RunLeavesParity(g, q, k - 2);
    } else if k == 1 {
      assert s[1..] == [];
    }
  }

  /** The scan is greedy and over the input: X, X, X on one qubit leaves one X. */
  lemma ThreeLeaveOne(q: int)
    ensures Cancel(X, [GateOp(X, [q]), GateOp(X, [q]), GateOp(X, [q])]) == [GateOp(X, [q])]
  {
    var x := GateOp(X, [q]);
    var s := [x, x, x];
    assert Cancels(X, s[0], s[1]);
    assert s[2..] == [x];
    assert Cancel(X, s) == Cancel(X, [x]);
    CancelOne(X, x);
  }

  /** A single instruction is kept. */
  lemma CancelOne(g: Gate, i: Instruction)
    ensures Cancel(g, [i]) == [i]
  {
    assert [i][1..] == [];
  }

  /**
   * A pair that a removal brings together is not removed in the same run:
   * X(a), X(b), X(b), X(a) with a != b becomes X(a), X(a), so a second run
   * changes the circuit again (to the empty list).
   */
  lemma ExposedPairSurvives(a: int, b: int)
    requires a != b
    ensures Cancel(X, [GateOp(X, [a]), GateOp(X, [b]), GateOp(X, [b]), GateOp(X, [a])])
         == [GateOp(X, [a]), GateOp(X, [a])]
    ensures Cancel(X, [GateOp(X, [a]), GateOp(X, [a])]) == []
  {
    var s := [GateOp(X, [a]), GateOp(X, [b]), GateOp(X, [b]), GateOp(X, [a])];
    assert !Cancels(X, s[0], s[1]);
    var t := s[1..];
    assert Cancels(X, t[0], t[1]);
    assert t[2..] == [GateOp(X, [a])];
    assert Cancel(X, t) == Cancel(X, [GateOp(X, [a])]);
    CancelOne(X, GateOp(X, [a]));
    assert Cancel(X, s) == [s[0]] + Cancel(X, t);
    PairDropped(X, a);
  }

  /** Gates of the pass's class on different qubits stay. */
  lemma DifferentQubitsStay(g: Gate, a: int, b: int)
    requires a != b
    ensures Cancel(g, [GateOp(g, [a]), GateOp(g, [b])]) == [GateOp(g, [a]), GateOp(g, [b])]
  {
    var s := [GateOp(g, [a]), GateOp(g, [b])];
    assert NoPair(g, s);
    UnchangedIffNoPair(g, s);
  }

  /** Two gates of the class separated by any other instruction stay. */
  lemma SeparatedStay(g: Gate, q: int, o: Instruction)
    requires !IsTarget(g, o)
    ensures Cancel(g, [GateOp(g, [q]), o, GateOp(g, [q])]) == [GateOp(g, [q]), o, GateOp(g, [q])]
  {
    var s := [GateOp(g, [q]), o, GateOp(g, [q])];
    assert NoPair(g, s);
    UnchangedIffNoPair(g, s);
  }

  /** X(0), X(0), H(0) keeps the single H. */
  lemma DoubleXThenH()
    ensures Cancel(X, [GateOp(X, [0]), GateOp(X, [0]), GateOp(H, [0])]) == [GateOp(H, [0])]
  {
    var s := [GateOp(X, [0]), GateOp(X, [0]), GateOp(H, [0])];
    assert s[2..] == [GateOp(H, [0])];
    assert s[2..][1..] == [];
  }

  /** X(0), H(0) has no pair and is kept as it is. */
  lemma XThenHStays()
    ensures Cancel(X, [GateOp(X, [0]), GateOp(H, [0])]) == [GateOp(X, [0]), GateOp(H, [0])]
  {
    var s := [GateOp(X, [0]), GateOp(H, [0])];
    assert NoPair(X, s);
    UnchangedIffNoPair(X, s);
  }
}
