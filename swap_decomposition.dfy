/**
 * SwapDecompositionPass: every SWAP(a, b) becomes CX(a, b), CX(b, a), CX(a, b)
 * in its place, and every other instruction, measurements included, is
 * copied in order. The qubit count is carried over.
 */
module SwapDecomposition {
  import opened Gates
  import opened Circuits

  predicate IsSwap(i: Instruction)
  {
    i.GateOp? && i.gate == SWAP
  }

  /** The pass reads q[0] and q[1] of every SWAP instruction. */
  predicate Ready(s: seq<Instruction>)
  {
    forall k :: 0 <= k < |s| && IsSwap(s[k]) ==> |s[k].qubits| >= 2
  }

  /** What one input instruction becomes. */
  function Expand(i: Instruction): seq<Instruction>
    requires IsSwap(i) ==> |i.qubits| >= 2
  {
    if IsSwap(i) then
      var a, b := i.qubits[0], i.qubits[1];
      [GateOp(CNOT, [a, b]), GateOp(CNOT, [b, a]), GateOp(CNOT, [a, b])]
    else
      [Copy(i)]
  }

  /** The pass output: the expansions of the instructions, in input order. */
  function Decompose(s: seq<Instruction>): seq<Instruction>
    requires Ready(s)
  {
    if |s| == 0 then [] else Decompose(s[..|s| - 1]) + Expand(s[|s| - 1])
  }

  /** `apply`: the loop appends each instruction's expansion to a fresh circuit. */
  method Apply(c: Circuit) returns (r: Circuit)
    requires Ready(c.instructions)
    ensures r == Circuit(c.numQubits, Decompose(c.instructions))
  {
    var instructions := c.instructions;
    var out: seq<Instruction> := [];
    for k := 0 to |instructions|
      invariant out == Decompose(instructions[..k])
    {
      var inst := instructions[k];
      if inst.GateOp? && inst.gate == SWAP {
        var a := inst.qubits[0];
        var b := inst.qubits[1];
        out := out + [GateOp(CNOT, [a, b])];
        out := out + [GateOp(CNOT, [b, a])];
        out := out + [GateOp(CNOT, [a, b])];
      } else {
        out := out + [Copy(inst)];
      }
      assert instructions[..k + 1][..k] == instructions[..k];
    }
    assert instructions[..|instructions|] == instructions;
    r := Circuit(c.numQubits, out);
  }

  // ---------------------------------------------------------------- properties

  /** The expansion is positional: the output of s + t is the output of s followed by that of t. */
  lemma {:induction false} DecomposeAppend(s: seq<Instruction>, t: seq<Instruction>)
    requires Ready(s) && Ready(t)
    ensures Ready(s + t)
    ensures Decompose(s + t) == Decompose(s) + Decompose(t)
    decreases |t|
  {
    ReadyAppend(s, t);
    if |t| == 0 {
      assert s + t == s;
    } else {
      var t' := t[..|t| - 1];
      assert (s + t)[..|s + t| - 1] == s + t';
      assert Ready(t');
      DecomposeAppend(s, t');
    }
  }

  lemma ReadyAppend(s: seq<Instruction>, t: seq<Instruction>)
    requires Ready(s) && Ready(t)
    ensures Ready(s + t)
  {
    forall k | 0 <= k < |s + t| && IsSwap((s + t)[k])
      ensures |(s + t)[k].qubits| >= 2
    {
      if k < |s| {
        assert (s + t)[k] == s[k];
      } else {
        assert (s + t)[k] == t[k - |s|];
      }
    }
  }

  /** SWAP(a, b) alone becomes the three CX gates, and any other instruction alone is kept. */
  lemma DecomposeOne(i: Instruction)
    requires IsSwap(i) ==> |i.qubits| >= 2
    ensures Ready([i])
    ensures IsSwap(i) ==>
              Decompose([i]) == [GateOp(CNOT, [i.qubits[0], i.qubits[1]]),
                                 GateOp(CNOT, [i.qubits[1], i.qubits[0]]),
                                 GateOp(CNOT, [i.qubits[0], i.qubits[1]])]
    ensures !IsSwap(i) ==> Decompose([i]) == [i]
  {
    assert [i][..0] == [];
  }

  /** Each SWAP adds two instructions: |out| = |in| + 2 · #SWAP. */
  lemma {:induction false} DecomposeLength(s: seq<Instruction>)
    requires Ready(s)
    ensures |Decompose(s)| == |s| + 2 * CountWhere(s, IsSwap)
  {
    if |s| > 0 {
      DecomposeLength(s[..|s| - 1]);
    }
  }

  /** The output holds no SWAP. */
  lemma {:induction false} DecomposeNoSwap(s: seq<Instruction>)
    requires Ready(s)
    ensures forall k :: 0 <= k < |Decompose(s)| ==> !IsSwap(Decompose(s)[k])
  {
    if |s| > 0 {
      DecomposeNoSwap(s[..|s| - 1]);
      var r := Decompose(s);
      var p := Decompose(s[..|s| - 1]);
      var e := Expand(s[|s| - 1]);
      assert r == p + e;
      forall k | 0 <= k < |r|
        ensures !IsSwap(r[k])
      {
        if k >= |p| {
          assert r[k] == e[k - |p|];
        }
      }
    }
  }

  /** A circuit with no SWAP passes through unchanged; in particular the pass is idempotent. */
  lemma {:induction false} DecomposeIdentity(s: seq<Instruction>)
    requires forall k :: 0 <= k < |s| ==> !IsSwap(s[k])
    ensures Ready(s) && Decompose(s) == s
  {
    if |s| > 0 {
      DecomposeIdentity(s[..|s| - 1]);
    }
  }

  /** Every SWAP of a well-formed circuit has its two qubits, and the output is well formed again. */
  lemma {:induction false} DecomposeWellFormed(s: seq<Instruction>)
    requires WellFormed(s)
    ensures Ready(s) && WellFormed(Decompose(s))
  {
    if |s| > 0 {
      var p := s[..|s| - 1];
      assert WellFormed(p) by {
        forall k | 0 <= k < |p| && p[k].GateOp?
          ensures |p[k].qubits| == Arity(p[k].gate)
        {
          assert p[k] == s[k];
        }
      }
      DecomposeWellFormed(p);
      WellFormedAppend(Decompose(p), Expand(s[|s| - 1]));
    }
  }

  lemma Idempotent(s: seq<Instruction>)
    requires Ready(s)
    ensures Ready(Decompose(s)) && Decompose(Decompose(s)) == Decompose(s)
  {
    DecomposeNoSwap(s);
    DecomposeIdentity(Decompose(s));
  }
}
