/**
 * CXToCZDecompositionPass: a gate whose lowercased name is "cx" or "cnot"
 * becomes H(t), CZ(c, t), H(t) with c, t its first two qubits; measurements
 * are re-emitted; every other instruction is appended as it is.
 */
module CXToCZ {
  import opened Gates
  import opened Circuits
  import Strings

  /** The pass's name test: the lowercased gate name is "cx" or "cnot". */
  predicate IsCX(i: Instruction)
  {
    i.GateOp? && (Strings.ToLower(Name(i.gate)) == "cx" || Strings.ToLower(Name(i.gate)) == "cnot")
  }

  /** The pass reads q[0] and q[1] of every gate the name test accepts. */
  predicate Ready(s: seq<Instruction>)
  {
    forall k {:trigger IsCX(s[k])} :: 0 <= k < |s| && IsCX(s[k]) ==> |s[k].qubits| >= 2
  }

  function Expand(i: Instruction): seq<Instruction>
    requires IsCX(i) ==> |i.qubits| >= 2
  {
    if i.MeasureOp? then [MeasureOp(i.qubit, i.cbit)]
    else if IsCX(i) then
      var control, target := i.qubits[0], i.qubits[1];
      [GateOp(H, [target]), GateOp(CZ, [control, target]), GateOp(H, [target])]
    else [i]
  }

  function Decompose(s: seq<Instruction>): seq<Instruction>
    requires Ready(s)
  {
    if |s| == 0 then [] else Decompose(s[..|s| - 1]) + Expand(s[|s| - 1])
  }

  method Apply(c: Circuit) returns (r: Circuit)
    requires Ready(c.instructions)
    ensures r == Circuit(c.numQubits, Decompose(c.instructions))
  {
    var instructions := c.instructions;
    var out: seq<Instruction> := [];
    for k := 0 to |instructions|
      invariant Ready(instructions[..k]) && out == Decompose(instructions[..k])
    {
      DecomposeStep(instructions, k);
      var inst := instructions[k];
      if inst.MeasureOp? {
        out := out + [MeasureInstruction(inst.qubit, inst.cbit)];
        continue;
      }
      var gateName := Strings.ToLower(Name(inst.gate));
      var isCX := gateName == "cx" || gateName == "cnot";
      if isCX {
        var q := inst.qubits;
        var control := q[0];
        var target := q[1];
        out := out + [GateOp(H, [target])];
        out := out + [GateOp(CZ, [control, target])];
        out := out + [GateOp(H, [target])];
        continue;
      }
      out := out + [inst];
    }
    assert instructions[..|instructions|] == instructions;
    r := Circuit(c.numQubits, out);
  }

  /** The pass over one more instruction appends that instruction's expansion. */
  lemma DecomposeStep(s: seq<Instruction>, k: int)
    requires Ready(s) && 0 <= k < |s|
    ensures Ready(s[..k]) && Ready(s[..k + 1])
    ensures Decompose(s[..k + 1]) == Decompose(s[..k]) + Expand(s[k])
  {
    ReadyPrefix(s, k);
    ReadyPrefix(s, k + 1);
    assert s[..k + 1][..k] == s[..k];
  }

  lemma ReadyPrefix(s: seq<Instruction>, m: int)
    requires Ready(s) && 0 <= m <= |s|
    ensures Ready(s[..m])
  {
    var t := s[..m];
    forall j | 0 <= j < m && IsCX(t[j])
      ensures |t[j].qubits| >= 2
    {
      assert t[j] == s[j];
    }
  }

  // ---------------------------------------------------------------- properties

  /**
   * The name test accepts exactly the two CNOT classes, StandardGates' and
   * the io package's; "cnot" is the name of no gate, so that branch never fires.
   */
  lemma IsCXExactly(g: Gate, qs: seq<int>)
    ensures IsCX(GateOp(g, qs)) <==> g == CNOT || g == IoCNOT
    ensures Strings.ToLower(Name(g)) != "cnot"
  {
    NameIsLower(g);
    CXNames(g);
  }

  lemma NameIsLower(g: Gate)
    ensures Strings.ToLower(Name(g)) == Name(g)
  {
    NamesAreLowercase(g);
    Strings.ToLowerNoCapitals(Name(g));
  }

  lemma CXNames(g: Gate)
    ensures Name(g) == "cx" <==> g == CNOT || g == IoCNOT
    ensures Name(g) != "cnot"
  {
    if g != CNOT && g != IoCNOT {
      assert Name(g) != "cx";
    }
  }

  lemma ReadyAppend(s: seq<Instruction>, t: seq<Instruction>)
    requires Ready(s) && Ready(t)
    ensures Ready(s + t)
  {
    forall k | 0 <= k < |s + t| && IsCX((s + t)[k])
      ensures |(s + t)[k].qubits| >= 2
    {
      if k < |s| {
        assert (s + t)[k] == s[k];
      } else {
        assert (s + t)[k] == t[k - |s|];
      }
    }
  }

  /** The expansion is positional: the output of s + t is the output of s followed by that of t. */
  lemma {:induction false} DecomposeAppend(s: seq<Instruction>, t: seq<Instruction>)
    requires Ready(s) && Ready(t)
    ensures Ready(s + t)
    ensures Decompose(s + t) == Decompose(s) + Decompose(t)
    decreases |t|
  {
    ReadyAppend(s, t);
    if |t| == 0 {
      assert s + t == s;
    } else {
      var t' := t[..|t| - 1];
      assert (s + t)[..|s + t| - 1] == s + t';
      assert Ready(t');
      DecomposeAppend(s, t');
    }
  }

  /** CX(c, t) alone, of either CNOT class, becomes H(t), CZ(c, t), H(t). */
  lemma DecomposeOne(g: Gate, c: int, t: int)
    requires g == CNOT || g == IoCNOT
    ensures Ready([GateOp(g, [c, t])])
    ensures Decompose([GateOp(g, [c, t])]) == [GateOp(H, [t]), GateOp(CZ, [c, t]), GateOp(H, [t])]
  {
    IsCXExactly(g, [c, t]);
    assert [GateOp(g, [c, t])][..0] == [];
  }

  /** Each CX adds two instructions. */
  lemma {:induction false} DecomposeLength(s: seq<Instruction>)
    requires Ready(s)
    ensures |Decompose(s)| == |s| + 2 * CountWhere(s, IsCX)
  {
    if |s| > 0 {
      DecomposeLength(s[..|s| - 1]);
    }
  }

  /** The output holds no gate the name test accepts. */
  lemma {:induction false} DecomposeNoCX(s: seq<Instruction>)
    requires Ready(s)
    ensures forall k :: 0 <= k < |Decompose(s)| ==> !IsCX(Decompose(s)[k])
  {
    if |s| > 0 {
      DecomposeNoCX(s[..|s| - 1]);
      var r := Decompose(s);
      var p := Decompose(s[..|s| - 1]);
      var e := Expand(s[|s| - 1]);
      assert r == p + e;
      ExpandNoCX(s[|s| - 1]);
      forall k | 0 <= k < |r|
        ensures !IsCX(r[k])
      {
        if k >= |p| {
          assert r[k] == e[k - |p|];
        }
      }
    }
  }

  lemma ExpandNoCX(i: Instruction)
    requires IsCX(i) ==> |i.qubits| >= 2
    ensures forall k :: 0 <= k < |Expand(i)| ==> !IsCX(Expand(i)[k])
  {
    if IsCX(i) {
      IsCXExactly(H, [i.qubits[1]]);
      IsCXExactly(CZ, [i.qubits[0], i.qubits[1]]);
    }
  }

  /** Measurements survive in order: the measurement subsequence is unchanged. */
  lemma {:induction false} DecomposeKeepsMeasurements(s: seq<Instruction>)
    requires Ready(s)
    ensures Filter(Decompose(s), IsMeasure) == Filter(s, IsMeasure)
  {
    if |s| > 0 {
      var p := s[..|s| - 1];
      var i := s[|s| - 1];
      DecomposeKeepsMeasurements(p);
      FilterAppend(Decompose(p), Expand(i), IsMeasure);
      FilterAppend(p, [i], IsMeasure);
      SplitLast(s);
      ExpandMeasures(i);
    }
  }

  lemma ExpandMeasures(i: Instruction)
    requires IsCX(i) ==> |i.qubits| >= 2
    ensures Filter(Expand(i), IsMeasure) == Filter([i], IsMeasure)
  {
    assert [i][..0] == [];
    var e := Expand(i);
    if IsCX(i) {
      assert e[..2][..1][..0] == [] && e[..2][..1] == [e[0]] && e == e[..2] + [e[2]];
      assert e[..2] == e[..2][..1] + [e[1]];
    } else {
      assert e[..0] == [];
    }
  }

  /** A circuit without CX passes through unchanged. */
  lemma {:induction false} DecomposeIdentity(s: seq<Instruction>)
    requires forall k {:trigger IsCX(s[k])} :: 0 <= k < |s| ==> !IsCX(s[k])
    ensures Ready(s) && Decompose(s) == s
  {
    if |s| > 0 {
      var p := s[..|s| - 1];
      NoCXPrefix(s, p);
      DecomposeIdentity(p);
      IdentitySnoc(s, p);
    }
  }

  lemma IdentitySnoc(s: seq<Instruction>, p: seq<Instruction>)
    requires Ready(s) && |s| > 0 && p == s[..|s| - 1] && !IsCX(s[|s| - 1])
    requires Ready(p) && Decompose(p) == p
    ensures Decompose(s) == s
  {
    Snoc(s);
    ExpandOther(s[|s| - 1]);
    DecomposeStep(s, |s| - 1);
  }

  lemma Snoc(s: seq<Instruction>)
    requires |s| > 0
    ensures s[..|s|] == s && s == s[..|s| - 1] + [s[|s| - 1]]
  {
  }

  lemma NoCXPrefix(s: seq<Instruction>, p: seq<Instruction>)
    requires |s| > 0 && p == s[..|s| - 1] && forall k {:trigger IsCX(s[k])} :: 0 <= k < |s| ==> !IsCX(s[k])
    ensures Ready(s) && forall k :: 0 <= k < |p| ==> !IsCX(p[k])
  {
    forall k | 0 <= k < |p|
      ensures !IsCX(p[k])
    {
      assert p[k] == s[k];
    }
  }


  /** An instruction the name test rejects is kept as it is. */
  lemma ExpandOther(i: Instruction)
    requires !IsCX(i)
    ensures Expand(i) == [i]
  {
  }

  /** A second run is the identity. */
  lemma Idempotent(s: seq<Instruction>)
    requires Ready(s)
    ensures Ready(Decompose(s)) && Decompose(Decompose(s)) == Decompose(s)
  {
    DecomposeNoCX(s);
    DecomposeIdentity(Decompose(s));
  }
}
