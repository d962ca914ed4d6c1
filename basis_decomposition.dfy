/**
 * BasisGateDecompositionPass: measurements are re-emitted; U1(λ) on q
 * becomes RZ(λ); U2(φ, λ) becomes RZ(φ), RY(π/2), RZ(λ); U3(θ, φ, λ) becomes
 * RZ(φ), RY(θ), RZ(λ); every other gate instruction is appended as it is.
 * The pass reads the first qubit of every gate before it looks at the gate.
 */
module BasisDecomposition {
  import opened RealMath
  import opened Gates
  import opened Circuits

  predicate IsU(i: Instruction)
  {
    i.GateOp? && (i.gate.U3? || i.gate.U2? || i.gate.U1?)
  }

  /** U3 and U2 each expand to three gates. */
  predicate IsU3OrU2(i: Instruction)
  {
    i.GateOp? && (i.gate.U3? || i.gate.U2?)
  }

  /** The pass reads q[0] of every gate instruction. */
  predicate Ready(s: seq<Instruction>)
  {
    forall k :: 0 <= k < |s| && s[k].GateOp? ==> |s[k].qubits| >= 1
  }

  /** The three-rotation sequence RZ(φ), RY(θ), RZ(λ) on q. */
  function ZYZ(q: int, theta: real, phi: real, lambda: real): seq<Instruction>
  {
    [GateOp(RZ(phi), [q]), GateOp(RY(theta), [q]), GateOp(RZ(lambda), [q])]
  }

  function Expand(i: Instruction): seq<Instruction>
    requires i.GateOp? ==> |i.qubits| >= 1
  {
    if i.MeasureOp? then [MeasureOp(i.qubit, i.cbit)]
    else
      var q, g := i.qubits[0], i.gate;
      if g.U1? then [GateOp(RZ(g.lambda), [q])]
      else if g.U2? then ZYZ(q, PI / 2.0, g.phi, g.lambda)
      else if g.U3? then ZYZ(q, g.theta, g.phi, g.lambda)
      else [i]
  }

  function Decompose(s: seq<Instruction>): seq<Instruction>
    requires Ready(s)
  {
    if |s| == 0 then [] else Decompose(s[..|s| - 1]) + Expand(s[|s| - 1])
  }

  method Apply(c: Circuit) returns (r: Circuit)
    requires Ready(c.instructions)
    ensures r == Circuit(c.numQubits, Decompose(c.instructions))
  {
    var instructions := c.instructions;
    var out: seq<Instruction> := [];
    for k := 0 to |instructions|
      invariant out == Decompose(instructions[..k])
    {
      assert instructions[..k + 1][..k] == instructions[..k];
      var inst := instructions[k];
      if inst.MeasureOp? {
        out := out + [MeasureInstruction(inst.qubit, inst.cbit)];
        continue;
      }
      var q := inst.qubits[0];
      var gate := inst.gate;
      if gate.U1? {
        out := out + [GateOp(RZ(gate.lambda), [q])];
        continue;
      }
      if gate.U2? {
        out := out + [GateOp(RZ(gate.phi), [q])];
        out := out + [GateOp(RY(PI / 2.0), [q])];
        out := out + [GateOp(RZ(gate.lambda), [q])];
        continue;
      }
      if gate.U3? {
        out := out + [GateOp(RZ(gate.phi), [q])];
        out := out + [GateOp(RY(gate.theta), [q])];
        out := out + [GateOp(RZ(gate.lambda), [q])];
        continue;
      }
      out := out + [inst];
    }
    assert instructions[..|instructions|] == instructions;
    r := Circuit(c.numQubits, out);
  }

  // ---------------------------------------------------------------- properties

  lemma ReadyAppend(s: seq<Instruction>, t: seq<Instruction>)
    requires Ready(s) && Ready(t)
    ensures Ready(s + t)
  {
    forall k | 0 <= k < |s + t| && (s + t)[k].GateOp?
      ensures |(s + t)[k].qubits| >= 1
    {
      if k < |s| {
        assert (s + t)[k] == s[k];
      } else {
        assert (s + t)[k] == t[k - |s|];
      }
    }
  }

  /** The expansion is positional: the output of s + t is the output of s followed by that of t. */
  lemma {:induction false} DecomposeAppend(s: seq<Instruction>, t: seq<Instruction>)
    requires Ready(s) && Ready(t)
    ensures Ready(s + t)
    ensures Decompose(s + t) == Decompose(s) + Decompose(t)
    decreases |t|
  {
    ReadyAppend(s, t);
    if |t| == 0 {
      assert s + t == s;
    } else {
      var t' := t[..|t| - 1];
      assert (s + t)[..|s + t| - 1] == s + t';
      assert Ready(t');
      DecomposeAppend(s, t');
    }
  }

  /** Each U gate alone becomes its Z-Y-Z rotations on the same qubit; U2 is U3 with θ = π/2. */
  lemma DecomposeOne(q: int, theta: real, phi: real, lambda: real)
    ensures Decompose([GateOp(U3(theta, phi, lambda), [q])]) == ZYZ(q, theta, phi, lambda)
    ensures Decompose([GateOp(U2(phi, lambda), [q])]) == Decompose([GateOp(U3(PI / 2.0, phi, lambda), [q])])
    ensures Decompose([GateOp(U1(lambda), [q])]) == [GateOp(RZ(lambda), [q])]
  {
    assert [GateOp(U3(theta, phi, lambda), [q])][..0] == [];
    assert [GateOp(U2(phi, lambda), [q])][..0] == [];
    assert [GateOp(U3(PI / 2.0, phi, lambda), [q])][..0] == [];
    assert [GateOp(U1(lambda), [q])][..0] == [];
  }

  /** U3 and U2 add two instructions each; U1, measurements and other gates keep the count. */
  lemma {:induction false} DecomposeLength(s: seq<Instruction>)
    requires Ready(s)
    ensures |Decompose(s)| == |s| + 2 * CountWhere(s, IsU3OrU2)
  {
    if |s| > 0 {
      DecomposeLength(s[..|s| - 1]);
    }
  }

  /** The output holds no U1, U2 or U3, and every gate in it still has a qubit to read. */
  lemma {:induction false} DecomposeNoU(s: seq<Instruction>)
    requires Ready(s)
    ensures Ready(Decompose(s))
    ensures forall k :: 0 <= k < |Decompose(s)| ==> !IsU(Decompose(s)[k])
  {
    if |s| > 0 {
      DecomposeNoU(s[..|s| - 1]);
      var r := Decompose(s);
      var p := Decompose(s[..|s| - 1]);
      var e := Expand(s[|s| - 1]);
      assert r == p + e;
      forall k | 0 <= k < |r|
        ensures !IsU(r[k]) && (r[k].GateOp? ==> |r[k].qubits| >= 1)
      {
        if k >= |p| {
          assert r[k] == e[k - |p|];
        } else {
          assert r[k] == p[k];
        }
      }
    }
  }

  /** Measurements survive in order: the measurement subsequence is unchanged. */
  lemma {:induction false} DecomposeKeepsMeasurements(s: seq<Instruction>)
    requires Ready(s)
    ensures Filter(Decompose(s), IsMeasure) == Filter(s, IsMeasure)
  {
    if |s| > 0 {
      var p := s[..|s| - 1];
      var i := s[|s| - 1];
      DecomposeKeepsMeasurements(p);
      FilterAppend(Decompose(p), Expand(i), IsMeasure);
      FilterAppend(p, [i], IsMeasure);
      SplitLast(s);
      ExpandMeasures(i);
    }
  }

  lemma ExpandMeasures(i: Instruction)
    requires i.GateOp? ==> |i.qubits| >= 1
    ensures Filter(Expand(i), IsMeasure) == Filter([i], IsMeasure)
  {
    assert [i][..0] == [];
    var e := Expand(i);
    if i.GateOp? && (i.gate.U2? || i.gate.U3?) {
      assert e[..2][..1][..0] == [] && e[..2][..1] == [e[0]] && e == e[..2] + [e[2]];
      assert e[..2] == e[..2][..1] + [e[1]];
    } else {
      assert e[..0] == [];
    }
  }

  /** A circuit without U gates passes through unchanged. */
  lemma {:induction false} DecomposeIdentity(s: seq<Instruction>)
    requires Ready(s)
    requires forall k :: 0 <= k < |s| ==> !IsU(s[k])
    ensures Decompose(s) == s
  {
    if |s| > 0 {
      DecomposeIdentity(s[..|s| - 1]);
      assert s == s[..|s| - 1] + [s[|s| - 1]];
    }
  }

  /** A second run is the identity. */
  lemma Idempotent(s: seq<Instruction>)
    requires Ready(s)
    ensures Ready(Decompose(s)) && Decompose(Decompose(s)) == Decompose(s)
  {
    DecomposeNoU(s);
    DecomposeIdentity(Decompose(s));
  }
}
