/**
 * U3DecompositionPass: U3(θ, φ, λ) on q becomes RZ(φ), RX(π/2), RZ(θ),
 * RX(-π/2), RZ(λ) on q; U2(φ, λ) becomes the same five gates with θ = π/2;
 * U1(λ) becomes RZ(λ); every other instruction is copied in order.
 */
module U3Decomposition {
  import opened RealMath
  import opened Gates
  import opened Circuits

  /** `HALF_PI`. */
  const HALF_PI: real := PI / 2.0

  predicate IsU(i: Instruction)
  {
    i.GateOp? && (i.gate.U3? || i.gate.U2? || i.gate.U1?)
  }

  /** U3 and U2 each expand to five gates. */
  predicate IsU3OrU2(i: Instruction)
  {
    i.GateOp? && (i.gate.U3? || i.gate.U2?)
  }

  /** The pass reads q[0] of every U1, U2 and U3 instruction. */
  predicate Ready(s: seq<Instruction>)
  {
    forall k :: 0 <= k < |s| && IsU(s[k]) ==> |s[k].qubits| >= 1
  }

  /** The five-rotation sequence RZ(φ), RX(π/2), RZ(θ), RX(-π/2), RZ(λ) on q. */
  function Rotations(q: int, theta: real, phi: real, lambda: real): seq<Instruction>
  {
    [GateOp(RZ(phi), [q]), GateOp(RX(HALF_PI), [q]), GateOp(RZ(theta), [q]),
     GateOp(RX(-HALF_PI), [q]), GateOp(RZ(lambda), [q])]
  }

  function Expand(i: Instruction): seq<Instruction>
    requires IsU(i) ==> |i.qubits| >= 1
  {
    if !IsU(i) then [Copy(i)]
    else
      var q := i.qubits[0];
      match i.gate
      case U3(theta, phi, lambda) => Rotations(q, theta, phi, lambda)
      case U2(phi, lambda) => Rotations(q, HALF_PI, phi, lambda)
      case U1(lambda) => [GateOp(RZ(lambda), [q])]
  }

  function Decompose(s: seq<Instruction>): seq<Instruction>
    requires Ready(s)
  {
    if |s| == 0 then [] else Decompose(s[..|s| - 1]) + Expand(s[|s| - 1])
  }

  method Apply(c: Circuit) returns (r: Circuit)
    requires Ready(c.instructions)
    ensures r == Circuit(c.numQubits, Decompose(c.instructions))
  {
    var instructions := c.instructions;
    var out: seq<Instruction> := [];
    for k := 0 to |instructions|
      invariant out == Decompose(instructions[..k])
    {
      DecomposeStep(instructions, k);
      ghost var prev := out;
      var inst := instructions[k];
      if inst.GateOp? && inst.gate.U3? {
        var q := inst.qubits[0];
        var theta, phi, lambda := inst.gate.theta, inst.gate.phi, inst.gate.lambda;
        out := out + [GateOp(RZ(phi), [q])];
        out := out + [GateOp(RX(HALF_PI), [q])];
        out := out + [GateOp(RZ(theta), [q])];
        out := out + [GateOp(RX(-HALF_PI), [q])];
        out := out + [GateOp(RZ(lambda), [q])];
        RotationsAppended(prev, q, theta, phi, lambda);
      } else if inst.GateOp? && inst.gate.U2? {
        var q := inst.qubits[0];
        var phi, lambda := inst.gate.phi, inst.gate.lambda;
        out := out + [GateOp(RZ(phi), [q])];
        out := out + [GateOp(RX(HALF_PI), [q])];
        out := out + [GateOp(RZ(HALF_PI), [q])];
        out := out + [GateOp(RX(-HALF_PI), [q])];
        out := out + [GateOp(RZ(lambda), [q])];
        RotationsAppended(prev, q, HALF_PI, phi, lambda);
      } else if inst.GateOp? && inst.gate.U1? {
        var q := inst.qubits[0];
        out := out + [GateOp(RZ(inst.gate.lambda), [q])];
      } else {
        out := out + [Copy(inst)];
      }
      assert out == prev + Expand(inst);
    }
    assert instructions[..|instructions|] == instructions;
    r := Circuit(c.numQubits, out);
  }

  /** Appending the five rotations one by one appends Rotations. */
  lemma RotationsAppended(prev: seq<Instruction>, q: int, theta: real, phi: real, lambda: real)
    ensures prev + [GateOp(RZ(phi), [q])] + [GateOp(RX(HALF_PI), [q])] + [GateOp(RZ(theta), [q])]
      + [GateOp(RX(-HALF_PI), [q])] + [GateOp(RZ(lambda), [q])] == prev + Rotations(q, theta, phi, lambda)
  {
  }

  lemma DecomposeStep(s: seq<Instruction>, k: int)
    requires Ready(s) && 0 <= k < |s|
    ensures Ready(s[..k]) && Ready(s[..k + 1])
    ensures Decompose(s[..k + 1]) == Decompose(s[..k]) + Expand(s[k])
  {
    assert s[..k + 1][..k] == s[..k];
  }

  // ---------------------------------------------------------------- properties

  lemma ReadyAppend(s: seq<Instruction>, t: seq<Instruction>)
    requires Ready(s) && Ready(t)
    ensures Ready(s + t)
  {
    forall k | 0 <= k < |s + t| && IsU((s + t)[k])
      ensures |(s + t)[k].qubits| >= 1
    {
      if k < |s| {
        assert (s + t)[k] == s[k];
      } else {
        assert (s + t)[k] == t[k - |s|];
      }
    }
  }

  /** The expansion is positional: the output of s + t is the output of s followed by that of t. */
  lemma {:induction false} DecomposeAppend(s: seq<Instruction>, t: seq<Instruction>)
    requires Ready(s) && Ready(t)
    ensures Ready(s + t)
    ensures Decompose(s + t) == Decompose(s) + Decompose(t)
    decreases |t|
  {
    ReadyAppend(s, t);
    if |t| == 0 {
      assert s + t == s;
    } else {
      var t' := t[..|t| - 1];
      assert (s + t)[..|s + t| - 1] == s + t';
      assert Ready(t');
      DecomposeAppend(s, t');
    }
  }

  /** Each U gate alone becomes its rotation sequence on the same qubit, and U2 is U3 with θ = π/2. */
  lemma DecomposeOne(q: int, theta: real, phi: real, lambda: real)
    ensures Decompose([GateOp(U3(theta, phi, lambda), [q])]) == Rotations(q, theta, phi, lambda)
    ensures Decompose([GateOp(U2(phi, lambda), [q])]) == Decompose([GateOp(U3(HALF_PI, phi, lambda), [q])])
    ensures Decompose([GateOp(U1(lambda), [q])]) == [GateOp(RZ(lambda), [q])]
  {
    assert [GateOp(U3(theta, phi, lambda), [q])][..0] == [];
    assert [GateOp(U2(phi, lambda), [q])][..0] == [];
    assert [GateOp(U3(HALF_PI, phi, lambda), [q])][..0] == [];
    assert [GateOp(U1(lambda), [q])][..0] == [];
  }

  /** U3 and U2 add four instructions each; U1 and everything else keep the count. */
  lemma {:induction false} DecomposeLength(s: seq<Instruction>)
    requires Ready(s)
    ensures |Decompose(s)| == |s| + 4 * CountWhere(s, IsU3OrU2)
  {
    if |s| > 0 {
      DecomposeLength(s[..|s| - 1]);
    }
  }

  /** The output holds no U1, U2 or U3. */
  lemma {:induction false} DecomposeNoU(s: seq<Instruction>)
    requires Ready(s)
    ensures forall k :: 0 <= k < |Decompose(s)| ==> !IsU(Decompose(s)[k])
  {
    if |s| > 0 {
      DecomposeNoU(s[..|s| - 1]);
      var r := Decompose(s);
      var p := Decompose(s[..|s| - 1]);
      var e := Expand(s[|s| - 1]);
      assert r == p + e;
      forall k | 0 <= k < |r|
        ensures !IsU(r[k])
      {
        if k >= |p| {
          assert r[k] == e[k - |p|];
        }
      }
    }
  }

  /** A circuit without U gates passes through unchanged. */
  lemma {:induction false} DecomposeIdentity(s: seq<Instruction>)
    requires forall k :: 0 <= k < |s| ==> !IsU(s[k])
    ensures Ready(s) && Decompose(s) == s
  {
    if |s| > 0 {
      DecomposeIdentity(s[..|s| - 1]);
    }
  }

  /** Every U gate of a well-formed circuit has its qubit, and the output is well formed again. */
  lemma {:induction false} DecomposeWellFormed(s: seq<Instruction>)
    requires WellFormed(s)
    ensures Ready(s) && WellFormed(Decompose(s))
  {
    if |s| > 0 {
      var p := s[..|s| - 1];
      assert WellFormed(p) by {
        forall k | 0 <= k < |p| && p[k].GateOp?
          ensures |p[k].qubits| == Arity(p[k].gate)
        {
          assert p[k] == s[k];
        }
      }
      DecomposeWellFormed(p);
      WellFormedAppend(Decompose(p), Expand(s[|s| - 1]));
    }
  }

  lemma Idempotent(s: seq<Instruction>)
    requires Ready(s)
    ensures Ready(Decompose(s)) && Decompose(Decompose(s)) == Decompose(s)
  {
    DecomposeNoU(s);
    DecomposeIdentity(Decompose(s));
  }
}
