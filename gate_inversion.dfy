/**
 * GateInversionPass: the instructions before the first measurement (the
 * unitary prefix) are replaced by their inverses in reverse order; the first
 * measurement and everything after it are copied unchanged.
 */
module GateInversion {
  import opened Wrappers
  import opened RealMath
  import opened Bits
  import opened Gates
  import opened Circuits
  import M = GateMatrices

  /** The classes `inverseOf` maps to themselves, qubits unchanged. */
  predicate SelfInverseClass(g: Gate)
  {
    g.H? || g.X? || g.Y? || g.Z? || g.CNOT? || g.CZ? || g.SWAP? || g.CH? || g.CCX?
  }

  /**
   * `inverseOf`: None (Java's null) for a measurement; self-inverse gates are
   * rebuilt; rotations get the negated angle; U1(λ) becomes RZ(-λ);
   * U3(θ, φ, λ) becomes U3(-θ, -λ, -φ); U2(φ, λ) is treated as U3(π/2, φ, λ);
   * any other gate (S, T, ISWAP and the io CNOT/CCX classes) is copied.
   */
  function InverseOf(i: Instruction): (r: Option<Instruction>)
    ensures r.None? <==> i.MeasureOp?
    ensures r.Some? ==> r.value.GateOp? && r.value.qubits == i.qubits
  {
    match i
    case MeasureOp(_, _) => None
    case GateOp(g, qs) =>
      if SelfInverseClass(g) then Some(GateInstruction(g, qs))
      else if g.RZ? then Some(GateInstruction(RZ(-g.theta), qs))
      else if g.RX? then Some(GateInstruction(RX(-g.theta), qs))
      else if g.RY? then Some(GateInstruction(RY(-g.theta), qs))
      else if g.U1? then Some(GateInstruction(RZ(-g.lambda), qs))
      else if g.U3? then Some(GateInstruction(U3(-g.theta, -g.lambda, -g.phi), qs))
      else if g.U2? then Some(GateInstruction(U3(-PI / 2.0, -g.lambda, -g.phi), qs))
      else Some(Copy(i))
  }

  /** The index of the first measurement, |s| when there is none. */
  function FirstMeasure(s: seq<Instruction>): (f: nat)
    ensures f <= |s|
    ensures forall j :: 0 <= j < f ==> !IsMeasure(s[j])
    ensures f < |s| ==> IsMeasure(s[f])
  {
    if |s| == 0 || IsMeasure(s[0]) then 0 else 1 + FirstMeasure(s[1..])
  }

  /** The inverses of v's instructions, last instruction first; null inverses are skipped. */
  function Adjoint(v: seq<Instruction>): seq<Instruction>
  {
    if |v| == 0 then []
    else Adjoint(v[1..]) + (match InverseOf(v[0]) case Some(x) => [x] case None => [])
  }

  /** The pass output. */
  function Invert(s: seq<Instruction>): seq<Instruction>
  {
    Adjoint(s[..FirstMeasure(s)]) + s[FirstMeasure(s)..]
  }

  /** The first loop: the unitary prefix, and copies of the measurement and all after it. */
  method Partition(instructions: seq<Instruction>) returns (unitary: seq<Instruction>, remainder: seq<Instruction>)
    ensures unitary == instructions[..FirstMeasure(instructions)]
    ensures remainder == instructions[FirstMeasure(instructions)..]
  {
    ghost var f := FirstMeasure(instructions);
    unitary := [];
    remainder := [];
    var seenMeasure := false;
    for k := 0 to |instructions|
      invariant seenMeasure <==> f < k
      invariant unitary == instructions[..if f < k then f else k]
      invariant remainder == if f < k then instructions[f..k] else []
    {
      var inst := instructions[k];
      if !seenMeasure && inst.MeasureOp? {
        seenMeasure := true;
      }
      if seenMeasure {
        assert Copy(inst) == inst;
        assert f <= k && instructions[f..k + 1] == instructions[f..k] + [inst];
        remainder := remainder + [Copy(inst)];
      } else {
        assert instructions[..k + 1] == instructions[..k] + [inst];
        unitary := unitary + [inst];
      }
    }
    assert instructions[..|instructions|] == instructions;
  }

  /** The second loop: the inverses from the last prefix instruction down to the first. */
  method InvertReversed(unitary: seq<Instruction>) returns (out: seq<Instruction>)
    ensures out == Adjoint(unitary)
  {
    out := [];
    var i := |unitary| - 1;
    while i >= 0
      invariant -1 <= i < |unitary|
      invariant out == Adjoint(unitary[i + 1..])
    {
      assert unitary[i..][1..] == unitary[i + 1..];
      var inv := InverseOf(unitary[i]);
      if inv.Some? {
        out := out + [inv.value];
      }
      i := i - 1;
    }
    assert unitary[0..] == unitary;
  }

  method Apply(c: Circuit) returns (r: Circuit)
    ensures r == Circuit(c.numQubits, Invert(c.instructions))
  {
    var unitary, remainder := Partition(c.instructions);
    var out := InvertReversed(unitary);
    ghost var inverted := out;
    for k := 0 to |remainder|
      invariant out == inverted + remainder[..k]
    {
      assert remainder[..k + 1] == remainder[..k] + [remainder[k]];
      out := out + [remainder[k]];
    }
    assert remainder[..|remainder|] == remainder;
    r := Circuit(c.numQubits, out);
  }

  // ---------------------------------------------------------------- properties

  /** U2(φ, λ) is inverted exactly as U3(π/2, φ, λ) is. */
  lemma U2InvertsAsU3(phi: real, lambda: real, qs: seq<int>)
    ensures InverseOf(GateOp(U2(phi, lambda), qs)) == InverseOf(GateOp(U3(PI / 2.0, phi, lambda), qs))
  {
  }

  /**
   * The self-inverse classes are their own inverses as matrices too, so
   * rebuilding them is a true inverse (H and CH given INV_SQRT2² = ½).
   */
  lemma SelfInverseClassesUndo(num: Numerics, g: Gate, qs: seq<int>)
    requires SelfInverseClass(g) && ExactInvSqrt2(num)
    ensures InverseOf(GateOp(g, qs)) == Some(GateOp(g, qs))
    ensures M.MatMul(Matrix(num, g), Matrix(num, g), Pow2(Arity(g))) == M.Identity(Pow2(Arity(g)))
  {
    assert Pow2(1) == 2 && Pow2(2) == 4 && Pow2(3) == 8;
    if g.H? {
      M.HadamardSelfInverse(num);
    } else if g.CH? {
      M.ControlledHadamardSelfInverse(num);
    } else if g.Y? || g.Z? || g.CZ? {
      M.SelfInversePhased();
    } else {
      M.SelfInversePermutations();
    }
  }

  /** The gates inversion maps back to themselves: all but U1 and U2. */
  predicate Involutive(i: Instruction)
  {
    i.GateOp? && !i.gate.U1? && !i.gate.U2?
  }

  /** Inverting an invertible gate twice gives it back. */
  lemma InverseOfInverse(i: Instruction)
    requires Involutive(i)
    ensures InverseOf(InverseOf(i).value) == Some(i)
  {
  }

  /** The adjoint of a measurement-free list: its inverses, last one first. */
  lemma {:induction false} AdjointReverses(v: seq<Instruction>)
    requires forall j :: 0 <= j < |v| ==> !IsMeasure(v[j])
    ensures |Adjoint(v)| == |v|
    ensures forall k :: 0 <= k < |v| ==> Some(Adjoint(v)[k]) == InverseOf(v[|v| - 1 - k])
  {
    if |v| > 0 {
      var w := v[1..];
      AdjointReverses(w);
      var a := Adjoint(v);
      assert a == Adjoint(w) + [InverseOf(v[0]).value];
      forall k | 0 <= k < |v|
        ensures Some(a[k]) == InverseOf(v[|v| - 1 - k])
      {
        if k < |w| {
          assert v[|v| - 1 - k] == w[|w| - 1 - k];
        }
      }
    }
  }

  /**
   * The output has the input's length; before the first measurement it holds
   * the inverses in reverse order, from there on the input unchanged.
   */
  lemma InvertShape(s: seq<Instruction>)
    ensures |Invert(s)| == |s|
    ensures forall k :: 0 <= k < FirstMeasure(s) ==> Some(Invert(s)[k]) == InverseOf(s[FirstMeasure(s) - 1 - k])
    ensures forall k :: FirstMeasure(s) <= k < |s| ==> Invert(s)[k] == s[k]
  {
    var f := FirstMeasure(s);
    var u := s[..f];
    forall j | 0 <= j < |u|
      ensures !IsMeasure(u[j])
    {
      assert u[j] == s[j];
    }
    AdjointReverses(u);
    var a, t := Adjoint(u), Invert(s);
    assert t == a + s[f..];
    forall k | 0 <= k < f
      ensures Some(t[k]) == InverseOf(s[f - 1 - k])
    {
      assert t[k] == a[k] && u[f - 1 - k] == s[f - 1 - k];
    }
    forall k | f <= k < |s|
      ensures t[k] == s[k]
    {
      assert t[k] == s[f..][k - f];
    }
  }

  /** The output's first measurement is where the input's was. */
  lemma InvertKeepsFirstMeasure(s: seq<Instruction>)
    ensures FirstMeasure(Invert(s)) == FirstMeasure(s)
  {
    InvertShape(s);
    var f, t := FirstMeasure(s), Invert(s);
    forall j | 0 <= j < f
      ensures !IsMeasure(t[j])
    {
      assert !IsMeasure(s[f - 1 - j]);
    }
    FirstMeasureAt(t, f);
  }

  /** FirstMeasure is the only index before which there is no measurement and at which there is one. */
  lemma {:induction false} FirstMeasureAt(t: seq<Instruction>, f: nat)
    requires f <= |t|
    requires forall j :: 0 <= j < f ==> !IsMeasure(t[j])
    requires f < |t| ==> IsMeasure(t[f])
    ensures FirstMeasure(t) == f
  {
    if f > 0 {
      assert !IsMeasure(t[0]);
      forall j | 0 <= j < f - 1
        ensures !IsMeasure(t[1..][j])
      {
        assert t[1..][j] == t[j + 1];
      }
      FirstMeasureAt(t[1..], f - 1);
    }
  }

  /**
   * Inverting twice restores the circuit when its unitary prefix holds no U1
   * or U2 (whose inverses are RZ and U3 gates).
   */
  /** Two reversals of an inverted prefix cancel: InvertTwice with the two inversions abstracted. */
  lemma ReverseInverseTwice(s: seq<Instruction>, t: seq<Instruction>, r: seq<Instruction>, f: nat)
    requires f <= |s| && |t| == |s| && |r| == |s|
    requires forall j :: 0 <= j < f ==> Involutive(s[j])
    requires forall k :: 0 <= k < f ==> Some(t[k]) == InverseOf(s[f - 1 - k])
    requires forall k :: f <= k < |s| ==> t[k] == s[k]
    requires forall k :: 0 <= k < f ==> Some(r[k]) == InverseOf(t[f - 1 - k])
    requires forall k :: f <= k < |s| ==> r[k] == t[k]
    ensures r == s
  {
    forall k | 0 <= k < |s|
      ensures r[k] == s[k]
    {
      if k < f {
        var j := f - 1 - k;
        assert Some(t[j]) == InverseOf(s[f - 1 - j]);
        assert f - 1 - j == k;
        InverseOfInverse(s[k]);
      }
    }
  }

  lemma InvertTwice(s: seq<Instruction>)
    requires forall j :: 0 <= j < FirstMeasure(s) ==> Involutive(s[j])
    ensures Invert(Invert(s)) == s
  {
    var f, t := FirstMeasure(s), Invert(s);
    InvertShape(s);
    InvertShape(t);
    InvertKeepsFirstMeasure(s);
    ReverseInverseTwice(s, t, Invert(t), f);
  }

  /** H, X, Z on one qubit invert to Z, X, H. */
  lemma SelfInverseGatesReverseOrder(q: int)
    ensures Invert([GateOp(H, [q]), GateOp(X, [q]), GateOp(Z, [q])]) == [GateOp(Z, [q]), GateOp(X, [q]), GateOp(H, [q])]
  {
    var s := [GateOp(H, [q]), GateOp(X, [q]), GateOp(Z, [q])];
    FirstMeasureAt(s, 3);
    InvertShape(s);
  }

  /** RZ(0.3), RY(-0.7), RX(1.2) invert to RX(-1.2), RY(0.7), RZ(-0.3). */
  lemma RotationAnglesNegatedAndOrderReversed(q: int)
    ensures Invert([GateOp(RZ(0.3), [q]), GateOp(RY(-0.7), [q]), GateOp(RX(1.2), [q])])
         == [GateOp(RX(-1.2), [q]), GateOp(RY(0.7), [q]), GateOp(RZ(-0.3), [q])]
  {
    var s := [GateOp(RZ(0.3), [q]), GateOp(RY(-0.7), [q]), GateOp(RX(1.2), [q])];
    FirstMeasureAt(s, 3);
    InvertShape(s);
  }

  /** H, RZ(0.1), MEASURE: the measurement stays last and the prefix is inverted. */
  lemma MeasurementStopsInversion(q: int, c: int)
    ensures Invert([GateOp(H, [q]), GateOp(RZ(0.1), [q]), MeasureOp(q, c)])
         == [GateOp(RZ(-0.1), [q]), GateOp(H, [q]), MeasureOp(q, c)]
  {
    var s := [GateOp(H, [q]), GateOp(RZ(0.1), [q]), MeasureOp(q, c)];
    FirstMeasureAt(s, 2);
    InvertShape(s);
  }
}
