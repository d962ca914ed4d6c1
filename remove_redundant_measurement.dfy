/**
 * RemoveRedundantMeasurementPass: a numQubits x numQubits table records the
 * (qubit, classical bit) pairs already measured. The first MEASURE of each
 * pair is kept and every later one is dropped, however many gates lie in
 * between; every gate is kept.
 */
module RemoveRedundantMeasurement {
  import opened Gates
  import opened Circuits

  /** The pair a measurement writes. */
  function Pair(i: Instruction): (int, int)
    requires i.MeasureOp?
  {
    (i.qubit, i.cbit)
  }

  /**
   * The table is numQubits x numQubits and indexed by the measurement's qubit
   * and classical bit: a negative size or an index outside it throws.
   */
  predicate InRange(n: int, s: seq<Instruction>)
  {
    n >= 0 &&
    forall k :: 0 <= k < |s| && s[k].MeasureOp? ==> 0 <= s[k].qubit < n && 0 <= s[k].cbit < n
  }

  /** The pairs measured somewhere in s. */
  function Measured(s: seq<Instruction>): (r: set<(int, int)>)
    ensures forall k :: 0 <= k < |s| && s[k].MeasureOp? ==> Pair(s[k]) in r
  {
    if |s| == 0 then {}
    else
      var i := s[|s| - 1];
      Measured(s[..|s| - 1]) + (if i.MeasureOp? then {Pair(i)} else {})
  }

  /** A measurement of a pair already measured earlier. */
  predicate Redundant(seen: set<(int, int)>, i: Instruction)
  {
    i.MeasureOp? && Pair(i) in seen
  }

  /** The pass output: s without the measurements of pairs measured before them. */
  function Dedup(s: seq<Instruction>): seq<Instruction>
  {
    if |s| == 0 then []
    else
      var p := s[..|s| - 1];
      Dedup(p) + (if Redundant(Measured(p), s[|s| - 1]) then [] else [s[|s| - 1]])
  }

  method Apply(c: Circuit) returns (r: Circuit)
    requires InRange(c.numQubits, c.instructions)
    ensures r == Circuit(c.numQubits, Dedup(c.instructions))
  {
    var n := c.numQubits;
    var instructions := c.instructions;
    var out: seq<Instruction> := [];
    var seen := new bool[n, n]((_, _) => false);
    for k := 0 to |instructions|
      invariant out == Dedup(instructions[..k])
      invariant forall q, b :: 0 <= q < n && 0 <= b < n ==> (seen[q, b] <==> (q, b) in Measured(instructions[..k]))
    {
      assert instructions[..k + 1][..k] == instructions[..k];
      var inst := instructions[k];
      if inst.MeasureOp? {
        var q := inst.qubit;
        var b := inst.cbit;
        if seen[q, b] {
          continue;
        }
        seen[q, b] := true;
      }
      out := out + [inst];
    }
    assert instructions[..|instructions|] == instructions;
    r := Circuit(c.numQubits, out);
  }

  // ---------------------------------------------------------------- properties

  predicate IsGate(i: Instruction)
  {
    i.GateOp?
  }

  /** No pair is measured twice. */
  predicate NoRepeat(s: seq<Instruction>)
  {
    forall j, k :: 0 <= j < k < |s| && s[j].MeasureOp? && s[k].MeasureOp? ==> Pair(s[j]) != Pair(s[k])
  }

  /** Every gate is kept, in its order. */
  lemma {:induction false} DedupKeepsGates(s: seq<Instruction>)
    ensures Filter(Dedup(s), IsGate) == Filter(s, IsGate)
  {
    if |s| > 0 {
      var p := s[..|s| - 1];
      var i := s[|s| - 1];
      DedupKeepsGates(p);
      FilterAppend(Dedup(p), if Redundant(Measured(p), i) then [] else [i], IsGate);
      FilterAppend(p, [i], IsGate);
      SplitLast(s);
      assert [i][..0] == [];
    }
  }

  /** The output measures exactly the pairs the input measures: the first measurement of each stays. */
  lemma {:induction false} DedupKeepsPairs(s: seq<Instruction>)
    ensures Measured(Dedup(s)) == Measured(s)
  {
    if |s| > 0 {
      var p := s[..|s| - 1];
      var i := s[|s| - 1];
      DedupKeepsPairs(p);
      var e := if Redundant(Measured(p), i) then [] else [i];
      MeasuredAppend(Dedup(p), e);
    }
  }

  lemma {:induction false} MeasuredAppend(s: seq<Instruction>, t: seq<Instruction>)
    ensures Measured(s + t) == Measured(s) + Measured(t)
    decreases |t|
  {
    if |t| == 0 {
      assert s + t == s;
    } else {
      assert (s + t)[..|s + t| - 1] == s + t[..|t| - 1];
      MeasuredAppend(s, t[..|t| - 1]);
    }
  }

  /** Every pair Measured counts is the pair of some measurement of s. */
  lemma {:induction false} MeasuredWitness(s: seq<Instruction>, pr: (int, int))
    requires pr in Measured(s)
    ensures exists k :: 0 <= k < |s| && s[k].MeasureOp? && Pair(s[k]) == pr
  {
    var p := s[..|s| - 1];
    if pr in Measured(p) {
      MeasuredWitness(p, pr);
      var k :| 0 <= k < |p| && p[k].MeasureOp? && Pair(p[k]) == pr;
      assert s[k] == p[k];
    } else {
      assert s[|s| - 1].MeasureOp? && Pair(s[|s| - 1]) == pr;
    }
  }

  /** The output has no repeated pair. */
  lemma {:induction false} DedupNoRepeat(s: seq<Instruction>)
    ensures NoRepeat(Dedup(s))
  {
    if |s| > 0 {
      var p := s[..|s| - 1];
      var i := s[|s| - 1];
      DedupNoRepeat(p);
      DedupKeepsPairs(p);
      var d := Dedup(p);
      if !Redundant(Measured(p), i) {
        var r := d + [i];
        forall j, k | 0 <= j < k < |r| && r[j].MeasureOp? && r[k].MeasureOp?
          ensures Pair(r[j]) != Pair(r[k])
        {
          if k == |d| {
            assert r[j] == d[j];
            assert Pair(d[j]) in Measured(d);
          } else {
            assert r[j] == d[j] && r[k] == d[k];
          }
        }
      }
    }
  }

  /** A circuit with no repeated pair passes through unchanged. */
  lemma {:induction false} NoRepeatIdentity(s: seq<Instruction>)
    requires NoRepeat(s)
    ensures Dedup(s) == s
  {
    if |s| > 0 {
      var p := s[..|s| - 1];
      var i := s[|s| - 1];
      assert NoRepeat(p) by {
        forall j, k | 0 <= j < k < |p| && p[j].MeasureOp? && p[k].MeasureOp?
          ensures Pair(p[j]) != Pair(p[k])
        {
          assert p[j] == s[j] && p[k] == s[k];
        }
      }
      NoRepeatIdentity(p);
      if Redundant(Measured(p), i) {
        MeasuredWitness(p, Pair(i));
        assert false;
      }
      SplitLast(s);
    }
  }

  /** A second run is a no-op. */
  lemma Idempotent(s: seq<Instruction>)
    ensures Dedup(Dedup(s)) == Dedup(s)
  {
    DedupNoRepeat(s);
    NoRepeatIdentity(Dedup(s));
  }

  /** Every output instruction is an input instruction. */
  lemma {:induction false} DedupSubset(s: seq<Instruction>)
    ensures forall k :: 0 <= k < |Dedup(s)| ==> Dedup(s)[k] in s
  {
    if |s| > 0 {
      var p := s[..|s| - 1];
      DedupSubset(p);
      assert forall i :: i in p ==> i in s;
    }
  }

  /** MEASURE(q, c) twice in a row keeps only the first. */
  lemma RepeatDropped(q: int, b: int)
    ensures Dedup([MeasureOp(q, b), MeasureOp(q, b)]) == [MeasureOp(q, b)]
  {
    var m := MeasureOp(q, b);
    var s := [m, m];
    assert s[..1] == [m] && s[..1][..0] == [];
    assert Dedup(s[..1]) == [m];
    assert Pair(m) in Measured(s[..1]);
  }

  /** MEASURE(q, c), a gate, MEASURE(q, c): the second measurement goes although a gate lies between. */
  lemma RepeatAfterGateDropped(q: int, b: int, i: Instruction)
    requires i.GateOp?
    ensures Dedup([MeasureOp(q, b), i, MeasureOp(q, b)]) == [MeasureOp(q, b), i]
  {
    var m := MeasureOp(q, b);
    var s := [m, i, m];
    var t := s[..2];
    var u := t[..1];
    assert t == [m, i] && u == [m] && u[..0] == [];
    assert Dedup(u) == [m];
    assert Dedup(t) == [m, i];
    assert Pair(t[0]) in Measured(t);
    assert Dedup(s) == Dedup(t);
  }

  /** MEASURE(q, c) and MEASURE(q, c') with c != c' are both kept. */
  lemma OtherBitKept(q: int, b: int, b': int)
    requires b != b'
    ensures Dedup([MeasureOp(q, b), MeasureOp(q, b')]) == [MeasureOp(q, b), MeasureOp(q, b')]
  {
    var s := [MeasureOp(q, b), MeasureOp(q, b')];
    assert NoRepeat(s);
    NoRepeatIdentity(s);
  }
}
