/**
 * The circuit IR shared by the builders, the passes, the simulator and the
 * QASM importer and exporter: an instruction is a gate on an ordered qubit
 * tuple or a measurement of one qubit into one classical bit, and a circuit
 * is a qubit count with an ordered instruction list.
 */
module Circuits {
  import opened Wrappers
  import opened Gates

  datatype InstructionType = GATE | MEASURE

  /**
   * An instruction value. Java keeps a type tag, a gate (null for a
   * measurement), a qubit array and a classical-bit array (null for a gate);
   * the getters below recover that view.
   */
  datatype Instruction =
    | GateOp(gate: Gate, qubits: seq<int>)
    | MeasureOp(qubit: int, cbit: int)

  /** A circuit value: the qubit count and the instructions in execution order. */
  datatype Circuit = Circuit(numQubits: int, instructions: seq<Instruction>)

  function GetType(i: Instruction): InstructionType
  {
    if i.GateOp? then GATE else MEASURE
  }

  /** `getGate()`, None standing for null. */
  function GetGate(i: Instruction): Option<Gate>
  {
    if i.GateOp? then Some(i.gate) else None
  }

  /** `getQubits()`. */
  function GetQubits(i: Instruction): seq<int>
  {
    if i.GateOp? then i.qubits else [i.qubit]
  }

  /** `getClassicalBits()`, None standing for null. */
  function GetClassicalBits(i: Instruction): Option<seq<int>>
  {
    if i.GateOp? then None else Some([i.cbit])
  }

  /** `Instruction.gate(g, qs)`: a GATE with that gate and those qubits, and no classical bits. */
  function GateInstruction(g: Gate, qs: seq<int>): (r: Instruction)
    ensures GetType(r) == GATE && GetGate(r) == Some(g)
    ensures GetQubits(r) == qs && GetClassicalBits(r) == None
  {
    GateOp(g, qs)
  }

  /** `Instruction.measure(q, c)`: a MEASURE with no gate, qubits [q] and classical bits [c]. */
  function MeasureInstruction(q: int, c: int): (r: Instruction)
    ensures GetType(r) == MEASURE && GetGate(r) == None
    ensures GetQubits(r) == [q] && GetClassicalBits(r) == Some([c])
  {
    MeasureOp(q, c)
  }

  /**
   * `copy()`: same type, same gate, same qubit and classical-bit contents.
   * Instruction values have no identity, so the fresh arrays the Java copy
   * allocates cannot alias anything here.
   */
  function Copy(i: Instruction): (r: Instruction)
    ensures GetType(r) == GetType(i) && GetGate(r) == GetGate(i)
    ensures GetQubits(r) == GetQubits(i) && GetClassicalBits(r) == GetClassicalBits(i)
  {
    match i
    case GateOp(g, qs) => GateOp(g, qs)
    case MeasureOp(q, c) => MeasureOp(q, c)
  }

  /** The getters determine an instruction: two with equal views are equal. */
  lemma ViewDetermines(a: Instruction, b: Instruction)
    requires GetType(a) == GetType(b) && GetGate(a) == GetGate(b)
    requires GetQubits(a) == GetQubits(b) && GetClassicalBits(a) == GetClassicalBits(b)
    ensures a == b
  {
    if a.MeasureOp? {
      assert [a.qubit][0] == [b.qubit][0];
      assert GetClassicalBits(a).value[0] == GetClassicalBits(b).value[0];
    }
  }

  /** MEASURE(q, q) for q = 0 .. n-1 in increasing order; nothing when n <= 0. */
  function MeasureAllOps(n: int): (r: seq<Instruction>)
    ensures |r| == if n <= 0 then 0 else n
    ensures forall q :: 0 <= q < |r| ==> r[q] == MeasureOp(q, q)
  {
    if n <= 0 then [] else MeasureAllOps(n - 1) + [MeasureOp(n - 1, n - 1)]
  }

  /** k copies of one instruction. */
  function Repeat(i: Instruction, k: nat): (r: seq<Instruction>)
    ensures |r| == k && forall j :: 0 <= j < k ==> r[j] == i
  {
    if k == 0 then [] else Repeat(i, k - 1) + [i]
  }

  predicate IsMeasure(i: Instruction)
  {
    i.MeasureOp?
  }

  /** The number of instructions satisfying a class test. */
  function CountWhere(s: seq<Instruction>, p: Instruction -> bool): (r: nat)
    ensures r <= |s|
  {
    if |s| == 0 then 0 else CountWhere(s[..|s| - 1], p) + (if p(s[|s| - 1]) then 1 else 0)
  }

  lemma CountWhereAppend(s: seq<Instruction>, t: seq<Instruction>, p: Instruction -> bool)
    ensures CountWhere(s + t, p) == CountWhere(s, p) + CountWhere(t, p)
    decreases |t|
  {
    if |t| == 0 {
      assert s + t == s;
    } else {
      assert (s + t)[..|s + t| - 1] == s + t[..|t| - 1];
      CountWhereAppend(s, t[..|t| - 1], p);
    }
  }

  /** The instructions satisfying a class test, in their original order. */
  function Filter(s: seq<Instruction>, p: Instruction -> bool): (r: seq<Instruction>)
    ensures |r| == CountWhere(s, p)
    ensures forall k :: 0 <= k < |r| ==> p(r[k])
  {
    if |s| == 0 then [] else Filter(s[..|s| - 1], p) + (if p(s[|s| - 1]) then [s[|s| - 1]] else [])
  }

  lemma {:induction false} FilterAppend(s: seq<Instruction>, t: seq<Instruction>, p: Instruction -> bool)
    ensures Filter(s + t, p) == Filter(s, p) + Filter(t, p)
    decreases |t|
  {
    if |t| == 0 {
      assert s + t == s;
    } else {
      assert (s + t)[..|s + t| - 1] == s + t[..|t| - 1];
      FilterAppend(s, t[..|t| - 1], p);
    }
  }

  /** Every gate instruction carries as many qubits as its gate's arity, as every builder produces. */
  predicate WellFormed(s: seq<Instruction>)
  {
    forall k :: 0 <= k < |s| && s[k].GateOp? ==> |s[k].qubits| == Arity(s[k].gate)
  }

  lemma WellFormedAppend(s: seq<Instruction>, t: seq<Instruction>)
    requires WellFormed(s) && WellFormed(t)
    ensures WellFormed(s + t)
  {
    forall k | 0 <= k < |s + t| && (s + t)[k].GateOp?
      ensures |(s + t)[k].qubits| == Arity((s + t)[k].gate)
    {
      if k < |s| {
        assert (s + t)[k] == s[k];
      } else {
        assert (s + t)[k] == t[k - |s|];
      }
    }
  }

  /** A non-empty list is its prefix followed by its last element. */
  lemma SplitLast(s: seq<Instruction>)
    requires |s| > 0
    ensures s[..|s| - 1] + [s[|s| - 1]] == s
  {
  }

  /** Appending t is appending all of t but its last element, then that element. */
  lemma AppendSplitLast(p: seq<Instruction>, t: seq<Instruction>)
    requires |t| > 0
    ensures p + t[..|t| - 1] + [t[|t| - 1]] == p + t
  {
    SplitLast(t);
    assert p + t[..|t| - 1] + [t[|t| - 1]] == p + (t[..|t| - 1] + [t[|t| - 1]]);
  }

  lemma AppendTwo(p: seq<Instruction>, a: Instruction, b: Instruction)
    ensures p + [a] + [b] == p + [a, b]
  {
  }

  /** The snoc decompositions of a list of up to four instructions. */
  lemma Snocs(a: Instruction, b: Instruction, c: Instruction, d: Instruction)
    ensures [] + [a] == [a] && [a] + [b] == [a, b] && [a, b] + [c] == [a, b, c] && [a, b, c] + [d] == [a, b, c, d]
    ensures [a, b][..1] == [a] && [a, b, c][..2] == [a, b] && [a, b, c, d][..3] == [a, b, c]
  {
  }
}
