/**
 * The builder of the com package: every shortcut appends exactly one
 * instruction built from a StandardGates class and returns the same circuit;
 * `measureAll` appends one measurement per qubit.
 */
module ComCircuit {
  import opened Gates
  import opened Circuits

  class QuantumCircuit {
    const numQubits: int
    var instructions: seq<Instruction>

    /** `create(n)`: n qubits and no instructions; the qubit count is fixed from here on. */
    constructor Create(n: int)
      ensures numQubits == n && instructions == []
    {
      numQubits := n;
      instructions := [];
    }

    /** `getNumQubits()`. */
    function GetNumQubits(): int
    {
      numQubits
    }

    /** `getInstructions()`: a read-only view in insertion order. */
    function GetInstructions(): seq<Instruction>
      reads this
    {
      instructions
    }

    /** The circuit as a value, as the passes and the simulator see it. */
    function Value(): Circuit
      reads this
    {
      Circuit(numQubits, instructions)
    }

    /** `apply(gate, qubits...)`: appends one gate instruction and returns this circuit. */
    method Apply(g: Gate, qubits: seq<int>) returns (r: QuantumCircuit)
      modifies this
      ensures r == this && instructions == old(instructions) + [GateInstruction(g, qubits)]
    {
      instructions := instructions + [GateInstruction(g, qubits)];
      r := this;
    }

    method H(qubit: int) returns (r: QuantumCircuit)
      modifies this
      ensures r == this && instructions == old(instructions) + [GateOp(Gates.H, [qubit])]
    {
      instructions := instructions + [GateInstruction(Gates.H, [qubit])];
      r := this;
    }

    method X(qubit: int) returns (r: QuantumCircuit)
      modifies this
      ensures r == this && instructions == old(instructions) + [GateOp(Gates.X, [qubit])]
    {
      instructions := instructions + [GateInstruction(Gates.X, [qubit])];
      r := this;
    }

    method Y(qubit: int) returns (r: QuantumCircuit)
      modifies this
      ensures r == this && instructions == old(instructions) + [GateOp(Gates.Y, [qubit])]
    {
      instructions := instructions + [GateInstruction(Gates.Y, [qubit])];
      r := this;
    }

    method Z(qubit: int) returns (r: QuantumCircuit)
      modifies this
      ensures r == this && instructions == old(instructions) + [GateOp(Gates.Z, [qubit])]
    {
      instructions := instructions + [GateInstruction(Gates.Z, [qubit])];
      r := this;
    }

    method S(qubit: int) returns (r: QuantumCircuit)
      modifies this
      ensures r == this && instructions == old(instructions) + [GateOp(Gates.S, [qubit])]
    {
      instructions := instructions + [GateInstruction(Gates.S, [qubit])];
      r := this;
    }

    method T(qubit: int) returns (r: QuantumCircuit)
      modifies this
      ensures r == this && instructions == old(instructions) + [GateOp(Gates.T, [qubit])]
    {
      instructions := instructions + [GateInstruction(Gates.T, [qubit])];
      r := this;
    }

    method RX(qubit: int, theta: real) returns (r: QuantumCircuit)
      modifies this
      ensures r == this && instructions == old(instructions) + [GateOp(Gates.RX(theta), [qubit])]
    {
      instructions := instructions + [GateInstruction(Gates.RX(theta), [qubit])];
      r := this;
    }

    method RY(qubit: int, theta: real) returns (r: QuantumCircuit)
      modifies this
      ensures r == this && instructions == old(instructions) + [GateOp(Gates.RY(theta), [qubit])]
    {
      instructions := instructions + [GateInstruction(Gates.RY(theta), [qubit])];
      r := this;
    }

    method RZ(qubit: int, theta: real) returns (r: QuantumCircuit)
      modifies this
      ensures r == this && instructions == old(instructions) + [GateOp(Gates.RZ(theta), [qubit])]
    {
      instructions := instructions + [GateInstruction(Gates.RZ(theta), [qubit])];
      r := this;
    }

    /** Stores the qubits as [control, target], in argument order. */
    method CX(control: int, target: int) returns (r: QuantumCircuit)
      modifies this
      ensures r == this && instructions == old(instructions) + [GateOp(Gates.CNOT, [control, target])]
    {
      instructions := instructions + [GateInstruction(Gates.CNOT, [control, target])];
      r := this;
    }

    /** Stores the qubits as [control, target], in argument order. */
    method CZ(control: int, target: int) returns (r: QuantumCircuit)
      modifies this
      ensures r == this && instructions == old(instructions) + [GateOp(Gates.CZ, [control, target])]
    {
      instructions := instructions + [GateInstruction(Gates.CZ, [control, target])];
      r := this;
    }

    /** Stores the qubits as [q0, q1], in argument order. */
    method Swap(q0: int, q1: int) returns (r: QuantumCircuit)
      modifies this
      ensures r == this && instructions == old(instructions) + [GateOp(Gates.SWAP, [q0, q1])]
    {
      instructions := instructions + [GateInstruction(Gates.SWAP, [q0, q1])];
      r := this;
    }

    /** Stores the qubits as [q0, q1], in argument order. */
    method Iswap(q0: int, q1: int) returns (r: QuantumCircuit)
      modifies this
      ensures r == this && instructions == old(instructions) + [GateOp(Gates.ISWAP, [q0, q1])]
    {
      instructions := instructions + [GateInstruction(Gates.ISWAP, [q0, q1])];
      r := this;
    }

    /** Stores the qubits as [control, target], in argument order. */
    method CH(control: int, target: int) returns (r: QuantumCircuit)
      modifies this
      ensures r == this && instructions == old(instructions) + [GateOp(Gates.CH, [control, target])]
    {
      instructions := instructions + [GateInstruction(Gates.CH, [control, target])];
      r := this;
    }

    /** Stores the qubits as [control1, control2, target], in argument order. */
    method CCX(control1: int, control2: int, target: int) returns (r: QuantumCircuit)
      modifies this
      ensures r == this && instructions == old(instructions) + [GateOp(Gates.CCX, [control1, control2, target])]
    {
      instructions := instructions + [GateInstruction(Gates.CCX, [control1, control2, target])];
      r := this;
    }

    /** `addInstruction(i)`: appends i itself. */
    method AddInstruction(i: Instruction) returns (r: QuantumCircuit)
      modifies this
      ensures r == this && instructions == old(instructions) + [i]
    {
      instructions := instructions + [i];
      r := this;
    }

    method U3(qubit: int, theta: real, phi: real, lambda: real) returns (r: QuantumCircuit)
      modifies this
      ensures r == this && instructions == old(instructions) + [GateOp(Gates.U3(theta, phi, lambda), [qubit])]
    {
      instructions := instructions + [GateInstruction(Gates.U3(theta, phi, lambda), [qubit])];
      r := this;
    }

    method U2(qubit: int, phi: real, lambda: real) returns (r: QuantumCircuit)
      modifies this
      ensures r == this && instructions == old(instructions) + [GateOp(Gates.U2(phi, lambda), [qubit])]
    {
      instructions := instructions + [GateInstruction(Gates.U2(phi, lambda), [qubit])];
      r := this;
    }

    method U1(qubit: int, lambda: real) returns (r: QuantumCircuit)
      modifies this
      ensures r == this && instructions == old(instructions) + [GateOp(Gates.U1(lambda), [qubit])]
    {
      instructions := instructions + [GateInstruction(Gates.U1(lambda), [qubit])];
      r := this;
    }

    /** `measure(q, c)`: appends MEASURE(q, c). */
    method Measure(qubit: int, classicalBit: int) returns (r: QuantumCircuit)
      modifies this
      ensures r == this && instructions == old(instructions) + [MeasureOp(qubit, classicalBit)]
    {
      instructions := instructions + [MeasureInstruction(qubit, classicalBit)];
      r := this;
    }

    /** `measureAll()`: appends MEASURE(q, q) for q = 0 .. numQubits-1 in increasing order. */
    method MeasureAll() returns (r: QuantumCircuit)
      modifies this
      ensures r == this && instructions == old(instructions) + MeasureAllOps(numQubits)
    {
      var q := 0;
      while q < numQubits
        invariant 0 <= q <= if numQubits < 0 then 0 else numQubits
        invariant instructions == old(instructions) + MeasureAllOps(q)
      {
        instructions := instructions + [MeasureInstruction(q, q)];
        q := q + 1;
      }
      r := this;
    }
  }
}
