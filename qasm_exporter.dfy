/**
 * QasmExporter: OpenQASM 2.0 text for a circuit. A fixed header, a quantum
 * and a classical register of the circuit's width, then one line per
 * instruction in order. `Double.toString` is the parameter `fmt`.
 */
module QasmExporter {
  import opened Wrappers
  import opened Gates
  import opened Circuits
  import opened Strings
  import IoCircuit

  /** `Double.toString`, as the exporter's StringBuilder appends a double. */
  type Formatter = real -> string

  /** `reg[i]`, an indexed register reference. */
  function Ref(reg: char, i: int): string
  {
    [reg] + "[" + IntToString(i) + "]"
  }

  function Refs(qs: seq<int>): (r: seq<string>)
    ensures |r| == |qs| && forall k :: 0 <= k < |qs| ==> r[k] == Ref('q', qs[k])
  {
    if |qs| == 0 then [] else [Ref('q', qs[0])] + Refs(qs[1..])
  }

  /** The text before the instructions: version, include, and the two register declarations. */
  function HeaderLines(n: int): seq<string>
  {
    ["OPENQASM 2.0;", "include \"qelib1.inc\";", "", "qreg " + Ref('q', n) + ";", "creg " + Ref('c', n) + ";", ""]
  }

  /** `name q[a], q[b], ...;` with the first k qubits; a shorter qubit array overruns. */
  function PlainLine(name: string, qs: seq<int>, k: nat): (r: Result<string>)
    ensures r.Ok? <==> |qs| >= k
    ensures r.Err? ==> r.error == IndexOutOfBounds
  {
    if |qs| < k then Err(IndexOutOfBounds) else Ok(name + " " + JoinWith(Refs(qs[..k]), ", ") + ";")
  }

  /** `name(p1, p2, ...) q[a];`. */
  function ParamLine(name: string, ps: seq<real>, qs: seq<int>, fmt: Formatter): (r: Result<string>)
    ensures r.Ok? <==> |qs| >= 1
    ensures r.Err? ==> r.error == IndexOutOfBounds
  {
    if |qs| < 1 then Err(IndexOutOfBounds)
    else Ok(name + "(" + JoinWith(Formatted(ps, fmt), ", ") + ") " + Ref('q', qs[0]) + ";")
  }

  function Formatted(ps: seq<real>, fmt: Formatter): (r: seq<string>)
    ensures |r| == |ps| && forall k :: 0 <= k < |ps| ==> r[k] == fmt(ps[k])
  {
    if |ps| == 0 then [] else [fmt(ps[0])] + Formatted(ps[1..], fmt)
  }

  /**
   * `appendGate`: the line for one gate, tested class by class in the order of
   * `appendGate`'s `instanceof` chain (`QasmExporter.java` lines 58-159). The
   * rotations and U gates print their parameters, the other single-qubit gates
   * and the unlisted two-qubit class print their lowercase name, and a gate
   * class none of the tests recognises is unsupported.
   */
  function GateLine(g: Gate, qs: seq<int>, fmt: Formatter): (r: Result<string>)
    ensures r.Err? <==> g.IoCCX? || |qs| < Arity(g)
    ensures r.Err? ==> r.error == (if g.IoCCX? then UnsupportedOperation else IndexOutOfBounds)
  {
    match g
    case RX(theta) => ParamLine("rx", [theta], qs, fmt)
    case RY(theta) => ParamLine("ry", [theta], qs, fmt)
    case RZ(theta) => ParamLine("rz", [theta], qs, fmt)
    case U1(lambda) => ParamLine("u1", [lambda], qs, fmt)
    case U2(phi, lambda) => ParamLine("u2", [phi, lambda], qs, fmt)
    case U3(theta, phi, lambda) => ParamLine("u3", [theta, phi, lambda], qs, fmt)
    case X => PlainLine(ToLower(Name(g)), qs, 1)
    case Y => PlainLine(ToLower(Name(g)), qs, 1)
    case Z => PlainLine(ToLower(Name(g)), qs, 1)
    case H => PlainLine(ToLower(Name(g)), qs, 1)
    case S => PlainLine(ToLower(Name(g)), qs, 1)
    case T => PlainLine(ToLower(Name(g)), qs, 1)
    case CNOT => PlainLine("cx", qs, 2)
    case CZ => PlainLine("cz", qs, 2)
    case SWAP => PlainLine("swap", qs, 2)
    case ISWAP => PlainLine("iswap", qs, 2)
    case CH => PlainLine("ch", qs, 2)
    case IoCNOT => PlainLine(ToLower(Name(g)), qs, 2)
    case CCX => PlainLine("ccx", qs, 3)
    case IoCCX => Err(UnsupportedOperation)
  }

  /** `measure q[i] -> c[j];`. */
  function MeasureLine(q: int, c: int): string
  {
    "measure " + Ref('q', q) + " -> " + Ref('c', c) + ";"
  }

  function InstructionLine(i: Instruction, fmt: Formatter): Result<string>
  {
    match i
    case GateOp(g, qs) => GateLine(g, qs, fmt)
    case MeasureOp(q, c) => Ok(MeasureLine(q, c))
  }

  /** The lines of the instructions: one per instruction, in order, or the first instruction's failure. */
  function BodyLines(s: seq<Instruction>, fmt: Formatter): Result<seq<string>>
  {
    if |s| == 0 then Ok([])
    else
      var prefix := BodyLines(s[..|s| - 1], fmt);
      var last := InstructionLine(s[|s| - 1], fmt);
      if prefix.Err? then Err(prefix.error)
      else if last.Err? then Err(last.error)
      else Ok(prefix.value + [last.value])
  }

  /** The whole text: the header lines and the instruction lines, each ended by a newline. */
  function Export(c: Circuit, fmt: Formatter): Result<string>
  {
    var body :- BodyLines(c.instructions, fmt);
    Ok(Terminated(HeaderLines(c.numQubits) + body))
  }

  /** `toQasm`: a StringBuilder filled header first, then one line per instruction. */
  method ToQasm(circuit: IoCircuit.QuantumCircuit, fmt: Formatter) returns (r: Result<string>)
    ensures r == Export(circuit.Value(), fmt)
  {
    var sb := "OPENQASM 2.0;\n";
    sb := sb + "include \"qelib1.inc\";\n\n";
    var nq := circuit.numQubits;
    sb := sb + "qreg " + Ref('q', nq) + ";\n";
    sb := sb + "creg " + Ref('c', nq) + ";\n\n";
    HeaderText(nq);
    ghost var header := sb;
    var instructions := circuit.instructions;
    for k := 0 to |instructions|
      invariant BodyLines(instructions[..k], fmt).Ok?
      invariant sb == header + Terminated(BodyLines(instructions[..k], fmt).value)
    {
      var line := InstructionLine(instructions[k], fmt);
      if line.Err? {
        BodyLinesFailure(instructions, k, fmt);
        return Err(line.error);
      }
      ghost var done := BodyLines(instructions[..k], fmt).value;
      BodyLinesSnoc(instructions, k, fmt);
      TerminatedSnoc(done, line.value);
      Regroup(header, Terminated(done), line.value, "\n");
      sb := sb + line.value + "\n";
    }
    assert instructions[..|instructions|] == instructions;
    TerminatedAppend(HeaderLines(nq), BodyLines(instructions, fmt).value);
    r := Ok(sb);
  }

  // ---------------------------------------------------------------- properties

  /** The header is the version line, the include line, a blank line, the two declarations and a blank line. */
  lemma HeaderText(n: int)
    ensures Terminated(HeaderLines(n)) ==
      "OPENQASM 2.0;\n" + "include \"qelib1.inc\";\n\n" + "qreg " + Ref('q', n) + ";\n" + "creg " + Ref('c', n) + ";\n\n"
  {
    HeaderShape(Ref('q', n), Ref('c', n));
  }

  lemma HeaderShape(x: string, y: string)
    ensures Terminated(["OPENQASM 2.0;", "include \"qelib1.inc\";", "", "qreg " + x + ";", "creg " + y + ";", ""]) ==
      "OPENQASM 2.0;\n" + "include \"qelib1.inc\";\n\n" + "qreg " + x + ";\n" + "creg " + y + ";\n\n"
  {
    var a := ["OPENQASM 2.0;", "include \"qelib1.inc\";", ""];
    var b := ["qreg " + x + ";", "creg " + y + ";", ""];
    assert a + b == ["OPENQASM 2.0;", "include \"qelib1.inc\";", "", "qreg " + x + ";", "creg " + y + ";", ""];
    TerminatedAppend(a, b);
    Terminated3(a[0], a[1], a[2]);
    Terminated3(b[0], b[1], b[2]);
    assert Terminated(a) == "OPENQASM 2.0;\n" + "include \"qelib1.inc\";\n\n";
    assert Terminated(b) == "qreg " + x + ";\n" + "creg " + y + ";\n\n";
    var t := "creg " + y + ";\n\n";
    Regroup("OPENQASM 2.0;\n" + "include \"qelib1.inc\";\n\n", "qreg ", x, ";\n");
    Regroup("OPENQASM 2.0;\n" + "include \"qelib1.inc\";\n\n", "qreg " + x, ";\n", t);
  }

  lemma Terminated3(a: string, b: string, c: string)
    ensures Terminated([a, b, c]) == a + "\n" + (b + "\n" + (c + "\n"))
  {
    assert [a, b, c][1..] == [b, c] && [b, c][1..] == [c] && [c][1..] == [];
    assert Terminated([c]) == c + "\n" + "";
    assert c + "\n" + "" == c + "\n";
  }

  /** Printing succeeds with one line per instruction, in order. */
  lemma {:induction false} BodyLinesShape(s: seq<Instruction>, fmt: Formatter)
    requires BodyLines(s, fmt).Ok?
    ensures |BodyLines(s, fmt).value| == |s|
    ensures forall k :: 0 <= k < |s| ==> InstructionLine(s[k], fmt) == Ok(BodyLines(s, fmt).value[k])
  {
    if |s| > 0 {
      var p := s[..|s| - 1];
      BodyLinesShape(p, fmt);
      var lines := BodyLines(s, fmt).value;
      var before := BodyLines(p, fmt).value;
      assert lines == before + [InstructionLine(s[|s| - 1], fmt).value];
      forall k | 0 <= k < |s|
        ensures InstructionLine(s[k], fmt) == Ok(lines[k])
      {
        if k < |p| {
          assert s[k] == p[k] && lines[k] == before[k];
        }
      }
    }
  }

  /** Printing fails only with the failure of some instruction. */
  lemma {:induction false} BodyLinesError(s: seq<Instruction>, fmt: Formatter)
    requires BodyLines(s, fmt).Err?
    ensures exists k :: 0 <= k < |s| && InstructionLine(s[k], fmt) == Err(BodyLines(s, fmt).error)
  {
    var p := s[..|s| - 1];
    if BodyLines(p, fmt).Err? {
      BodyLinesError(p, fmt);
      var k :| 0 <= k < |p| && InstructionLine(p[k], fmt) == Err(BodyLines(p, fmt).error);
      assert s[k] == p[k];
    } else {
      assert InstructionLine(s[|s| - 1], fmt) == Err(BodyLines(s, fmt).error);
    }
  }

  lemma BodyLinesSnoc(s: seq<Instruction>, k: int, fmt: Formatter)
    requires 0 <= k < |s| && BodyLines(s[..k], fmt).Ok? && InstructionLine(s[k], fmt).Ok?
    ensures BodyLines(s[..k + 1], fmt) == Ok(BodyLines(s[..k], fmt).value + [InstructionLine(s[k], fmt).value])
  {
    assert s[..k + 1][..k] == s[..k];
  }

  /** When the instruction at k is the first one that cannot be printed, its failure is the export's. */
  lemma {:induction false} BodyLinesFailure(s: seq<Instruction>, k: int, fmt: Formatter)
    requires 0 <= k < |s| && BodyLines(s[..k], fmt).Ok? && InstructionLine(s[k], fmt).Err?
    ensures BodyLines(s, fmt) == Err(InstructionLine(s[k], fmt).error)
    decreases |s|
  {
    if k == |s| - 1 {
      assert s[..|s| - 1] == s[..k];
    } else {
      var p := s[..|s| - 1];
      assert p[..k] == s[..k] && p[k] == s[k];
      BodyLinesFailure(p, k, fmt);
    }
  }

  /** Every gate a builder can produce prints, except io CCXGate; a short qubit array overruns. */
  lemma ExportFails(c: Circuit, fmt: Formatter)
    ensures Export(c, fmt).Err? <==>
      exists k :: 0 <= k < |c.instructions| && c.instructions[k].GateOp? &&
        (c.instructions[k].gate.IoCCX? || |c.instructions[k].qubits| < Arity(c.instructions[k].gate))
  {
    var s := c.instructions;
    if Export(c, fmt).Err? {
      BodyLinesError(s, fmt);
      var k :| 0 <= k < |s| && InstructionLine(s[k], fmt).Err?;
      assert s[k].GateOp?;
    } else {
      BodyLinesShape(s, fmt);
      forall k | 0 <= k < |s| && s[k].GateOp?
        ensures !s[k].gate.IoCCX? && |s[k].qubits| >= Arity(s[k].gate)
      {
        assert InstructionLine(s[k], fmt).Ok?;
      }
    }
  }

  /** A well-formed circuit without io CCXGate always exports. */
  lemma ExportSucceeds(c: Circuit, fmt: Formatter)
    requires WellFormed(c.instructions)
    requires forall k :: 0 <= k < |c.instructions| && c.instructions[k].GateOp? ==> !c.instructions[k].gate.IoCCX?
    ensures Export(c, fmt).Ok?
  {
    ExportFails(c, fmt);
  }

  /**
   * The text is the version line, the include line and a blank line, the
   * declarations of q and c with the circuit's width and a blank line, and then
   * the instruction lines.
   */
  lemma ExportText(c: Circuit, fmt: Formatter)
    requires Export(c, fmt).Ok?
    ensures Export(c, fmt).value ==
      "OPENQASM 2.0;\n" + "include \"qelib1.inc\";\n\n" + "qreg " + Ref('q', c.numQubits) + ";\n" +
      "creg " + Ref('c', c.numQubits) + ";\n\n" + Terminated(BodyLines(c.instructions, fmt).value)
  {
    TerminatedAppend(HeaderLines(c.numQubits), BodyLines(c.instructions, fmt).value);
    HeaderText(c.numQubits);
  }

  /** Each instruction's line is the k-th line after the header. */
  lemma ExportLines(c: Circuit, fmt: Formatter)
    requires Export(c, fmt).Ok?
    ensures Export(c, fmt).value == Terminated(HeaderLines(c.numQubits) + BodyLines(c.instructions, fmt).value)
    ensures |BodyLines(c.instructions, fmt).value| == |c.instructions|
    ensures forall k :: 0 <= k < |c.instructions| ==>
      Ok(BodyLines(c.instructions, fmt).value[k]) == InstructionLine(c.instructions[k], fmt)
  {
    BodyLinesShape(c.instructions, fmt);
  }

  /** CNOT prints its control and its target in argument order. */
  lemma CnotOrder(a: int, b: int, fmt: Formatter)
    ensures GateLine(CNOT, [a, b], fmt) == Ok("cx" + " " + (Ref('q', a) + ", " + Ref('q', b)) + ";")
  {
    assert [a, b][..2] == [a, b];
    var x, y := Ref('q', a), Ref('q', b);
    assert Refs([a, b]) == [x, y];
    Join2(x, y, ", ");
  }

  /** CCX prints its two controls and its target in argument order. */
  lemma CcxOrder(a: int, b: int, d: int, fmt: Formatter)
    ensures GateLine(CCX, [a, b, d], fmt) == Ok("ccx" + " " + (Ref('q', a) + ", " + Ref('q', b) + ", " + Ref('q', d)) + ";")
  {
    assert [a, b, d][..3] == [a, b, d];
    var x, y, z := Ref('q', a), Ref('q', b), Ref('q', d);
    assert Refs([a, b, d]) == [x, y, z];
    Join3(x, y, z, ", ");
  }

  lemma Join2(x: string, y: string, sep: string)
    ensures JoinWith([x, y], sep) == x + sep + y
  {
    assert [x, y][1..] == [y];
  }

  lemma Join3(x: string, y: string, z: string, sep: string)
    ensures JoinWith([x, y, z], sep) == x + sep + y + sep + z
  {
    assert [x, y, z][1..] == [y, z];
    Join2(y, z, sep);
  }

  /** Parameters come in the order theta, phi, lambda, separated by a comma and a space. */
  lemma ParameterOrder(theta: real, phi: real, lambda: real, q: int, fmt: Formatter)
    ensures GateLine(U3(theta, phi, lambda), [q], fmt) ==
      Ok("u3" + "(" + (fmt(theta) + ", " + fmt(phi) + ", " + fmt(lambda)) + ") " + Ref('q', q) + ";")
    ensures GateLine(U2(phi, lambda), [q], fmt) == Ok("u2" + "(" + (fmt(phi) + ", " + fmt(lambda)) + ") " + Ref('q', q) + ";")
    ensures GateLine(RX(theta), [q], fmt) == Ok("rx" + "(" + fmt(theta) + ") " + Ref('q', q) + ";")
  {
    assert Formatted([theta, phi, lambda], fmt) == [fmt(theta), fmt(phi), fmt(lambda)];
    assert Formatted([phi, lambda], fmt) == [fmt(phi), fmt(lambda)];
    assert Formatted([theta], fmt) == [fmt(theta)];
    Join3(fmt(theta), fmt(phi), fmt(lambda), ", ");
    Join2(fmt(phi), fmt(lambda), ", ");
  }

  /** io CNOTGate falls through to the name it reports, so it prints exactly as StandardGates CNOT. */
  lemma IoCnotPrintsAsCx(qs: seq<int>, fmt: Formatter)
    ensures GateLine(IoCNOT, qs, fmt) == GateLine(CNOT, qs, fmt)
  {
    LowerName(IoCNOT);
  }

  /** Gate names are already lowercase. */
  lemma LowerName(g: Gate)
    ensures ToLower(Name(g)) == Name(g)
  {
    NamesAreLowercase(g);
    ToLowerNoCapitals(Name(g));
  }
}
