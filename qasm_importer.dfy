/**
 * QasmImporter: OpenQASM 2.0 text to a circuit built with the com builder.
 * Comments are cut, lines are trimmed and buffered up to a semicolon, and each
 * statement is header, register declaration, measurement or gate. Every
 * rejection is a QasmParseException, here Err(QasmParse). `Double.parseDouble`
 * is the parameter `parse`, None standing for its NumberFormatException.
 */
module QasmImporter {
  import opened Wrappers
  import opened Gates
  import opened Circuits
  import opened Strings
  import ComCircuit

  type Parser = string -> Option<real>

  // ---------------------------------------------------------------- comments and lines

  /** A line up to its first "//". */
  function CutComment(line: string): (r: string)
    ensures |r| <= |line| && r == line[..|r|]
  {
    var idx := IndexOfSub(line, "//");
    if idx >= 0 then line[..idx] else line
  }

  function CutAll(ls: seq<string>): (r: seq<string>)
    ensures |r| == |ls| && forall k :: 0 <= k < |ls| ==> r[k] == CutComment(ls[k])
  {
    if |ls| == 0 then [] else [CutComment(ls[0])] + CutAll(ls[1..])
  }

  /** `stripComments`: each piece of `split("\r?\n")` cut at "//" and ended by a newline. */
  function StripComments(src: string): string
  {
    Terminated(CutAll(LineSplit(src)))
  }

  /** The lines `fromQasm` walks: the stripped text split at newlines. */
  function SourceLines(qasm: string): seq<string>
  {
    Split(StripComments(qasm), "\n")
  }

  // ---------------------------------------------------------------- recognisers

  /** What follows a leading `q[<digits>]`, if s starts with one. */
  function QubitRef(s: string): (r: Option<string>)
    ensures r.Some? ==> |r.value| + 4 <= |s|
  {
    if StartsWith(s, "q[") then
      var t := s[2..];
      var u := Skip(t, IsDigit);
      if |u| < |t| && |u| > 0 && u[0] == ']' then Some(u[1..]) else None
    else None
  }

  /** `(\s*,\s*q\[\d+])*` matches all of s. */
  predicate MoreQubitRefs(s: string)
    decreases |s|
  {
    if |s| == 0 then true
    else
      var t := Skip(s, IsSpace);
      |t| > 0 && t[0] == ',' &&
      var r := QubitRef(Skip(t[1..], IsSpace));
      r.Some? && MoreQubitRefs(r.value)
  }

  /** `q\[\d+](\s*,\s*q\[\d+])*$` matches all of s. */
  predicate QubitArgs(s: string)
  {
    var r := QubitRef(s);
    r.Some? && MoreQubitRefs(r.value)
  }

  /** `keyword\s+[A-Za-z_][A-Za-z_0-9]*\s*\[\s*\d+\s*]` matches all of s. */
  predicate RegisterDecl(s: string, keyword: string)
  {
    StartsWith(s, keyword) && DeclTail(s[|keyword|..])
  }

  /** `\s+[A-Za-z_][A-Za-z_0-9]*\s*\[\s*\d+\s*]` matches all of a. */
  predicate DeclTail(a: string)
  {
    |a| > 0 && IsSpace(a[0]) && NamedIndex(Skip(a, IsSpace))
  }

  /** `[A-Za-z_][A-Za-z_0-9]*\s*\[\s*\d+\s*]` matches all of b. */
  predicate NamedIndex(b: string)
  {
    |b| > 0 && IsIdentStart(b[0]) && IndexTail(Skip(Skip(b[1..], IsIdentPart), IsSpace))
  }

  /** `\[\s*\d+\s*]` matches all of c. */
  predicate IndexTail(c: string)
  {
    |c| > 0 && c[0] == '[' &&
    var d := Skip(c[1..], IsSpace);
    var e := Skip(d, IsDigit);
    |e| < |d| && Skip(e, IsSpace) == "]"
  }

  // ---------------------------------------------------------------- statement parsers

  /** `parseIndexedRegister`: `name[index]` with the expected name and an int index. */
  function ParseIndexedRegister(tok: string, name: string): (r: Result<int>)
    ensures r.Err? ==> r.error == QasmParse
    ensures r.Ok? ==> IntMin <= r.value <= IntMax
  {
    var lb := IndexOf(tok, '[');
    var rb := IndexOf(tok, ']');
    if lb < 0 || rb < 0 || rb < lb then Err(QasmParse)
    else if Trim(tok[..lb]) != name then Err(QasmParse)
    else
      match ParseInt(Trim(tok[lb + 1..rb]))
      case None => Err(QasmParse)
      case Some(v) => Ok(v)
  }

  /** `extractRegisterSize`: the int between the first '[' and the first ']'. */
  function ExtractRegisterSize(stmt: string): (r: Result<int>)
    ensures r.Err? ==> r.error == QasmParse
  {
    var lb := IndexOf(stmt, '[');
    var rb := IndexOf(stmt, ']');
    if lb < 0 || rb < 0 || rb <= lb then Err(QasmParse)
    else
      match ParseInt(Trim(stmt[lb + 1..rb]))
      case None => Err(QasmParse)
      case Some(v) => Ok(v)
  }

  /** `parseRegisterDecl` and then `extractRegisterSize`. */
  function RegisterSize(stmt: string, keyword: string): (r: Result<int>)
    ensures r.Err? ==> r.error == QasmParse
  {
    var t := Trim(stmt);
    if !StartsWith(t, keyword + " ") || !RegisterDecl(t, keyword) then Err(QasmParse)
    else ExtractRegisterSize(stmt)
  }

  /** `parseMeasure`: `q[i] -> c[j]` after the keyword, with j below the declared creg size. */
  function ParseMeasure(stmt: string, cregSize: int): (r: Result<Instruction>)
    requires StartsWith(stmt, "measure ")
    ensures r.Err? ==> r.error == QasmParse
    ensures r.Ok? ==> r.value.MeasureOp? && (cregSize >= 0 ==> r.value.cbit < cregSize)
  {
    var rest := Trim(stmt[7..]);
    var parts := Split(rest, "->");
    if |parts| != 2 then Err(QasmParse)
    else
      var q :- ParseIndexedRegister(Trim(parts[0]), "q");
      var c :- ParseIndexedRegister(Trim(parts[1]), "c");
      if cregSize >= 0 && c >= cregSize then Err(QasmParse) else Ok(MeasureOp(q, c))
  }

  function ParseRegisters(tokens: seq<string>, name: string): (r: Result<seq<int>>)
    ensures r.Err? ==> r.error == QasmParse
    ensures r.Ok? ==> |r.value| == |tokens|
  {
    if |tokens| == 0 then Ok([])
    else
      var v :- ParseIndexedRegister(Trim(tokens[0]), name);
      var vs :- ParseRegisters(tokens[1..], name);
      Ok([v] + vs)
  }

  /** `parseQubitList`: the comma-separated qubit references, in order. */
  function ParseQubitList(argPart: string): (r: Result<seq<int>>)
    ensures r.Err? ==> r.error == QasmParse
  {
    ParseRegisters(Split(argPart, ","), "q")
  }

  /** `parseSingleParam`: a present, non-empty parameter that parses as a double. */
  function ParseSingleParam(param: Option<string>, parse: Parser): (r: Result<real>)
    ensures r.Err? ==> r.error == QasmParse
    ensures param.None? || param.value == "" ==> r.Err?
  {
    if param.None? || param.value == "" then Err(QasmParse)
    else
      match parse(Trim(param.value))
      case None => Err(QasmParse)
      case Some(x) => Ok(x)
  }

  function ParseDoubles(tokens: seq<string>, parse: Parser): (r: Result<seq<real>>)
    ensures r.Err? ==> r.error == QasmParse
    ensures r.Ok? ==> |r.value| == |tokens|
  {
    if |tokens| == 0 then Ok([])
    else
      var x :- (match parse(Trim(tokens[0])) case None => Err(QasmParse) case Some(x) => Ok(x));
      var xs :- ParseDoubles(tokens[1..], parse);
      Ok([x] + xs)
  }

  /** `parseParamList`: exactly count comma-separated doubles. */
  function ParseParamList(param: Option<string>, count: nat, parse: Parser): (r: Result<seq<real>>)
    ensures r.Err? ==> r.error == QasmParse
    ensures r.Ok? ==> |r.value| == count
    ensures param.Some? && |Split(param.value, ",")| != count ==> r.Err?
  {
    if param.None? then Err(QasmParse)
    else
      var tokens := Split(param.value, ",");
      if |tokens| != count then Err(QasmParse) else ParseDoubles(tokens, parse)
  }

  /** `ensureArity` and then the builder shortcut for a gate without parameters. */
  function Fixed(g: Gate, q: seq<int>): (r: Result<Instruction>)
    ensures r.Ok? <==> |q| == Arity(g)
    ensures r.Err? ==> r.error == QasmParse
    ensures r.Ok? ==> r.value == GateOp(g, q)
  {
    if |q| != Arity(g) then Err(QasmParse) else Ok(GateOp(g, q))
  }

  /**
   * `dispatchGate`: the lowercase name selects the gate; the qubit count must be
   * its arity and the rotations and U gates need their parameters. The builder
   * shortcut `c.x(q[0])` appends GateOp(X, [q[0]]), which is GateOp(X, q) once
   * the arity is checked.
   */
  function Dispatch(op: string, param: Option<string>, q: seq<int>, parse: Parser): (r: Result<Instruction>)
    ensures r.Err? ==> r.error == QasmParse
    ensures r.Ok? ==> r.value.GateOp? && r.value.qubits == q && |q| == Arity(r.value.gate)
    ensures r.Ok? ==> !r.value.gate.IoCNOT? && !r.value.gate.IoCCX?
  {
    if op == "x" then Fixed(X, q)
    else if op == "y" then Fixed(Y, q)
    else if op == "z" then Fixed(Z, q)
    else if op == "h" then Fixed(H, q)
    else if op == "s" then Fixed(S, q)
    else if op == "t" then Fixed(T, q)
    else if op == "rx" then
      if |q| != 1 then Err(QasmParse) else var t :- ParseSingleParam(param, parse); Ok(GateOp(RX(t), q))
    else if op == "ry" then
      if |q| != 1 then Err(QasmParse) else var t :- ParseSingleParam(param, parse); Ok(GateOp(RY(t), q))
    else if op == "rz" then
      if |q| != 1 then Err(QasmParse) else var t :- ParseSingleParam(param, parse); Ok(GateOp(RZ(t), q))
    else if op == "u1" then
      if |q| != 1 then Err(QasmParse) else var l :- ParseSingleParam(param, parse); Ok(GateOp(U1(l), q))
    else if op == "u2" then
      if |q| != 1 then Err(QasmParse) else var p :- ParseParamList(param, 2, parse); Ok(GateOp(U2(p[0], p[1]), q))
    else if op == "u3" then
      if |q| != 1 then Err(QasmParse) else var p :- ParseParamList(param, 3, parse); Ok(GateOp(U3(p[0], p[1], p[2]), q))
    else if op == "cx" then Fixed(CNOT, q)
    else if op == "cz" then Fixed(CZ, q)
    else if op == "swap" then Fixed(SWAP, q)
    else if op == "iswap" then Fixed(ISWAP, q)
    else if op == "ch" then Fixed(CH, q)
    else if op == "ccx" then Fixed(CCX, q)
    else Err(QasmParse)
  }

  /** A gate statement cut into its name, its parameter text if it has one, and its qubit arguments. */
  datatype GateParts = GateParts(name: string, param: Option<string>, args: string)

  /**
   * The first half of `parseGate`: `name(params) args` when a ')' follows the
   * first '(', where the arguments may not be empty, and `name args` split at
   * the first space otherwise.
   */
  function SplitGate(stmt: string): (r: Result<GateParts>)
    ensures r.Err? ==> r.error == QasmParse
  {
    var trimmed := Trim(stmt);
    var po := IndexOf(trimmed, '(');
    var pc := IndexOf(trimmed, ')');
    if po >= 0 && pc > po then ParenParts(trimmed, po, pc)
    else
      var sp := IndexOf(trimmed, ' ');
      if sp < 0 then Err(QasmParse) else Ok(SpaceParts(trimmed, sp))
  }

  function ParenParts(trimmed: string, po: nat, pc: nat): (r: Result<GateParts>)
    requires po < pc < |trimmed|
    ensures r.Err? ==> r.error == QasmParse
  {
    var args := Trim(trimmed[pc + 1..]);
    if args == "" then Err(QasmParse)
    else Ok(GateParts(Trim(trimmed[..po]), Some(Trim(trimmed[po + 1..pc])), args))
  }

  function SpaceParts(trimmed: string, sp: nat): GateParts
    requires sp < |trimmed|
  {
    GateParts(Trim(trimmed[..sp]), None, Trim(trimmed[sp + 1..]))
  }

  /**
   * `parseGate`: the parts, the check that the arguments are a comma-separated
   * list of `q[digits]` (made in both the parenthesised and the plain branch of
   * `parseGate`, `QasmImporter.java` lines 179 and 193), the qubit list,
   * and the dispatch on the lowercase name.
   */
  function ParseGate(stmt: string, parse: Parser): (r: Result<Instruction>)
    ensures r.Err? ==> r.error == QasmParse
    ensures r.Ok? ==> r.value.GateOp? && |r.value.qubits| == Arity(r.value.gate)
  {
    var parts :- SplitGate(stmt);
    if !QubitArgs(parts.args) then Err(QasmParse)
    else
      var q :- ParseQubitList(parts.args);
      Dispatch(ToLower(parts.name), parts.param, q, parse)
  }

  // ---------------------------------------------------------------- the line loop

  /**
   * The importer's state between lines: the circuit once a qreg was declared
   * (None standing for null), the declared creg size (-1 before any creg) and
   * the text of an unfinished statement.
   */
  datatype Reader = Reader(circuit: Option<Circuit>, cregSize: int, buffer: string)

  const Start := Reader(None, -1, "")

  function Append(r: Reader, i: Instruction): Reader
    requires r.circuit.Some?
  {
    r.(circuit := Some(Circuit(r.circuit.value.numQubits, r.circuit.value.instructions + [i])))
  }

  /** One complete statement without its semicolon. */
  function Statement(r: Reader, stmt: string, parse: Parser): (res: Result<Reader>)
    ensures res.Err? ==> res.error == QasmParse
    ensures res.Ok? ==> res.value.buffer == r.buffer
  {
    if StartsWith(stmt, "OPENQASM") || StartsWith(stmt, "include") then Ok(r)
    else if StartsWith(stmt, "qreg ") then
      var n :- RegisterSize(stmt, "qreg");
      Ok(r.(circuit := Some(Circuit(n, []))))
    else if StartsWith(stmt, "creg ") then
      var n :- RegisterSize(stmt, "creg");
      Ok(r.(cregSize := n))
    else if r.circuit.None? then Err(QasmParse)
    else if StartsWith(stmt, "measure ") then
      var i :- ParseMeasure(stmt, r.cregSize);
      Ok(Append(r, i))
    else
      var i :- ParseGate(stmt, parse);
      Ok(Append(r, i))
  }

  /** One line: blank lines are skipped, others are buffered, and a line ending in ';' completes a statement. */
  function Step(r: Reader, line: string, parse: Parser): (res: Result<Reader>)
    ensures res.Err? ==> res.error == QasmParse
  {
    var trimmed := Trim(line);
    if trimmed == "" then Ok(r)
    else
      var buffer := r.buffer + trimmed + " ";
      if !EndsWith(trimmed, ";") then Ok(r.(buffer := buffer))
      else
        var full := Trim(buffer);
        assert buffer[|r.buffer|] == trimmed[0];
        var stmt := Trim(full[..|full| - 1]);
        Statement(r.(buffer := ""), stmt, parse)
  }

  /** The state after the lines, or the first failure. */
  function Run(r: Reader, lines: seq<string>, parse: Parser): (res: Result<Reader>)
    ensures res.Err? ==> res.error == QasmParse
  {
    if |lines| == 0 then Ok(r)
    else
      var before :- Run(r, lines[..|lines| - 1], parse);
      Step(before, lines[|lines| - 1], parse)
  }

  /** `fromQasm`: the circuit after all lines; an unfinished statement at the end is rejected. */
  function Import(qasm: string, parse: Parser): (res: Result<Option<Circuit>>)
    ensures res.Err? ==> res.error == QasmParse
  {
    var r :- Run(Start, SourceLines(qasm), parse);
    if Trim(r.buffer) != "" then Err(QasmParse) else Ok(r.circuit)
  }

  /** The builder's circuit as a value, None standing for null. */
  function Snapshot(c: ComCircuit.QuantumCircuit?): Option<Circuit>
    reads c
  {
    if c == null then None else Some(c.Value())
  }

  /** One complete statement applied to the builder, as the body of the `fromQasm` loop does it. */
  method Execute(circuit: ComCircuit.QuantumCircuit?, cregSize: int, stmt: string, parse: Parser)
    returns (res: Result<(ComCircuit.QuantumCircuit?, int)>)
    modifies circuit
    ensures var out := Statement(Reader(old(Snapshot(circuit)), cregSize, ""), stmt, parse);
      (out.Err? ==> res == Err(out.error)) &&
      (out.Ok? ==> res.Ok? && Snapshot(res.value.0) == out.value.circuit && res.value.1 == out.value.cregSize)
    ensures res.Ok? && res.value.0 != null ==> res.value.0 == circuit || fresh(res.value.0)
  {
    ghost var r := Reader(Snapshot(circuit), cregSize, "");
    if StartsWith(stmt, "OPENQASM") || StartsWith(stmt, "include") {
      return Ok((circuit, cregSize));
    }
    if StartsWith(stmt, "qreg ") {
      var n := RegisterSize(stmt, "qreg");
      if n.Err? {
        return Err(n.error);
      }
      assert Statement(r, stmt, parse) == Ok(r.(circuit := Some(Circuit(n.value, []))));
      var created := new ComCircuit.QuantumCircuit.Create(n.value);
      return Ok((created, cregSize));
    }
    if StartsWith(stmt, "creg ") {
      var n := RegisterSize(stmt, "creg");
      if n.Err? {
        return Err(n.error);
      }
      assert Statement(r, stmt, parse) == Ok(r.(cregSize := n.value));
      return Ok((circuit, n.value));
    }
    if circuit == null {
      return Err(QasmParse);
    }
    if StartsWith(stmt, "measure ") {
      var m := ParseMeasure(stmt, cregSize);
      if m.Err? {
        return Err(m.error);
      }
      assert Statement(r, stmt, parse) == Ok(Append(r, m.value));
      var _ := circuit.Measure(m.value.qubit, m.value.cbit);
      return Ok((circuit, cregSize));
    }
    var g := ParseGate(stmt, parse);
    if g.Err? {
      return Err(g.error);
    }
    assert Statement(r, stmt, parse) == Ok(Append(r, g.value));
    var _ := circuit.Apply(g.value.gate, g.value.qubits);
    return Ok((circuit, cregSize));
  }

  /**
   * The body of the `fromQasm` loop for one line: blank lines are skipped, the
   * trimmed line is buffered, and a line ending in ';' completes the buffered
   * statement, which is executed.
   */
  method ReadLine(circuit: ComCircuit.QuantumCircuit?, cregSize: int, buffer: string, line: string, parse: Parser)
    returns (res: Result<(ComCircuit.QuantumCircuit?, int, string)>)
    modifies circuit
    ensures var out := Step(Reader(old(Snapshot(circuit)), cregSize, buffer), line, parse);
      (out.Err? ==> res == Err(out.error)) &&
      (out.Ok? ==> res.Ok? && Reader(Snapshot(res.value.0), res.value.1, res.value.2) == out.value)
    ensures res.Ok? && res.value.0 != null ==> res.value.0 == circuit || fresh(res.value.0)
  {
    ghost var before := Reader(Snapshot(circuit), cregSize, buffer);
    var trimmed := Trim(line);
    if trimmed == "" {
      StepBlank(before, line, parse);
      return Ok((circuit, cregSize, buffer));
    }
    var buf := buffer + trimmed + " ";
    if !EndsWith(trimmed, ";") {
      StepBuffered(before, line, parse);
      return Ok((circuit, cregSize, buf));
    }
    StepComplete(before, line, parse);
    var full := Trim(buf);
    var stmt := Trim(full[..|full| - 1]);
    var outcome := Execute(circuit, cregSize, stmt, parse);
    if outcome.Err? {
      return Err(outcome.error);
    }
    res := Ok((outcome.value.0, outcome.value.1, ""));
  }

  lemma StepBlank(r: Reader, line: string, parse: Parser)
    requires Trim(line) == ""
    ensures Step(r, line, parse) == Ok(r)
  {
  }

  lemma StepBuffered(r: Reader, line: string, parse: Parser)
    requires Trim(line) != "" && !EndsWith(Trim(line), ";")
    ensures Step(r, line, parse) == Ok(r.(buffer := r.buffer + Trim(line) + " "))
  {
  }

  lemma StepComplete(r: Reader, line: string, parse: Parser)
    requires Trim(line) != "" && EndsWith(Trim(line), ";")
    ensures var full := Trim(r.buffer + Trim(line) + " ");
      |full| > 0 && Step(r, line, parse) == Statement(r.(buffer := ""), Trim(full[..|full| - 1]), parse)
  {
    var trimmed := Trim(line);
    var buf := r.buffer + trimmed + " ";
    assert buf[|r.buffer|] == trimmed[0];
  }

  /** `fromQasm` with its mutable circuit, creg size and buffer. */
  method FromQasm(qasm: string, parse: Parser) returns (res: Result<ComCircuit.QuantumCircuit?>)
    ensures Import(qasm, parse).Err? ==> res == Err(Import(qasm, parse).error)
    ensures Import(qasm, parse).Ok? ==> res.Ok? && Snapshot(res.value) == Import(qasm, parse).value
    ensures res.Ok? && res.value != null ==> fresh(res.value)
  {
    var lines := SourceLines(qasm);
    var circuit: ComCircuit.QuantumCircuit? := null;
    var cregSize := -1;
    var buffer := "";
    for k := 0 to |lines|
      invariant circuit != null ==> fresh(circuit)
      invariant Run(Start, lines[..k], parse) == Ok(Reader(Snapshot(circuit), cregSize, buffer))
    {
      RunSnoc(lines, k, parse);
      var outcome := ReadLine(circuit, cregSize, buffer, lines[k], parse);
      if outcome.Err? {
        RunFails(lines, k + 1, parse);
        return Err(outcome.error);
      }
      circuit, cregSize, buffer := outcome.value.0, outcome.value.1, outcome.value.2;
    }
    assert lines[..|lines|] == lines;
    if Trim(buffer) != "" {
      return Err(QasmParse);
    }
    res := Ok(circuit);
  }

  lemma RunSnoc(lines: seq<string>, k: int, parse: Parser)
    requires 0 <= k < |lines| && Run(Start, lines[..k], parse).Ok?
    ensures Run(Start, lines[..k + 1], parse) == Step(Run(Start, lines[..k], parse).value, lines[k], parse)
  {
    assert lines[..k + 1][..k] == lines[..k];
  }

  /** A failure at some line is the failure of the whole run. */
  lemma {:induction false} RunFails(lines: seq<string>, k: int, parse: Parser)
    requires 0 <= k <= |lines| && Run(Start, lines[..k], parse).Err?
    ensures Run(Start, lines, parse).Err?
    decreases |lines|
  {
    if k == |lines| {
      assert lines[..k] == lines;
    } else {
      var p := lines[..|lines| - 1];
      assert p[..k] == lines[..k];
      RunFails(p, k, parse);
    }
  }
}
