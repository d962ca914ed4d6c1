/**
 * QasmImportErrors: the statements `fromQasm` rejects. A register name must
 * start with a letter or underscore and a size must be digits; anything but a
 * header line or a register before `qreg` is an error; unknown gate names and
 * missing parameters are errors.
 */
module QasmImportErrors {
  import opened Wrappers
  import opened Gates
  import opened Circuits
  import opened Strings
  import opened QasmImporter
  import opened QasmRoundTrip

  /** A register whose name starts with neither a letter nor an underscore does not match the declaration pattern. */
  lemma RegisterNameStart(kw: string, name: string)
    requires |name| > 0 && !IsSpace(name[0]) && !IsIdentStart(name[0])
    ensures !RegisterDecl(kw + " " + name, kw)
  {
    var s := kw + " " + name;
    assert s[|kw|..] == " " + name;
    SkipRun(" ", name, IsSpace);
  }

  /** A `qreg` statement whose text does not match the declaration pattern is rejected. */
  lemma QregDeclRejected(r: Reader, stmt: string, parse: Parser)
    requires StartsWith(stmt, "qreg ") && !IsTrimmed(stmt[|stmt| - 1])
    requires !RegisterDecl(stmt, "qreg")
    ensures Statement(r, stmt, parse).Err?
  {
    assert stmt[0] == "qreg "[0];
    assert !StartsWith(stmt, "OPENQASM") by { assert "OPENQASM"[0] != stmt[0]; }
    assert !StartsWith(stmt, "include") by { assert "include"[0] != stmt[0]; }
    TrimUntouched(stmt);
  }

  /** `qreg 1q[2];` is rejected. */
  lemma DigitNameRejected(r: Reader, parse: Parser)
    ensures Statement(r, "qreg 1q[2]", parse).Err?
  {
    var stmt := "qreg 1q[2]";
    RegisterNameStart("qreg", "1q[2]");
    assert "qreg" + " " + "1q[2]" == stmt;
    assert stmt[..5] == "qreg ";
    QregDeclRejected(r, stmt, parse);
  }

  /** A size that starts with a sign does not match `\[\s*\d+\s*]`. */
  lemma SignedIndex(size: string)
    requires |size| > 0 && size[0] == '-'
    ensures !IndexTail("[" + size)
  {
    assert ("[" + size)[1..] == size;
    SkipRun("", size, IsSpace);
    SkipRun("", size, IsDigit);
    assert "" + size == size;
  }

  /** A one-letter register with a signed size does not match `[A-Za-z_][A-Za-z_0-9]*\s*\[\s*\d+\s*]`. */
  lemma SignedName(reg: char, size: string)
    requires IsIdentStart(reg) && |size| > 0 && size[0] == '-'
    ensures !NamedIndex([reg] + ("[" + size))
  {
    SignedIndex(size);
    NamedIndexOf(reg, "[" + size);
  }

  /** A keyword, one space and text the name-and-index stage rejects do not form a declaration. */
  lemma DeclRejects(kw: string, t: string)
    requires |t| > 0 && !IsSpace(t[0]) && !NamedIndex(t)
    ensures !RegisterDecl(kw + " " + t, kw)
  {
    DeclTailOf(t);
    KeywordSplit(kw, t);
  }

  /** `qreg q[-1];` is rejected. */
  lemma NegativeSizeRejected(r: Reader, parse: Parser)
    ensures Statement(r, "qreg q[-1]", parse).Err?
  {
    var stmt := "qreg q[-1]";
    assert "qreg" + " " + "q[-1]" == stmt;
    assert ['q'] + ("[" + "-1]") == "q[-1]";
    assert stmt[..5] == "qreg ";
    SignedName('q', "-1]");
    DeclRejects("qreg", "q[-1]");
    QregDeclRejected(r, stmt, parse);
  }

  /** Before `qreg`, only the header lines and register declarations are accepted. */
  lemma StatementBeforeQreg(r: Reader, stmt: string, parse: Parser)
    requires r.circuit.None?
    requires !StartsWith(stmt, "OPENQASM") && !StartsWith(stmt, "include")
    requires !StartsWith(stmt, "qreg ") && !StartsWith(stmt, "creg ")
    ensures Statement(r, stmt, parse).Err?
  {
  }

  /** A name outside the supported gate set is rejected, whatever its parameters and qubits. */
  lemma UnknownGateRejected(op: string, param: Option<string>, q: seq<int>, parse: Parser)
    requires op !in {"x", "y", "z", "h", "s", "t", "rx", "ry", "rz", "u1", "u2", "u3", "cx", "cz", "swap", "iswap", "ch", "ccx"}
    ensures Dispatch(op, param, q, parse).Err?
  {
  }

  /** Empty parentheses are rejected for every gate that takes parameters. */
  lemma EmptyParametersRejected(op: string, q: seq<int>, parse: Parser)
    requires op in {"rx", "ry", "rz", "u1", "u2", "u3"}
    ensures Dispatch(op, Some(""), q, parse).Err?
  {
    assert |Split("", ",")| == 1;
  }

  /** Every gate a statement yields has as many qubits as its arity. */
  lemma GateArity(r: Reader, stmt: string, parse: Parser)
    requires r.circuit.Some? && !StartsWith(stmt, "measure ")
    requires !StartsWith(stmt, "OPENQASM") && !StartsWith(stmt, "include")
    requires !StartsWith(stmt, "qreg ") && !StartsWith(stmt, "creg ")
    ensures var res := Statement(r, stmt, parse);
      res.Ok? ==> (res.value.circuit.Some? &&
        var xs := res.value.circuit.value.instructions;
        |xs| == |r.circuit.value.instructions| + 1 && xs[|xs| - 1].GateOp? &&
        |xs[|xs| - 1].qubits| == Arity(xs[|xs| - 1].gate))
  {
  }

  /** A measurement into a bit at or past the declared creg size is rejected. */
  lemma MeasureBeyondCreg(r: Reader, stmt: string, parse: Parser)
    requires r.circuit.Some? && StartsWith(stmt, "measure ") && r.cregSize >= 0
    ensures var res := Statement(r, stmt, parse);
      res.Ok? ==> (res.value.circuit.Some? &&
        var xs := res.value.circuit.value.instructions;
        |xs| == |r.circuit.value.instructions| + 1 && xs[|xs| - 1].MeasureOp? &&
        xs[|xs| - 1].cbit < r.cregSize)
  {
    MeasureBranch(r, stmt, parse);
  }
}
