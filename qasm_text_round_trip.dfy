/**
 * QasmTextRoundTrip: the whole exported text read back by `fromQasm`. The
 * lines the exporter writes carry no comment marker and no line break, so
 * stripping comments and splitting at newlines gives the lines back, less
 * the blank line at the end of the header when there are no instructions;
 * blank lines change nothing, and the header followed by the instruction
 * lines rebuilds the circuit.
 */
module QasmTextRoundTrip {
  import opened Wrappers
  import opened Gates
  import opened Circuits
  import opened Strings
  import opened QasmExporter
  import opened QasmImporter
  import opened QasmRoundTrip

  // ---------------------------------------------------------------- characters of the lines

  lemma WithinConcat(a: string, b: string, p: char -> bool)
    requires Within(a, p) && Within(b, p)
    ensures Within(a + b, p)
  {
    forall i | 0 <= i < |a + b|
      ensures p((a + b)[i])
    {
      if i >= |a| {
        assert (a + b)[i] == b[i - |a|];
      }
    }
  }

  lemma RefLineChars(reg: char, i: int)
    requires i >= 0 && (reg == 'q' || reg == 'c')
    ensures Within(Ref(reg, i), LineChar)
  {
    RefWithin(reg, i);
  }

  /** A printed gate line has no line break and no '/'. */
  lemma GateLineChars(g: Gate, qs: seq<int>, fmt: Formatter, parse: Parser)
    requires PrintableGate(g, qs, fmt, parse)
    ensures Within(GateText(g, qs, fmt) + ";", LineChar)
  {
    NamesAreLowercase(g);
    assert Within(Name(g), LineChar);
    if Parametric(g) {
      ParamTextShape(Params(g), fmt, parse);
      RefLineChars('q', qs[0]);
      ParamLineChars(Name(g), ParamText(Params(g), fmt), Ref('q', qs[0]));
    } else {
      RefsWithin(qs);
      PlainLineChars(Name(g), JoinWith(Refs(qs), ", "));
    }
  }

  lemma ParamLineChars(name: string, ps: string, q: string)
    requires Within(name, LineChar) && Within(ps, ParamListChar) && Within(q, LineChar)
    ensures Within(name + "(" + ps + ") " + q + ";", LineChar)
  {
    assert Within(ps, LineChar);
    WithinConcat(name, "(", LineChar);
    WithinConcat(name + "(", ps, LineChar);
    WithinConcat(name + "(" + ps, ") ", LineChar);
    WithinConcat(name + "(" + ps + ") ", q, LineChar);
    WithinConcat(name + "(" + ps + ") " + q, ";", LineChar);
  }

  lemma PlainLineChars(name: string, rs: string)
    requires Within(name, LineChar) && Within(rs, ListChar)
    ensures Within(name + " " + rs + ";", LineChar)
  {
    assert Within(rs, LineChar);
    WithinConcat(name, " ", LineChar);
    WithinConcat(name + " ", rs, LineChar);
    WithinConcat(name + " " + rs, ";", LineChar);
  }

  /** A printed measurement line has no line break and no '/'. */
  lemma MeasureLineChars(q: int, c: int)
    requires q >= 0 && c >= 0
    ensures Within(MeasureLine(q, c), LineChar)
  {
    RefLineChars('q', q);
    RefLineChars('c', c);
    WithinConcat("measure ", Ref('q', q), LineChar);
    WithinConcat("measure " + Ref('q', q), " -> ", LineChar);
    WithinConcat("measure " + Ref('q', q) + " -> ", Ref('c', c), LineChar);
    WithinConcat("measure " + Ref('q', q) + " -> " + Ref('c', c), ";", LineChar);
  }

  lemma InstructionLineChars(i: Instruction, n: int, fmt: Formatter, parse: Parser)
    requires Printable(i, n, fmt, parse)
    ensures InstructionLine(i, fmt).Ok? && Within(InstructionLine(i, fmt).value, LineChar)
  {
    match i
    case GateOp(g, qs) =>
      GateLineText(g, qs, fmt);
      GateLineChars(g, qs, fmt, parse);
    case MeasureOp(q, c) =>
      MeasureLineChars(q, c);
  }

  /** Every instruction line has no line break and no '/'. */
  lemma {:induction false} BodyChars(s: seq<Instruction>, n: int, fmt: Formatter, parse: Parser)
    requires forall k :: 0 <= k < |s| ==> Printable(s[k], n, fmt, parse)
    ensures BodyLines(s, fmt).Ok?
    ensures forall k :: 0 <= k < |BodyLines(s, fmt).value| ==> Within(BodyLines(s, fmt).value[k], LineChar)
    decreases |s|
  {
    if |s| > 0 {
      BodyChars(s[..|s| - 1], n, fmt, parse);
      InstructionLineChars(s[|s| - 1], n, fmt, parse);
      BodyLinesSnoc(s, |s| - 1, fmt);
      assert s[..|s|] == s;
    }
  }

  /** The header lines have no line break and no '/'. */
  lemma HeaderChars(n: int)
    requires n >= 0
    ensures forall k :: 0 <= k < |HeaderLines(n)| ==> Within(HeaderLines(n)[k], LineChar)
  {
    var h := HeaderLines(n);
    forall k | 0 <= k < |h|
      ensures Within(h[k], LineChar)
    {
      if k == 3 {
        DeclLineChars(h[k], "qreg ", 'q', n);
      } else if k == 4 {
        DeclLineChars(h[k], "creg ", 'c', n);
      } else {
        PreambleChars(h[k]);
      }
    }
  }

  lemma PreambleChars(l: string)
    requires l == "OPENQASM 2.0;" || l == "include \"qelib1.inc\";" || l == ""
    ensures Within(l, LineChar)
  {
    forall i | 0 <= i < |l|
      ensures LineChar(l[i])
    {
      assert l[i] in l;
    }
  }

  lemma DeclLineChars(l: string, kw: string, reg: char, n: int)
    requires kw == "qreg " || kw == "creg "
    requires (reg == 'q' || reg == 'c') && n >= 0 && l == kw + Ref(reg, n) + ";"
    ensures Within(l, LineChar)
  {
    assert Within(kw, LineChar);
    RefLineChars(reg, n);
    WithinConcat(kw, Ref(reg, n), LineChar);
    WithinConcat(kw + Ref(reg, n), ";", LineChar);
  }

  // ---------------------------------------------------------------- from text to lines

  /** `stripComments` leaves a line without '/' alone. */
  lemma CutNothing(l: string)
    requires Within(l, LineChar)
    ensures CutComment(l) == l
  {
    SubAbsent(l, "//");
  }

  /**
   * Lines with no line break and no '/', the first not blank, come back from
   * `stripComments` and the split at newlines without their trailing blank lines.
   */
  lemma CleanLines(ls: seq<string>)
    requires |ls| > 0 && ls[0] != ""
    requires forall k :: 0 <= k < |ls| ==> Within(ls[k], LineChar)
    ensures SourceLines(Terminated(ls)) == DropTrailingEmpty(ls)
  {
    var d := DropTrailingEmpty(ls);
    DroppedLines(ls);
    LinesOfText(ls);
    CutNone(d);
    LinesBack(d);
    CleanChain(Terminated(ls), d);
  }

  lemma CleanChain(text: string, d: seq<string>)
    requires LineSplit(text) == d && CutAll(d) == d && Split(Terminated(d), "\n") == d
    ensures SourceLines(text) == d
  {
  }

  /** Dropping the trailing blank lines keeps the first line and the others' characters. */
  lemma DroppedLines(ls: seq<string>)
    requires |ls| > 0 && ls[0] != ""
    requires forall k :: 0 <= k < |ls| ==> Within(ls[k], LineChar)
    ensures var d := DropTrailingEmpty(ls);
      |d| > 0 && forall k :: 0 <= k < |d| ==> Within(d[k], LineChar)
  {
    var d := DropTrailingEmpty(ls);
    assert |d| > 0;
    assert forall k :: 0 <= k < |d| ==> d[k] == ls[k];
  }

  lemma LinesOfText(ls: seq<string>)
    requires |ls| > 0
    requires forall k :: 0 <= k < |ls| ==> Within(ls[k], LineChar)
    ensures LineSplit(Terminated(ls)) == DropTrailingEmpty(ls)
  {
    NoBreaks(ls);
    LineSplitOfTerminated(ls);
  }

  lemma LinesBack(d: seq<string>)
    requires |d| > 0 && d[|d| - 1] != ""
    requires forall k :: 0 <= k < |d| ==> Within(d[k], LineChar)
    ensures Split(Terminated(d), "\n") == d
  {
    NoBreaks(d);
    SplitOfTerminated(d);
  }

  lemma NoBreaks(ls: seq<string>)
    requires forall k :: 0 <= k < |ls| ==> Within(ls[k], LineChar)
    ensures FreeOf(ls, '\n') && FreeOf(ls, '\r')
  {
    forall k, i | 0 <= k < |ls| && 0 <= i < |ls[k]|
      ensures ls[k][i] != '\n' && ls[k][i] != '\r'
    {
      assert LineChar(ls[k][i]);
    }
  }

  /** `stripComments` cuts nothing from lines without '/'. */
  lemma CutNone(ls: seq<string>)
    requires forall k :: 0 <= k < |ls| ==> Within(ls[k], LineChar)
    ensures CutAll(ls) == ls
  {
    forall k | 0 <= k < |ls|
      ensures CutComment(ls[k]) == ls[k]
    {
      CutNothing(ls[k]);
    }
  }

  // ---------------------------------------------------------------- runs

  /** Trailing blank lines change nothing. */
  lemma {:induction false} RunDropTrailing(r: Reader, ls: seq<string>, parse: Parser)
    ensures Run(r, DropTrailingEmpty(ls), parse) == Run(r, ls, parse)
    decreases |ls|
  {
    if |ls| > 0 && ls[|ls| - 1] == "" {
      RunDropTrailing(r, ls[..|ls| - 1], parse);
      var before := Run(r, ls[..|ls| - 1], parse);
      if before.Ok? {
        BlankStep(before.value, ls[|ls| - 1], parse);
      }
    }
  }

  /** Reading a + b is reading b from where a left the reader. */
  lemma {:induction false} RunAppend(r: Reader, a: seq<string>, b: seq<string>, m: Reader, parse: Parser)
    requires Run(r, a, parse) == Ok(m)
    ensures Run(r, a + b, parse) == Run(m, b, parse)
    decreases |b|
  {
    if |b| == 0 {
      assert a + b == a;
    } else {
      var b' := b[..|b| - 1];
      RunAppend(r, a, b', m, parse);
      assert (a + b)[..|a + b| - 1] == a + b';
      assert (a + b)[|a + b| - 1] == b[|b| - 1];
    }
  }

  // ---------------------------------------------------------------- the whole text

  /** A circuit `toQasm` prints and `fromQasm` reads back. */
  predicate Exportable(c: Circuit, fmt: Formatter, parse: Parser)
  {
    0 <= c.numQubits <= IntMax &&
    forall k :: 0 <= k < |c.instructions| ==> Printable(c.instructions[k], c.numQubits, fmt, parse)
  }

  /** The circuit the importer builds from an export: io CNOTGates become standard CNOTs. */
  function CanonCircuit(c: Circuit): Circuit
  {
    Circuit(c.numQubits, CanonAll(c.instructions))
  }

  /** The lines of the export, the header's last blank line dropped when there is no instruction. */
  lemma ExportSourceLines(c: Circuit, fmt: Formatter, parse: Parser)
    requires Exportable(c, fmt, parse)
    ensures BodyLines(c.instructions, fmt).Ok?
    ensures var ls := HeaderLines(c.numQubits) + BodyLines(c.instructions, fmt).value;
      Export(c, fmt) == Ok(Terminated(ls)) && SourceLines(Terminated(ls)) == DropTrailingEmpty(ls)
  {
    var n := c.numQubits;
    BodyChars(c.instructions, n, fmt, parse);
    HeaderChars(n);
    var h := HeaderLines(n);
    var b := BodyLines(c.instructions, fmt).value;
    ConcatChars(h, b);
    assert (h + b)[0] == "OPENQASM 2.0;";
    CleanLines(h + b);
  }

  lemma ConcatChars(h: seq<string>, b: seq<string>)
    requires forall k :: 0 <= k < |h| ==> Within(h[k], LineChar)
    requires forall k :: 0 <= k < |b| ==> Within(b[k], LineChar)
    ensures forall k :: 0 <= k < |h + b| ==> Within((h + b)[k], LineChar)
  {
    forall k | 0 <= k < |h + b|
      ensures Within((h + b)[k], LineChar)
    {
      if k >= |h| {
        assert (h + b)[k] == b[k - |h|];
      } else {
        assert (h + b)[k] == h[k];
      }
    }
  }

  /** `fromQasm` after `toQasm` gives the circuit back, with io CNOTGates as CNOTs. */
  lemma ImportExport(c: Circuit, fmt: Formatter, parse: Parser)
    requires Exportable(c, fmt, parse)
    ensures Export(c, fmt).Ok?
    ensures Import(Export(c, fmt).value, parse) == Ok(Some(CanonCircuit(c)))
  {
    var n := c.numQubits;
    ExportSourceLines(c, fmt, parse);
    var h := HeaderLines(n);
    var b := BodyLines(c.instructions, fmt).value;
    HeaderRun(n, parse);
    BodyRun(n, c.instructions, [], fmt, parse);
    assert [] + CanonAll(c.instructions) == CanonAll(c.instructions);
    RunAppend(Start, h, b, Ready(n, []), parse);
    RunDropTrailing(Start, h + b, parse);
    ImportOf(Terminated(h + b), Ready(n, CanonAll(c.instructions)), parse);
  }

  lemma ImportOf(text: string, r: Reader, parse: Parser)
    requires Run(Start, SourceLines(text), parse) == Ok(r) && r.buffer == ""
    ensures Import(text, parse) == Ok(r.circuit)
  {
  }
  // ---------------------------------------------------------------- export after import

  /** The canonical instruction prints the same line: io CNOTGate and CNOT both print as `cx`. */
  lemma CanonLine(i: Instruction, fmt: Formatter)
    ensures InstructionLine(CanonInstruction(i), fmt) == InstructionLine(i, fmt)
  {
    if i.GateOp? && i.gate.IoCNOT? {
      IoCnotPrintsAsCx(i.qubits, fmt);
    }
  }

  lemma {:induction false} CanonBody(s: seq<Instruction>, fmt: Formatter)
    ensures BodyLines(CanonAll(s), fmt) == BodyLines(s, fmt)
    decreases |s|
  {
    if |s| > 0 {
      var p := s[..|s| - 1];
      assert CanonAll(s)[..|s| - 1] == CanonAll(p);
      CanonBody(p, fmt);
      CanonLine(s[|s| - 1], fmt);
    }
  }

  /** `toQasm(fromQasm(toQasm(c)))` is exactly `toQasm(c)`. */
  lemma ExportImportExport(c: Circuit, fmt: Formatter, parse: Parser)
    requires Exportable(c, fmt, parse)
    ensures Export(c, fmt).Ok?
    ensures var back := Import(Export(c, fmt).value, parse);
      back.Ok? && back.value.Some? && Export(back.value.value, fmt) == Export(c, fmt)
  {
    ImportExport(c, fmt, parse);
    CanonBody(c.instructions, fmt);
  }
}
