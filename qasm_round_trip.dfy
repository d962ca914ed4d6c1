/**
 * QasmRoundTrip: what the importer makes of the exporter's text. For a
 * circuit whose indices fit an `int`, whose measurements stay inside the
 * classical register, and whose parameters print as text that `parse` reads
 * back, importing the export gives the circuit again, with every io CNOTGate
 * replaced by the standard CNOT under the shared name `cx`.
 */
module QasmRoundTrip {
  import opened Wrappers
  import opened Gates
  import opened Circuits
  import opened Strings
  import opened QasmExporter
  import opened QasmImporter

  // ---------------------------------------------------------------- register references

  /** The characters of `Integer.toString`: digits and a minus sign. */
  lemma NumberChars(i: int)
    ensures forall k :: 0 <= k < |IntToString(i)| ==> IsDigit(IntToString(i)[k]) || IntToString(i)[k] == '-'
    ensures i >= 0 ==> AllDigits(IntToString(i))
  {
    var d := IntToString(i);
    if i < 0 {
      forall k | 0 <= k < |d|
        ensures IsDigit(d[k]) || d[k] == '-'
      {
        if k > 0 {
          assert d[k] == d[1..][k - 1];
        }
      }
    }
  }

  /** `reg[i]` is read back by `parseIndexedRegister` for the same register name. */
  /** What ParseIndexedRegister needs to accept tok as name[v]. */
  lemma ParseIndexedOf(tok: string, name: string, lb: int, rb: int, v: int)
    requires 0 <= lb < rb < |tok|
    requires IndexOf(tok, '[') == lb && IndexOf(tok, ']') == rb
    requires Trim(tok[..lb]) == name && ParseInt(Trim(tok[lb + 1..rb])) == Some(v)
    ensures ParseIndexedRegister(tok, name) == Ok(v)
  {
  }

  /** Where the brackets of reg[i] are, and what lies before and between them. */
  lemma RefBrackets(reg: char, i: int)
    requires reg != '[' && reg != ']'
    ensures var s, d := Ref(reg, i), IntToString(i);
      |s| == |d| + 3 && IndexOf(s, '[') == 1 && IndexOf(s, ']') == |s| - 1 &&
      s[..1] == [reg] && s[2..|s| - 1] == d
  {
    var s := Ref(reg, i);
    var d := IntToString(i);
    NumberChars(i);
    assert s == [reg] + "[" + d + "]";
    IndexOfAt(s, '[', 1);
    forall k | 0 <= k < |s| - 1
      ensures s[k] != ']'
    {
      if k >= 2 {
        assert s[k] == d[k - 2];
      }
    }
    IndexOfAt(s, ']', |s| - 1);
    assert s[2..|s| - 1] == d;
  }

  lemma ParseRef(reg: char, i: int)
    requires IntMin <= i <= IntMax
    requires !IsTrimmed(reg) && reg != '[' && reg != ']'
    ensures ParseIndexedRegister(Ref(reg, i), [reg]) == Ok(i)
  {
    var s, d := Ref(reg, i), IntToString(i);
    RefBrackets(reg, i);
    NumberChars(i);
    TrimUntouched([reg]);
    TrimUntouched(d);
    ParseIntOfString(i);
    ParseIndexedOf(s, [reg], 1, |s| - 1, i);
  }

  /** `q[i]` followed by anything: the qubit-reference recogniser consumes exactly `q[i]`. */
  lemma QubitRefOf(i: int, rest: string)
    requires i >= 0
    ensures QubitRef(Ref('q', i) + rest) == Some(rest)
  {
    var d := IntToString(i);
    var s := Ref('q', i) + rest;
    NumberChars(i);
    assert s == "q[" + (d + ("]" + rest));
    assert StartsWith(s, "q[");
    var t := s[2..];
    assert t == d + ("]" + rest);
    SkipRun(d, "]" + rest, IsDigit);
    assert Skip(t, IsDigit) == "]" + rest;
  }

  /** The references after the first, each behind ", ". */
  function RefTail(qs: seq<int>): string
  {
    if |qs| == 0 then "" else ", " + Ref('q', qs[0]) + RefTail(qs[1..])
  }

  /** Joining one more string in front: the induction step of JoinedRefs, with the references abstracted. */
  lemma JoinCons(a: string, ts: seq<string>, x: string, y: string, t: string)
    requires |ts| > 0 && JoinWith(ts, ", ") == x + y && t == ", " + x + y
    ensures JoinWith([a] + ts, ", ") == a + t
  {
    assert ([a] + ts)[1..] == ts;
  }

  lemma {:induction false} JoinedRefs(qs: seq<int>)
    requires |qs| > 0
    ensures JoinWith(Refs(qs), ", ") == Ref('q', qs[0]) + RefTail(qs[1..])
    decreases |qs|
  {
    if |qs| > 1 {
      var tail := qs[1..];
      JoinedRefs(tail);
      JoinCons(Ref('q', qs[0]), Refs(tail), Ref('q', tail[0]), RefTail(tail[1..]), RefTail(tail));
    }
  }

  /** No space to skip before the comma of `, x`; after the comma comes ` x`. */
  lemma CommaFirst(x: string, rest: string)
    ensures var s := ", " + x + rest;
      Skip(s, IsSpace) == s && s[0] == ',' && s[1..] == " " + (x + rest)
  {
    var s := ", " + x + rest;
    assert s == "," + (" " + (x + rest));
    SkipRun("", s, IsSpace);
  }

  /** The space after the comma is skipped up to x. */
  lemma SpaceBefore(x: string, rest: string)
    requires |x| > 0 && !IsSpace(x[0])
    ensures Skip(" " + (x + rest), IsSpace) == x + rest
  {
    SkipRun(" ", x + rest, IsSpace);
  }

  /** One `, x` of the repeated group, for any x the reference recogniser consumes. */
  lemma MoreStep(x: string, rest: string)
    requires |x| > 0 && !IsSpace(x[0]) && QubitRef(x + rest) == Some(rest)
    ensures MoreQubitRefs(", " + x + rest) == MoreQubitRefs(rest)
  {
    CommaFirst(x, rest);
    SpaceBefore(x, rest);
  }

  /** One `, q[i]` of the repeated group. */
  lemma MoreRefsStep(q: int, rest: string)
    requires q >= 0
    ensures MoreQubitRefs(", " + Ref('q', q) + rest) == MoreQubitRefs(rest)
  {
    QubitRefOf(q, rest);
    assert Ref('q', q)[0] == 'q';
    MoreStep(Ref('q', q), rest);
  }

  lemma {:induction false} MoreRefs(qs: seq<int>)
    requires forall k :: 0 <= k < |qs| ==> qs[k] >= 0
    ensures MoreQubitRefs(RefTail(qs))
    decreases |qs|
  {
    if |qs| > 0 {
      MoreRefsStep(qs[0], RefTail(qs[1..]));
      MoreRefs(qs[1..]);
    }
  }

  /** The exporter's qubit list is what the gate-argument pattern accepts. */
  lemma ArgsRecognised(qs: seq<int>)
    requires |qs| > 0 && forall k :: 0 <= k < |qs| ==> qs[k] >= 0
    ensures QubitArgs(JoinWith(Refs(qs), ", "))
  {
    JoinedRefs(qs);
    QubitRefOf(qs[0], RefTail(qs[1..]));
    MoreRefs(qs[1..]);
  }

  // ---------------------------------------------------------------- comma-separated lists

  /** ts split at "," where they were joined with ", ": each piece after the first keeps its space. */
  function Indented(ts: seq<string>): (r: seq<string>)
    ensures |r| == |ts| && forall k :: 0 <= k < |ts| ==> r[k] == " " + ts[k]
  {
    if |ts| == 0 then [] else [" " + ts[0]] + Indented(ts[1..])
  }

  function CommaPieces(ts: seq<string>): (r: seq<string>)
    requires |ts| > 0
    ensures |r| == |ts| && r[0] == ts[0] && forall k :: 1 <= k < |ts| ==> r[k] == " " + ts[k]
  {
    [ts[0]] + Indented(ts[1..])
  }

  lemma {:induction false} CommaSpaceJoin(ts: seq<string>)
    requires |ts| > 0
    ensures JoinWith(ts, ", ") == JoinWith(CommaPieces(ts), ",")
    decreases |ts|
  {
    if |ts| > 1 {
      var us := ts[1..];
      CommaSpaceJoin(us);
      assert CommaPieces(ts)[1..] == Indented(us);
      if |us| > 1 {
        assert Indented(us)[1..] == Indented(us[1..]);
        assert CommaPieces(us)[1..] == Indented(us[1..]);
      }
      assert JoinWith(Indented(us), ",") == " " + JoinWith(CommaPieces(us), ",");
    }
  }

  lemma CommaPiecesFree(ts: seq<string>)
    requires |ts| > 0 && FreeOf(ts, ',')
    ensures FreeOf(CommaPieces(ts), ',')
  {
    var ps := CommaPieces(ts);
    forall k, i | 0 <= k < |ps| && 0 <= i < |ps[k]|
      ensures ps[k][i] != ','
    {
      if k > 0 && i > 0 {
        assert ps[k][i] == ts[k][i - 1];
      }
    }
  }

  /** `split(",")` of a ", "-joined list of comma-free texts. */
  lemma CommaSplit(ts: seq<string>)
    requires |ts| > 0 && FreeOf(ts, ',')
    ensures Split(JoinWith(ts, ", "), ",") == CommaPieces(ts)
  {
    CommaSpaceJoin(ts);
    CommaPiecesFree(ts);
    SplitOfJoin(CommaPieces(ts), ",");
  }

  lemma RefsCommaFree(qs: seq<int>)
    requires forall k :: 0 <= k < |qs| ==> qs[k] >= 0
    ensures FreeOf(Refs(qs), ',')
  {
    var ts := Refs(qs);
    forall k, i | 0 <= k < |ts| && 0 <= i < |ts[k]|
      ensures ts[k][i] != ','
    {
      RefWithin('q', qs[k]);
      assert ts[k] == Ref('q', qs[k]);
      assert RefChar(ts[k][i]);
    }
  }

  /** The exporter's qubit list is read back by `parseQubitList`. */
  lemma QubitListRoundTrip(qs: seq<int>)
    requires |qs| > 0 && forall k :: 0 <= k < |qs| ==> 0 <= qs[k] <= IntMax
    ensures ParseQubitList(JoinWith(Refs(qs), ", ")) == Ok(qs)
  {
    RefsCommaFree(qs);
    CommaSplit(Refs(qs));
    RegistersRoundTrip(qs);
  }

  /** A visible text behind one space trims back to itself. */
  lemma TrimIndented(t: string)
    requires |t| > 0 && !IsTrimmed(t[0]) && !IsTrimmed(t[|t| - 1])
    ensures Trim(" " + t) == t
  {
    TrimPadded(" ", t, "");
    assert " " + t + "" == " " + t;
    TrimUntouched(t);
  }

  /** `parseQubitList`'s loop reads each token with its own value. */
  /** Token k parses as the register reference vs[k], for every k. */
  predicate ParsesEach(ts: seq<string>, name: string, vs: seq<int>)
    decreases |ts|
  {
    |ts| == |vs| &&
    (|ts| > 0 ==> ParseIndexedRegister(Trim(ts[0]), name) == Ok(vs[0]) && ParsesEach(ts[1..], name, vs[1..]))
  }

  lemma {:induction false} RegistersOf(ts: seq<string>, name: string, vs: seq<int>)
    requires ParsesEach(ts, name, vs)
    ensures ParseRegisters(ts, name) == Ok(vs)
    decreases |ts|
  {
    if |ts| > 0 {
      RegistersOf(ts[1..], name, vs[1..]);
      RegistersCons(ts, name, vs);
    }
  }

  lemma RegistersCons(ts: seq<string>, name: string, vs: seq<int>)
    requires |ts| > 0 && ParsesEach(ts, name, vs)
    requires ParseRegisters(ts[1..], name) == Ok(vs[1..])
    ensures ParseRegisters(ts, name) == Ok(vs)
  {
    RegistersPrepend(ts, name, vs[0], vs[1..]);
    HeadTail(vs);
  }

  lemma RegistersPrepend(ts: seq<string>, name: string, v: int, vs: seq<int>)
    requires |ts| > 0 && ParseIndexedRegister(Trim(ts[0]), name) == Ok(v)
    requires ParseRegisters(ts[1..], name) == Ok(vs)
    ensures ParseRegisters(ts, name) == Ok([v] + vs)
  {
  }

  lemma HeadTail<T>(s: seq<T>)
    requires |s| > 0
    ensures [s[0]] + s[1..] == s
  {
  }

  lemma {:induction false} EachParses(ts: seq<string>, name: string, vs: seq<int>)
    requires |ts| == |vs| && forall k :: 0 <= k < |ts| ==> ParseIndexedRegister(Trim(ts[k]), name) == Ok(vs[k])
    ensures ParsesEach(ts, name, vs)
    decreases |ts|
  {
    if |ts| > 0 {
      forall k | 0 <= k < |ts| - 1
        ensures ParseIndexedRegister(Trim(ts[1..][k]), name) == Ok(vs[1..][k])
      {
        assert ts[1..][k] == ts[k + 1] && vs[1..][k] == vs[k + 1];
      }
      EachParses(ts[1..], name, vs[1..]);
    }
  }

  lemma RegistersRoundTrip(qs: seq<int>)
    requires |qs| > 0 && forall k :: 0 <= k < |qs| ==> 0 <= qs[k] <= IntMax
    ensures ParseRegisters(CommaPieces(Refs(qs)), "q") == Ok(qs)
  {
    var ps := CommaPieces(Refs(qs));
    forall k | 0 <= k < |ps|
      ensures ParseIndexedRegister(Trim(ps[k]), "q") == Ok(qs[k])
    {
      ParseRef('q', qs[k]);
      if k == 0 {
        TrimUntouched(Ref('q', qs[k]));
      } else {
        TrimIndented(Ref('q', qs[k]));
      }
    }
    EachParses(ps, "q", qs);
    RegistersOf(ps, "q", qs);
  }

  // ---------------------------------------------------------------- characters

  /** Every character of s satisfies p. */
  predicate Within(s: string, p: char -> bool)
  {
    forall i :: 0 <= i < |s| ==> p(s[i])
  }

  /** A printed parameter: visible characters, none of which the gate syntax or a comment uses. */
  predicate ParamChar(c: char)
  {
    ' ' < c && c != '(' && c != ')' && c != ',' && c != '/'
  }

  predicate SafeText(t: string)
  {
    |t| > 0 && Within(t, ParamChar)
  }

  /** Any character the exporter has put on a line: visible ones and the space, but no '/'. */
  predicate LineChar(c: char)
  {
    ' ' <= c && c != '/'
  }

  predicate ListChar(c: char)
  {
    RefChar(c) || c == ',' || c == ' '
  }

  predicate ParamListChar(c: char)
  {
    ParamChar(c) || c == ' ' || c == ','
  }

  predicate NameChar(c: char)
  {
    'a' <= c <= 'z' || '0' <= c <= '9'
  }

  predicate NoParen(c: char)
  {
    c != '(' && c != ')'
  }

  predicate RefChar(c: char)
  {
    c == 'q' || c == 'c' || c == '[' || c == ']' || IsDigit(c)
  }

  lemma {:induction false} JoinWithin(ts: seq<string>, sep: string, p: char -> bool)
    requires Within(sep, p) && forall k :: 0 <= k < |ts| ==> Within(ts[k], p)
    ensures Within(JoinWith(ts, sep), p)
    decreases |ts|
  {
    if |ts| > 1 {
      JoinWithin(ts[1..], sep, p);
      var rest := JoinWith(ts[1..], sep);
      var s := ts[0] + sep + rest;
      forall i | 0 <= i < |s|
        ensures p(s[i])
      {
        if i < |ts[0]| {
          assert s[i] == ts[0][i];
        } else if i < |ts[0]| + |sep| {
          assert s[i] == sep[i - |ts[0]|];
        } else {
          assert s[i] == rest[i - |ts[0]| - |sep|];
        }
      }
    }
  }

  /** The first and last characters of a join of non-empty pieces. */
  lemma {:induction false} JoinEnds(ts: seq<string>, sep: string)
    requires |ts| > 0 && forall k :: 0 <= k < |ts| ==> ts[k] != ""
    ensures var s := JoinWith(ts, sep); |s| > 0 && s[0] == ts[0][0] && s[|s| - 1] == ts[|ts| - 1][|ts[|ts| - 1]| - 1]
    decreases |ts|
  {
    if |ts| > 1 {
      JoinEnds(ts[1..], sep);
    }
  }

  lemma RefWithin(reg: char, i: int)
    requires i >= 0 && (reg == 'q' || reg == 'c')
    ensures Within(Ref(reg, i), RefChar)
  {
    NumberChars(i);
    var d := IntToString(i);
    var r := Ref(reg, i);
    assert r == [reg] + "[" + d + "]";
    forall k | 0 <= k < |r|
      ensures RefChar(r[k])
    {
      if 2 <= k < |r| - 1 {
        assert r[k] == d[k - 2];
      }
    }
  }

  lemma RefListChars(q: int)
    requires q >= 0
    ensures Within(Ref('q', q), ListChar)
  {
    RefWithin('q', q);
    RefIsList(Ref('q', q));
  }

  lemma RefsListChars(qs: seq<int>)
    requires forall k :: 0 <= k < |qs| ==> qs[k] >= 0
    ensures forall k :: 0 <= k < |Refs(qs)| ==> Within(Refs(qs)[k], ListChar)
  {
    var ts := Refs(qs);
    forall k | 0 <= k < |ts|
      ensures Within(ts[k], ListChar)
    {
      RefListChars(qs[k]);
    }
  }

  lemma RefsWithin(qs: seq<int>)
    requires forall k :: 0 <= k < |qs| ==> qs[k] >= 0
    ensures Within(JoinWith(Refs(qs), ", "), ListChar)
  {
    RefsListChars(qs);
    JoinWithin(Refs(qs), ", ", ListChar);
  }

  lemma RefIsList(t: string)
    requires Within(t, RefChar)
    ensures Within(t, ListChar)
  {
    forall i | 0 <= i < |t|
      ensures ListChar(t[i])
    {
      assert RefChar(t[i]);
    }
  }

  // ---------------------------------------------------------------- parameters

  /** Printed parameters that `parse` reads back, and whose text the gate syntax leaves alone. */
  predicate Readable(ps: seq<real>, fmt: Formatter, parse: Parser)
  {
    forall k :: 0 <= k < |ps| ==> SafeText(fmt(ps[k])) && parse(fmt(ps[k])) == Some(ps[k])
  }

  lemma SafeTrim(t: string)
    requires SafeText(t)
    ensures Trim(t) == t && Trim(" " + t) == t
  {
    TrimIndented(t);
  }

  /** `parseParamList`'s loop reads each token with its own value. */
  lemma {:induction false} DoublesOf(ts: seq<string>, parse: Parser, xs: seq<real>)
    requires |ts| == |xs| && forall k :: 0 <= k < |ts| ==> parse(Trim(ts[k])) == Some(xs[k])
    ensures ParseDoubles(ts, parse) == Ok(xs)
    decreases |ts|
  {
    if |ts| > 0 {
      DoublesOf(ts[1..], parse, xs[1..]);
      assert [xs[0]] + xs[1..] == xs;
    }
  }

  /** The printed parameter list, as the exporter joins it. */
  function ParamText(ps: seq<real>, fmt: Formatter): string
  {
    JoinWith(Formatted(ps, fmt), ", ")
  }

  lemma ParamTextShape(ps: seq<real>, fmt: Formatter, parse: Parser)
    requires |ps| > 0 && Readable(ps, fmt, parse)
    ensures SafeTrimmed(ParamText(ps, fmt))
  {
    var ts := Formatted(ps, fmt);
    forall k | 0 <= k < |ts|
      ensures Within(ts[k], ParamListChar) && ts[k] != ""
    {
    }
    JoinWithin(ts, ", ", ParamListChar);
    JoinEnds(ts, ", ");
  }

  /** Visible text at both ends, with no parenthesis and no '/'. */
  predicate SafeTrimmed(t: string)
  {
    |t| > 0 && ' ' < t[0] && ' ' < t[|t| - 1] &&
    Within(t, ParamListChar)
  }

  /** The printed parameter list is read back by `parseParamList`. */
  lemma ParamListRoundTrip(ps: seq<real>, fmt: Formatter, parse: Parser)
    requires |ps| > 0 && Readable(ps, fmt, parse)
    ensures ParseParamList(Some(ParamText(ps, fmt)), |ps|, parse) == Ok(ps)
  {
    var ts := Formatted(ps, fmt);
    assert FreeOf(ts, ',') by {
      forall k, i | 0 <= k < |ts| && 0 <= i < |ts[k]|
        ensures ts[k][i] != ','
      {
        assert ParamChar(ts[k][i]);
      }
    }
    CommaSplit(ts);
    var pieces := CommaPieces(ts);
    forall k | 0 <= k < |pieces|
      ensures parse(Trim(pieces[k])) == Some(ps[k])
    {
      SafeTrim(ts[k]);
    }
    DoublesOf(pieces, parse, ps);
  }

  /** A single printed parameter is read back by `parseSingleParam`. */
  lemma SingleParamRoundTrip(x: real, fmt: Formatter, parse: Parser)
    requires Readable([x], fmt, parse)
    ensures ParseSingleParam(Some(ParamText([x], fmt)), parse) == Ok(x)
  {
    assert ParamText([x], fmt) == fmt(x);
    SafeTrim(fmt(x));
  }

  // ---------------------------------------------------------------- gates

  /** The gate an exported gate is imported as: the io CNOTGate prints as `cx`, the standard CNOT's name. */
  function Canon(g: Gate): (r: Gate)
    ensures Name(r) == Name(g) && Arity(r) == Arity(g)
  {
    if g.IoCNOT? then CNOT else g
  }

  predicate Parametric(g: Gate)
  {
    g.RX? || g.RY? || g.RZ? || g.U1? || g.U2? || g.U3?
  }

  /** The parameters the exporter prints, in its order. */
  function Params(g: Gate): (r: seq<real>)
    requires Parametric(g)
    ensures 0 < |r| <= 3
  {
    match g
    case RX(theta) => [theta]
    case RY(theta) => [theta]
    case RZ(theta) => [theta]
    case U1(lambda) => [lambda]
    case U2(phi, lambda) => [phi, lambda]
    case U3(theta, phi, lambda) => [theta, phi, lambda]
  }

  /** A gate without parameters is dispatched on its own name to its standard class. */
  lemma DispatchPlain(g: Gate, param: Option<string>, q: seq<int>, parse: Parser)
    requires !Parametric(g) && !g.IoCCX? && |q| == Arity(g)
    ensures Dispatch(Name(g), param, q, parse) == Ok(GateOp(Canon(g), q))
  {
  }

  /** A gate with parameters is dispatched on its name and its printed parameters. */
  lemma DispatchParametric(g: Gate, q: int, fmt: Formatter, parse: Parser)
    requires Parametric(g) && Readable(Params(g), fmt, parse)
    ensures Dispatch(Name(g), Some(ParamText(Params(g), fmt)), [q], parse) == Ok(GateOp(g, [q]))
  {
    match g
    case RX(theta) => DispatchRxNamed(theta, q, fmt, parse);
    case RY(theta) => DispatchRyNamed(theta, q, fmt, parse);
    case RZ(theta) => DispatchRzNamed(theta, q, fmt, parse);
    case U1(lambda) => DispatchU1Named(lambda, q, fmt, parse);
    case U2(phi, lambda) => DispatchU2Named(phi, lambda, q, fmt, parse);
    case U3(theta, phi, lambda) => DispatchU3Named(theta, phi, lambda, q, fmt, parse);
  }

  lemma DispatchRx(theta: real, q: int, fmt: Formatter, parse: Parser)
    requires Readable([theta], fmt, parse)
    ensures Dispatch("rx", Some(ParamText([theta], fmt)), [q], parse) == Ok(GateOp(RX(theta), [q]))
  {
    assert "rx" != "x" && "rx" != "y" && "rx" != "z" && "rx" != "h" && "rx" != "s" && "rx" != "t";
    SingleParamRoundTrip(theta, fmt, parse);
  }

  lemma DispatchRxNamed(theta: real, q: int, fmt: Formatter, parse: Parser)
    requires Readable([theta], fmt, parse)
    ensures Dispatch(Name(RX(theta)), Some(ParamText(Params(RX(theta)), fmt)), [q], parse) == Ok(GateOp(RX(theta), [q]))
  {
    assert Name(RX(theta)) == "rx" && Params(RX(theta)) == [theta];
    DispatchRx(theta, q, fmt, parse);
  }

  lemma DispatchRy(theta: real, q: int, fmt: Formatter, parse: Parser)
    requires Readable([theta], fmt, parse)
    ensures Dispatch("ry", Some(ParamText([theta], fmt)), [q], parse) == Ok(GateOp(RY(theta), [q]))
  {
    assert "ry" != "x" && "ry" != "y" && "ry" != "z" && "ry" != "h" && "ry" != "s" && "ry" != "t" && "ry" != "rx";
    SingleParamRoundTrip(theta, fmt, parse);
  }

  lemma DispatchRyNamed(theta: real, q: int, fmt: Formatter, parse: Parser)
    requires Readable([theta], fmt, parse)
    ensures Dispatch(Name(RY(theta)), Some(ParamText(Params(RY(theta)), fmt)), [q], parse) == Ok(GateOp(RY(theta), [q]))
  {
    assert Name(RY(theta)) == "ry" && Params(RY(theta)) == [theta];
    DispatchRy(theta, q, fmt, parse);
  }

  lemma DispatchRz(theta: real, q: int, fmt: Formatter, parse: Parser)
    requires Readable([theta], fmt, parse)
    ensures Dispatch("rz", Some(ParamText([theta], fmt)), [q], parse) == Ok(GateOp(RZ(theta), [q]))
  {
    assert "rz" != "x" && "rz" != "y" && "rz" != "z" && "rz" != "h" && "rz" != "s" && "rz" != "t" && "rz" != "rx" && "rz" != "ry";
    SingleParamRoundTrip(theta, fmt, parse);
  }

  lemma DispatchRzNamed(theta: real, q: int, fmt: Formatter, parse: Parser)
    requires Readable([theta], fmt, parse)
    ensures Dispatch(Name(RZ(theta)), Some(ParamText(Params(RZ(theta)), fmt)), [q], parse) == Ok(GateOp(RZ(theta), [q]))
  {
    assert Name(RZ(theta)) == "rz" && Params(RZ(theta)) == [theta];
    DispatchRz(theta, q, fmt, parse);
  }

  lemma DispatchU1(lambda: real, q: int, fmt: Formatter, parse: Parser)
    requires Readable([lambda], fmt, parse)
    ensures Dispatch("u1", Some(ParamText([lambda], fmt)), [q], parse) == Ok(GateOp(U1(lambda), [q]))
  {
    assert "u1" != "x" && "u1" != "y" && "u1" != "z" && "u1" != "h" && "u1" != "s" && "u1" != "t" && "u1" != "rx" && "u1" != "ry" && "u1" != "rz";
    SingleParamRoundTrip(lambda, fmt, parse);
  }

  lemma DispatchU1Named(lambda: real, q: int, fmt: Formatter, parse: Parser)
    requires Readable([lambda], fmt, parse)
    ensures Dispatch(Name(U1(lambda)), Some(ParamText(Params(U1(lambda)), fmt)), [q], parse) == Ok(GateOp(U1(lambda), [q]))
  {
    assert Name(U1(lambda)) == "u1" && Params(U1(lambda)) == [lambda];
    DispatchU1(lambda, q, fmt, parse);
  }

  lemma DispatchU2(phi: real, lambda: real, q: int, fmt: Formatter, parse: Parser)
    requires Readable([phi, lambda], fmt, parse)
    ensures Dispatch("u2", Some(ParamText([phi, lambda], fmt)), [q], parse) == Ok(GateOp(U2(phi, lambda), [q]))
  {
    assert "u2" != "x" && "u2" != "y" && "u2" != "z" && "u2" != "h" && "u2" != "s" && "u2" != "t" && "u2" != "rx" && "u2" != "ry" && "u2" != "rz" && "u2" != "u1";
    ParamListRoundTrip([phi, lambda], fmt, parse);
  }

  lemma DispatchU2Named(phi: real, lambda: real, q: int, fmt: Formatter, parse: Parser)
    requires Readable([phi, lambda], fmt, parse)
    ensures Dispatch(Name(U2(phi, lambda)), Some(ParamText(Params(U2(phi, lambda)), fmt)), [q], parse) == Ok(GateOp(U2(phi, lambda), [q]))
  {
    assert Name(U2(phi, lambda)) == "u2" && Params(U2(phi, lambda)) == [phi, lambda];
    DispatchU2(phi, lambda, q, fmt, parse);
  }

  lemma DispatchU3(theta: real, phi: real, lambda: real, q: int, fmt: Formatter, parse: Parser)
    requires Readable([theta, phi, lambda], fmt, parse)
    ensures Dispatch("u3", Some(ParamText([theta, phi, lambda], fmt)), [q], parse) == Ok(GateOp(U3(theta, phi, lambda), [q]))
  {
    assert "u3" != "x" && "u3" != "y" && "u3" != "z" && "u3" != "h" && "u3" != "s" && "u3" != "t" && "u3" != "rx" && "u3" != "ry" && "u3" != "rz" && "u3" != "u1" && "u3" != "u2";
    ParamListRoundTrip([theta, phi, lambda], fmt, parse);
  }

  lemma DispatchU3Named(theta: real, phi: real, lambda: real, q: int, fmt: Formatter, parse: Parser)
    requires Readable([theta, phi, lambda], fmt, parse)
    ensures Dispatch(Name(U3(theta, phi, lambda)), Some(ParamText(Params(U3(theta, phi, lambda)), fmt)), [q], parse) == Ok(GateOp(U3(theta, phi, lambda), [q]))
  {
    assert Name(U3(theta, phi, lambda)) == "u3" && Params(U3(theta, phi, lambda)) == [theta, phi, lambda];
    DispatchU3(theta, phi, lambda, q, fmt, parse);
  }

  // ---------------------------------------------------------------- gate statements

  /** A gate name as the exporter prints it: lowercase letters and digits. */
  predicate NameText(n: string)
  {
    |n| > 0 && Within(n, NameChar)
  }

  /** Text with visible ends and no parenthesis. */
  predicate Unbracketed(t: string)
  {
    |t| > 0 && ' ' < t[0] && ' ' < t[|t| - 1] && Within(t, NoParen)
  }

  /** `name args`: no parenthesis, so the name ends at the first space. */
  /** `name args` holds no parenthesis. */
  lemma PlainNoParen(n: string, args: string)
    requires NameText(n) && Unbracketed(args)
    ensures IndexOf(n + " " + args, '(') == -1
  {
    var s := n + " " + args;
    forall i | 0 <= i < |s|
      ensures s[i] != '('
    {
      if i > |n| {
        assert s[i] == args[i - |n| - 1];
      } else if i < |n| {
        assert s[i] == n[i];
      }
    }
  }

  /** In `name args`, the first space ends the name. */
  lemma PlainSpace(n: string, args: string)
    requires NameText(n)
    ensures IndexOf(n + " " + args, ' ') == |n|
  {
    var s := n + " " + args;
    forall i | 0 <= i < |n|
      ensures s[i] != ' '
    {
      assert s[i] == n[i];
    }
    IndexOfAt(s, ' ', |n|);
  }

  lemma PlainShape(n: string, args: string)
    requires NameText(n) && Unbracketed(args)
    ensures SplitGate(n + " " + args) == Ok(GateParts(n, None, args))
  {
    var s := n + " " + args;
    assert s[0] == n[0] && s[|s| - 1] == args[|args| - 1];
    TrimUntouched(s);
    PlainNoParen(n, args);
    PlainSpace(n, args);
    assert s[..|n|] == n && s[|n| + 1..] == args;
    TrimUntouched(n);
    TrimUntouched(args);
    SplitGatePlain(s, n, args);
  }

  /** `name(params) arg`: the parameters sit between the first '(' and the first ')'. */
  lemma ParamShape(n: string, params: string, arg: string)
    requires NameText(n) && Unbracketed(params) && Unbracketed(arg)
    ensures SplitGate(n + "(" + params + ") " + arg) == Ok(GateParts(n, Some(params), arg))
  {
    var s := n + "(" + params + ") " + arg;
    ParenFacts(n, params, arg);
    var po: nat, pc: nat :| ParenSplittable(s, po, pc, n, params, arg);
    SplitGateParam(s, po, pc, n, params, arg);
  }

  /** The facts about `name(params) arg` that the split needs, in the form it needs them. */
  lemma ParenFacts(n: string, params: string, arg: string)
    requires NameText(n) && Unbracketed(params) && Unbracketed(arg)
    ensures exists po: nat, pc: nat :: ParenSplittable(n + "(" + params + ") " + arg, po, pc, n, params, arg)
  {
    ParenPositions(n, params, arg);
    ParenSlices(n, params, arg);
    TrimUntouched(n);
    TrimUntouched(params);
    TrimIndented(arg);
    assert ParenSplittable(n + "(" + params + ") " + arg, |n|, |n| + 1 + |params|, n, params, arg);
  }

  lemma ParenSlices(n: string, params: string, arg: string)
    ensures var s := n + "(" + params + ") " + arg;
      s[..|n|] == n && s[|n| + 1..|n| + 1 + |params|] == params && s[|n| + 1 + |params| + 1..] == " " + arg
  {
  }

  lemma ParenPositions(n: string, params: string, arg: string)
    requires NameText(n) && Unbracketed(params) && Unbracketed(arg)
    ensures var s := n + "(" + params + ") " + arg;
      Trim(s) == s && IndexOf(s, '(') == |n| && IndexOf(s, ')') == |n| + 1 + |params|
  {
    var s := n + "(" + params + ") " + arg;
    TrimUntouched(s);
    var po := |n|;
    var pc := |n| + 1 + |params|;
    IndexOfAt(s, '(', po);
    forall i | 0 <= i < pc
      ensures s[i] != ')'
    {
      if po < i {
        assert s[i] == params[i - po - 1];
      }
    }
    IndexOfAt(s, ')', pc);
  }

  lemma SplitGatePlain(s: string, n: string, args: string)
    requires Trim(s) == s && IndexOf(s, '(') == -1 && IndexOf(s, ' ') == |n|
    requires Trim(s[..|n|]) == n && Trim(s[|n| + 1..]) == args
    ensures SplitGate(s) == Ok(GateParts(n, None, args))
  {
  }

  /** `s` is trimmed, its first '(' and first ')' sit at `po` < `pc`, and the three pieces trim to the given texts. */
  predicate ParenSplittable(s: string, po: int, pc: int, n: string, params: string, arg: string)
  {
    Trim(s) == s && IndexOf(s, '(') == po && IndexOf(s, ')') == pc && 0 <= po < pc < |s| &&
    Trim(s[..po]) == n && Trim(s[po + 1..pc]) == params && Trim(s[pc + 1..]) == arg && arg != ""
  }

  lemma SplitGateParam(s: string, po: nat, pc: nat, n: string, params: string, arg: string)
    requires ParenSplittable(s, po, pc, n, params, arg)
    ensures SplitGate(s) == Ok(GateParts(n, Some(params), arg))
  {
    assert SplitGate(s) == ParenParts(s, po, pc);
  }

  /** `parseGate` once the split, the argument pattern and the qubit list are known. */
  lemma ParseGateOf(stmt: string, parts: GateParts, q: seq<int>, parse: Parser)
    requires SplitGate(stmt) == Ok(parts) && QubitArgs(parts.args) && ParseQubitList(parts.args) == Ok(q)
    ensures ParseGate(stmt, parse) == Dispatch(ToLower(parts.name), parts.param, q, parse)
  {
  }

  lemma GateName(g: Gate)
    ensures NameText(Name(g))
  {
    NamesAreLowercase(g);
  }

  /** The printed qubit list starts with 'q', ends with ']' and has no parenthesis. */
  lemma ListUnbracketed(qs: seq<int>)
    requires |qs| > 0 && forall k :: 0 <= k < |qs| ==> qs[k] >= 0
    ensures Unbracketed(JoinWith(Refs(qs), ", "))
  {
    var ts := Refs(qs);
    forall k | 0 <= k < |ts|
      ensures ts[k] != ""
    {
      RefEnds(qs[k]);
    }
    JoinEnds(ts, ", ");
    RefEnds(qs[0]);
    RefEnds(qs[|qs| - 1]);
    RefsWithin(qs);
    ListNoParen(JoinWith(ts, ", "));
  }

  /** A reference starts with its register letter and ends with ']'. */
  lemma RefEnds(q: int)
    ensures var r := Ref('q', q); |r| > 2 && r[0] == 'q' && r[|r| - 1] == ']'
  {
  }

  lemma ListNoParen(t: string)
    requires Within(t, ListChar)
    ensures Within(t, NoParen)
  {
    forall i | 0 <= i < |t|
      ensures NoParen(t[i])
    {
      assert ListChar(t[i]);
    }
  }

  /** The exporter's `name q[a], q[b], ...` is read as the gate it printed, io CNOTGate as CNOT. */
  lemma PlainGateRoundTrip(g: Gate, qs: seq<int>, parse: Parser)
    requires !Parametric(g) && !g.IoCCX? && |qs| == Arity(g)
    requires forall k :: 0 <= k < |qs| ==> 0 <= qs[k] <= IntMax
    ensures ParseGate(Name(g) + " " + JoinWith(Refs(qs), ", "), parse) == Ok(GateOp(Canon(g), qs))
  {
    var args := JoinWith(Refs(qs), ", ");
    GateName(g);
    ListUnbracketed(qs);
    PlainShape(Name(g), args);
    ArgsRecognised(qs);
    QubitListRoundTrip(qs);
    LowerName(g);
    DispatchPlain(g, None, qs, parse);
    ParseGateOf(Name(g) + " " + args, GateParts(Name(g), None, args), qs, parse);
  }

  /** The exporter's `name(p1, p2, ...) q[a]` is read as the gate it printed, parameters included. */
  lemma ParamGateRoundTrip(g: Gate, q: int, fmt: Formatter, parse: Parser)
    requires Parametric(g) && Readable(Params(g), fmt, parse) && 0 <= q <= IntMax
    ensures ParseGate(Name(g) + "(" + ParamText(Params(g), fmt) + ") " + Ref('q', q), parse) == Ok(GateOp(g, [q]))
  {
    var ps := ParamText(Params(g), fmt);
    var arg := Ref('q', q);
    ParamSplit(g, q, fmt, parse);
    SingleArg(q);
    DispatchParametricLower(g, q, fmt, parse);
    ParseGateOf(Name(g) + "(" + ps + ") " + arg, GateParts(Name(g), Some(ps), arg), [q], parse);
  }

  /** A single printed qubit reference passes the argument pattern and is read back. */
  lemma SingleArg(q: int)
    requires 0 <= q <= IntMax
    ensures QubitArgs(Ref('q', q)) && ParseQubitList(Ref('q', q)) == Ok([q])
  {
    assert Refs([q]) == [Ref('q', q)];
    ArgsRecognised([q]);
    QubitListRoundTrip([q]);
  }

  lemma DispatchParametricLower(g: Gate, q: int, fmt: Formatter, parse: Parser)
    requires Parametric(g) && Readable(Params(g), fmt, parse)
    ensures Dispatch(ToLower(Name(g)), Some(ParamText(Params(g), fmt)), [q], parse) == Ok(GateOp(g, [q]))
  {
    LowerName(g);
    DispatchParametric(g, q, fmt, parse);
  }

  lemma ParamSplit(g: Gate, q: int, fmt: Formatter, parse: Parser)
    requires Parametric(g) && Readable(Params(g), fmt, parse) && 0 <= q <= IntMax
    ensures var ps := ParamText(Params(g), fmt);
      SplitGate(Name(g) + "(" + ps + ") " + Ref('q', q)) == Ok(GateParts(Name(g), Some(ps), Ref('q', q)))
  {
    var ps := ParamText(Params(g), fmt);
    GateName(g);
    ParamTextShape(Params(g), fmt, parse);
    forall i | 0 <= i < |ps|
      ensures NoParen(ps[i])
    {
      assert ParamListChar(ps[i]);
    }
    assert Refs([q]) == [Ref('q', q)];
    ListUnbracketed([q]);
    ParamShape(Name(g), ps, Ref('q', q));
  }

  // ---------------------------------------------------------------- lines and statements

  /** A gate's statement as the exporter prints it, without its semicolon. */
  function GateText(g: Gate, qs: seq<int>, fmt: Formatter): string
    requires Parametric(g) ==> |qs| > 0
  {
    if Parametric(g) then Name(g) + "(" + ParamText(Params(g), fmt) + ") " + Ref('q', qs[0])
    else Name(g) + " " + JoinWith(Refs(qs), ", ")
  }

  /** A measurement's statement as the exporter prints it, without its semicolon. */
  function MeasureText(q: int, c: int): string
  {
    "measure " + Ref('q', q) + " -> " + Ref('c', c)
  }

  /** A gate the exporter can print with all its qubits. */
  lemma ParamLineText(g: Gate, qs: seq<int>, fmt: Formatter)
    requires Parametric(g) && |qs| == 1
    ensures GateLine(g, qs, fmt) == Ok(GateText(g, qs, fmt) + ";")
  {
    assert ParamText(Params(g), fmt) == JoinWith(Formatted(Params(g), fmt), ", ");
  }

  lemma PlainLineText(g: Gate, qs: seq<int>, fmt: Formatter)
    requires !Parametric(g) && !g.IoCCX? && |qs| == Arity(g)
    ensures GateLine(g, qs, fmt) == Ok(GateText(g, qs, fmt) + ";")
  {
    LowerName(g);
    assert qs[..|qs|] == qs;
  }

  lemma GateLineText(g: Gate, qs: seq<int>, fmt: Formatter)
    requires !g.IoCCX? && |qs| == Arity(g)
    ensures GateLine(g, qs, fmt) == Ok(GateText(g, qs, fmt) + ";")
  {
    if Parametric(g) {
      ParamLineText(g, qs, fmt);
    } else {
      PlainLineText(g, qs, fmt);
    }
  }

  /** Text that starts none of the statements `fromQasm` tests for before the gates. */
  predicate KeywordFree(s: string)
  {
    !StartsWith(s, "OPENQASM") && !StartsWith(s, "include") && !StartsWith(s, "qreg ") &&
    !StartsWith(s, "creg ") && !StartsWith(s, "measure ")
  }

  /** A difference at position i rules out the prefix. */
  lemma DiffersAt(s: string, p: string, i: nat)
    requires i < |s| && i < |p| && s[i] != p[i]
    ensures !StartsWith(s, p)
  {
    if |p| <= |s| {
      assert s[..|p|][i] == s[i];
    }
  }

  /** A gate name followed by a space or '(' starts no keyword: the names share at most one letter with them. */
  lemma GateKeywordFree(g: Gate, s: string)
    requires |Name(g)| < |s| && s[..|Name(g)|] == Name(g) && (s[|Name(g)|] == ' ' || s[|Name(g)|] == '(')
    ensures KeywordFree(s)
  {
    NamesAreLowercase(g);
    var n := Name(g);
    assert s[0] == n[0];
    DiffersAt(s, "OPENQASM", 0);
    if n[0] == 'i' {
      assert s[1] == n[1];
      DiffersAt(s, "include", 1);
    } else {
      DiffersAt(s, "include", 0);
    }
    DiffersAt(s, "qreg ", 0);
    if n[0] == 'c' {
      assert s[1] == n[1];
      DiffersAt(s, "creg ", 1);
    } else {
      DiffersAt(s, "creg ", 0);
    }
    DiffersAt(s, "measure ", 0);
  }

  /** A gate instruction the exporter prints and the importer reads back. */
  predicate PrintableGate(g: Gate, qs: seq<int>, fmt: Formatter, parse: Parser)
  {
    !g.IoCCX? && |qs| == Arity(g) && (forall k :: 0 <= k < |qs| ==> 0 <= qs[k] <= IntMax) &&
    (Parametric(g) ==> Readable(Params(g), fmt, parse))
  }

  /** After a qreg, the printed gate statement appends the gate, io CNOTGate as CNOT. */
  lemma GateStatement(r: Reader, g: Gate, qs: seq<int>, fmt: Formatter, parse: Parser)
    requires r.circuit.Some? && PrintableGate(g, qs, fmt, parse)
    ensures Statement(r, GateText(g, qs, fmt), parse) == Ok(Append(r, GateOp(Canon(g), qs)))
  {
    GateTextParses(g, qs, fmt, parse);
    GateTextKeywordFree(g, qs, fmt);
    StatementGate(r, GateText(g, qs, fmt), GateOp(Canon(g), qs), parse);
  }

  /** The printed gate statement parses as the gate. */
  lemma GateTextParses(g: Gate, qs: seq<int>, fmt: Formatter, parse: Parser)
    requires PrintableGate(g, qs, fmt, parse)
    ensures ParseGate(GateText(g, qs, fmt), parse) == Ok(GateOp(Canon(g), qs))
  {
    if Parametric(g) {
      assert qs == [qs[0]];
      ParamGateRoundTrip(g, qs[0], fmt, parse);
    } else {
      PlainGateRoundTrip(g, qs, parse);
    }
  }

  /** The printed gate statement starts with the name and then a space or '('. */
  lemma GateTextKeywordFree(g: Gate, qs: seq<int>, fmt: Formatter)
    requires Parametric(g) ==> |qs| > 0
    ensures KeywordFree(GateText(g, qs, fmt))
  {
    var t := GateText(g, qs, fmt);
    if Parametric(g) {
      ParamPrefix(Name(g), ParamText(Params(g), fmt), Ref('q', qs[0]));
    } else {
      PlainPrefix(Name(g), JoinWith(Refs(qs), ", "));
    }
    GateKeywordFree(g, t);
  }

  lemma ParamPrefix(n: string, ps: string, q: string)
    ensures var s := n + "(" + ps + ") " + q; |n| < |s| && s[..|n|] == n && s[|n|] == '('
  {
    var s := n + "(" + ps + ") " + q;
    assert s[..|n|] == n;
  }

  lemma PlainPrefix(n: string, rest: string)
    ensures var s := n + " " + rest; |n| < |s| && s[..|n|] == n && s[|n|] == ' '
  {
    var s := n + " " + rest;
    assert s[..|n|] == n;
  }

  /** A statement no keyword starts is a gate once a qreg was seen. */
  lemma StatementGate(r: Reader, stmt: string, i: Instruction, parse: Parser)
    requires r.circuit.Some? && KeywordFree(stmt) && ParseGate(stmt, parse) == Ok(i)
    ensures Statement(r, stmt, parse) == Ok(Append(r, i))
  {
  }

  /** The exporter's `measure q[i] -> c[j]` is read back when j lies below the declared creg size. */
  lemma MeasureParse(q: int, c: int, cregSize: int)
    requires 0 <= q <= IntMax && 0 <= c <= IntMax && c < cregSize
    ensures StartsWith(MeasureText(q, c), "measure ") && ParseMeasure(MeasureText(q, c), cregSize) == Ok(MeasureOp(q, c))
  {
    var a, b := Ref('q', q), Ref('c', c);
    MeasureRest(q, c);
    RefWithin('q', q);
    RefWithin('c', c);
    ArrowSplit(a, b);
    TrimSpaced(a);
    TrimIndented(b);
    ParseRef('q', q);
    ParseRef('c', c);
    ParseMeasureOf(MeasureText(q, c), a + " ", " " + b, q, c, cregSize);
  }

  /** `parseMeasure` once the two sides of the arrow are known. */
  lemma ParseMeasureOf(stmt: string, qt: string, ct: string, q: int, c: int, cregSize: int)
    requires StartsWith(stmt, "measure ") && Split(Trim(stmt[7..]), "->") == [qt, ct]
    requires ParseIndexedRegister(Trim(qt), "q") == Ok(q) && ParseIndexedRegister(Trim(ct), "c") == Ok(c)
    requires cregSize < 0 || c < cregSize
    ensures ParseMeasure(stmt, cregSize) == Ok(MeasureOp(q, c))
  {
  }

  /** After the keyword comes one space and then the two references around the arrow. */
  lemma MeasureRest(q: int, c: int)
    ensures StartsWith(MeasureText(q, c), "measure ")
    ensures Trim(MeasureText(q, c)[7..]) == Ref('q', q) + " -> " + Ref('c', c)
  {
    var m := Ref('q', q) + " -> " + Ref('c', c);
    PrefixSlices("measure ", Ref('q', q), " -> ", Ref('c', c));
    TrimIndented(m);
  }

  /** The text after all but the last character of a prefix p, in `p + a + b + d`. */
  lemma PrefixSlices(p: string, a: string, b: string, d: string)
    requires |p| > 0
    ensures StartsWith(p + a + b + d, p)
    ensures (p + a + b + d)[|p| - 1..] == [p[|p| - 1]] + (a + b + d)
  {
    var t := p + a + b + d;
    assert t[..|p|] == p;
    assert t == p + (a + b + d);
  }

  /** A visible text followed by one space trims back to itself. */
  lemma TrimSpaced(t: string)
    requires |t| > 0 && !IsTrimmed(t[0]) && !IsTrimmed(t[|t| - 1])
    ensures Trim(t + " ") == t
  {
    TrimPadded("", t, " ");
    assert "" + t + " " == t + " ";
    TrimUntouched(t);
  }

  /** `q[i] -> c[j]` split at "->": both references keep the space next to the arrow. */
  lemma ArrowSplit(a: string, b: string)
    requires Within(a, RefChar) && Within(b, RefChar)
    ensures Split(a + " -> " + b, "->") == [a + " ", " " + b]
  {
    var ts := [a + " ", " " + b];
    Join2(ts[0], ts[1], "->");
    assert ts[0] + "->" + ts[1] == a + " -> " + b;
    forall k, i | 0 <= k < |ts| && 0 <= i < |ts[k]|
      ensures ts[k][i] != '-'
    {
      if k == 0 && i < |a| {
        assert RefChar(a[i]);
      } else if k == 1 && i > 0 {
        assert RefChar(b[i - 1]);
      }
    }
    SplitOfJoin(ts, "->");
  }

  /** After a qreg, the printed measurement appends it when its bit lies below the creg size. */
  lemma MeasureStatement(r: Reader, q: int, c: int, parse: Parser)
    requires r.circuit.Some? && 0 <= q <= IntMax && 0 <= c <= IntMax && c < r.cregSize
    ensures Statement(r, MeasureText(q, c), parse) == Ok(Append(r, MeasureOp(q, c)))
  {
    MeasureParse(q, c, r.cregSize);
    StatementMeasure(r, MeasureText(q, c), MeasureOp(q, c), parse);
  }

  /** A statement starting with "measure " is a measurement once a qreg was seen. */
  /** The measurement branch of Statement, once the circuit exists. */
  lemma MeasureBranch(r: Reader, stmt: string, parse: Parser)
    requires r.circuit.Some? && StartsWith(stmt, "measure ")
    ensures var m := ParseMeasure(stmt, r.cregSize);
      Statement(r, stmt, parse) == if m.Ok? then Ok(Append(r, m.value)) else Err(m.error)
  {
    assert stmt[0] == stmt[..8][0] == "measure "[0] == 'm';
    DiffersAt(stmt, "OPENQASM", 0);
    DiffersAt(stmt, "include", 0);
    DiffersAt(stmt, "qreg ", 0);
    DiffersAt(stmt, "creg ", 0);
  }

  lemma StatementMeasure(r: Reader, stmt: string, i: Instruction, parse: Parser)
    requires r.circuit.Some? && StartsWith(stmt, "measure ") && ParseMeasure(stmt, r.cregSize) == Ok(i)
    ensures Statement(r, stmt, parse) == Ok(Append(r, i))
  {
    MeasureBranch(r, stmt, parse);
  }

  /** A complete line with nothing buffered is its statement without the semicolon. */
  lemma StepLine(r: Reader, body: string, parse: Parser)
    requires r.buffer == "" && |body| > 0 && !IsTrimmed(body[0]) && !IsTrimmed(body[|body| - 1])
    ensures Step(r, body + ";", parse) == Statement(r, body, parse)
  {
    LineParts(r.buffer, body);
    assert r.(buffer := "") == r;
  }

  /** The texts `Step` computes from a complete line with nothing buffered. */
  lemma LineParts(buffer: string, body: string)
    requires buffer == "" && |body| > 0 && !IsTrimmed(body[0]) && !IsTrimmed(body[|body| - 1])
    ensures var line := body + ";"; var full := Trim(buffer + Trim(line) + " ");
      Trim(line) == line && Trim(line) != "" && EndsWith(Trim(line), ";") &&
      full == line && Trim(full[..|full| - 1]) == body
  {
    var line := body + ";";
    TrimUntouched(line);
    assert EndsWith(line, ";");
    assert buffer + line + " " == line + " ";
    TrimSpaced(line);
    assert line[..|line| - 1] == body;
    TrimUntouched(body);
  }

  // ---------------------------------------------------------------- the header

  /** `qreg q[n]` or `creg c[n]` as the exporter declares a register. */
  function DeclText(kw: string, reg: char, n: int): string
  {
    kw + " " + Ref(reg, n)
  }

  /** A declaration keyword: letters only. */
  predicate Keyword(kw: string)
  {
    |kw| > 0 && Within(kw, IsIdentStart)
  }

  /** The exporter's declaration passes `parseRegisterDecl` and `extractRegisterSize` reads its size. */
  lemma DeclSize(kw: string, reg: char, n: int)
    requires Keyword(kw) && IsIdentStart(reg) && 0 <= n <= IntMax
    ensures RegisterSize(DeclText(kw, reg, n), kw) == Ok(n)
  {
    var s := DeclText(kw, reg, n);
    DeclTrimmed(kw, reg, n);
    DeclPattern(kw, reg, n);
    DeclExtract(kw, reg, n);
  }

  lemma DeclTrimmed(kw: string, reg: char, n: int)
    requires Keyword(kw)
    ensures Trim(DeclText(kw, reg, n)) == DeclText(kw, reg, n)
    ensures StartsWith(DeclText(kw, reg, n), kw + " ")
  {
    var s := DeclText(kw, reg, n);
    assert IsIdentStart(kw[0]);
    assert s[0] == kw[0] && s[|s| - 1] == ']';
    TrimUntouched(s);
    assert s[..|kw| + 1] == kw + " ";
  }

  /** The declaration matches `keyword\s+[A-Za-z_][A-Za-z_0-9]*\s*\[\s*\d+\s*]`. */
  lemma DeclPattern(kw: string, reg: char, n: int)
    requires Keyword(kw) && IsIdentStart(reg) && 0 <= n <= IntMax
    ensures RegisterDecl(DeclText(kw, reg, n), kw)
  {
    KeywordSplit(kw, Ref(reg, n));
    RefDeclTail(reg, n);
    DeclOf(DeclText(kw, reg, n), kw, Ref(reg, n));
  }

  lemma DeclOf(s: string, kw: string, t: string)
    requires StartsWith(s, kw) && s[|kw|..] == " " + t && DeclTail(" " + t)
    ensures RegisterDecl(s, kw)
  {
  }

  lemma KeywordSplit(kw: string, t: string)
    ensures StartsWith(kw + " " + t, kw) && (kw + " " + t)[|kw|..] == " " + t
  {
    assert (kw + " " + t)[..|kw|] == kw;
  }

  /** ` reg[n]` matches the pattern after the keyword; the stage facts come last, as they are costly to hold. */
  lemma RefDeclTail(reg: char, n: int)
    requires IsIdentStart(reg) && n >= 0
    ensures DeclTail(" " + Ref(reg, n))
  {
    var d := IntToString(n);
    DeclTailOf(Ref(reg, n));
    RefShape(reg, n);
    NamedIndexOf(reg, "[" + d + "]");
    NumberChars(n);
    IndexTailOf(d);
  }

  lemma RefShape(reg: char, n: int)
    ensures Ref(reg, n) == [reg] + ("[" + IntToString(n) + "]")
  {
  }

  /** One space before the name: the `\s+` stage consumes it. */
  lemma DeclTailOf(t: string)
    requires |t| > 0 && !IsSpace(t[0])
    ensures DeclTail(" " + t) == NamedIndex(t)
  {
    SkipRun(" ", t, IsSpace);
  }

  /** A one-letter name directly before the '[': the name and `\s*` stages consume just the letter. */
  lemma NamedIndexOf(reg: char, c: string)
    requires IsIdentStart(reg) && |c| > 0 && c[0] == '['
    ensures NamedIndex([reg] + c) == IndexTail(c)
  {
    var b := [reg] + c;
    assert b[1..] == c;
    assert !IsIdentPart(c[0]) && !IsSpace(c[0]);
    SkipRun("", c, IsIdentPart);
    assert "" + c == c;
    SkipRun("", c, IsSpace);
  }

  lemma IndexTailOf(d: string)
    requires |d| > 0 && AllDigits(d)
    ensures IndexTail("[" + d + "]")
  {
    var c := "[" + d + "]";
    assert c[1..] == d + "]";
    DigitsSkips(d);
    IndexTailParts(c, d);
  }

  lemma DigitsSkips(d: string)
    requires |d| > 0 && AllDigits(d)
    ensures Skip(d + "]", IsSpace) == d + "]" && Skip(d + "]", IsDigit) == "]" && Skip("]", IsSpace) == "]"
  {
    SkipNone(d + "]", IsSpace);
    SkipRun(d, "]", IsDigit);
    SkipNone("]", IsSpace);
  }

  /** Text whose first character is outside p is not shortened. */
  lemma SkipNone(s: string, p: char -> bool)
    requires |s| > 0 && !p(s[0])
    ensures Skip(s, p) == s
  {
  }

  lemma IndexTailParts(c: string, d: string)
    requires |c| > 0 && c[0] == '[' && c[1..] == d + "]" && |d| > 0
    requires Skip(d + "]", IsSpace) == d + "]" && Skip(d + "]", IsDigit) == "]" && Skip("]", IsSpace) == "]"
    ensures IndexTail(c)
  {
  }

  /** The size sits between the first '[' and the first ']'. */
  lemma DeclExtract(kw: string, reg: char, n: int)
    requires Keyword(kw) && IsIdentStart(reg) && 0 <= n <= IntMax
    ensures ExtractRegisterSize(DeclText(kw, reg, n)) == Ok(n)
  {
    var d := IntToString(n);
    var pre := kw + " " + [reg];
    NumberChars(n);
    PreNoBracket(kw, reg);
    Brackets(pre, d);
    DeclRegroup(kw, reg, d);
    TrimUntouched(d);
    ParseIntOfString(n);
    ExtractOf(pre + ("[" + d + "]"), |pre|, |pre| + |d| + 1, d, d, n);
  }

  lemma PreNoBracket(kw: string, reg: char)
    requires Keyword(kw) && IsIdentStart(reg)
    ensures var pre := kw + " " + [reg]; forall i :: 0 <= i < |pre| ==> pre[i] != '[' && pre[i] != ']'
  {
    var pre := kw + " " + [reg];
    forall i | 0 <= i < |pre|
      ensures pre[i] != '[' && pre[i] != ']'
    {
      if i < |kw| {
        assert pre[i] == kw[i] && IsIdentStart(kw[i]);
      }
    }
  }

  lemma DeclRegroup(kw: string, reg: char, d: string)
    ensures kw + " " + ([reg] + "[" + d + "]") == (kw + " " + [reg]) + ("[" + d + "]")
  {
  }

  /** In `pre[d]` with no bracket in pre and only digits in d, the brackets are the first of their kind. */
  lemma Brackets(pre: string, d: string)
    requires forall i :: 0 <= i < |pre| ==> pre[i] != '[' && pre[i] != ']'
    requires AllDigits(d)
    ensures var s := pre + ("[" + d + "]");
      IndexOf(s, '[') == |pre| && IndexOf(s, ']') == |s| - 1 && s[|pre| + 1..|s| - 1] == d
  {
    var s := pre + ("[" + d + "]");
    IndexOfAt(s, '[', |pre|);
    forall i | 0 <= i < |s| - 1
      ensures s[i] != ']'
    {
      if i > |pre| {
        assert s[i] == d[i - |pre| - 1];
      }
    }
    IndexOfAt(s, ']', |s| - 1);
  }

  lemma ExtractOf(s: string, lb: int, rb: int, m: string, d: string, v: int)
    requires 0 <= lb < rb && IndexOf(s, '[') == lb && IndexOf(s, ']') == rb
    requires s[lb + 1..rb] == m && Trim(m) == d && ParseInt(d) == Some(v)
    ensures ExtractRegisterSize(s) == Ok(v)
  {
  }

  // ---------------------------------------------------------------- instruction lines

  /** The reader after the header and after each instruction line: qreg and creg of size n, nothing buffered. */
  function Ready(n: int, xs: seq<Instruction>): Reader
  {
    Reader(Some(Circuit(n, xs)), n, "")
  }

  /** An instruction as the importer gives it back: io CNOTGate becomes CNOT. */
  function CanonInstruction(i: Instruction): Instruction
  {
    match i
    case GateOp(g, qs) => GateOp(Canon(g), qs)
    case MeasureOp(_, _) => i
  }

  function CanonAll(s: seq<Instruction>): (r: seq<Instruction>)
    ensures |r| == |s| && forall k :: 0 <= k < |s| ==> r[k] == CanonInstruction(s[k])
  {
    if |s| == 0 then [] else CanonAll(s[..|s| - 1]) + [CanonInstruction(s[|s| - 1])]
  }

  /** An instruction the exporter prints and the importer reads back into a circuit of n qubits and n bits. */
  predicate Printable(i: Instruction, n: int, fmt: Formatter, parse: Parser)
  {
    match i
    case GateOp(g, qs) => PrintableGate(g, qs, fmt, parse)
    case MeasureOp(q, c) => 0 <= q <= IntMax && 0 <= c < n
  }

  /** The last character of a join is that of its last piece. */
  lemma {:induction false} JoinLast(ts: seq<string>, sep: string)
    requires |ts| > 0 && |ts[|ts| - 1]| > 0
    ensures var j := JoinWith(ts, sep); |j| > 0 && j[|j| - 1] == ts[|ts| - 1][|ts[|ts| - 1]| - 1]
    decreases |ts|
  {
    if |ts| > 1 {
      JoinLast(ts[1..], sep);
    }
  }

  /** A printed gate starts with its name and ends with the ']' of its last qubit. */
  lemma GateEnds(g: Gate, qs: seq<int>, fmt: Formatter)
    requires |qs| == Arity(g)
    ensures var t := GateText(g, qs, fmt); |t| > 0 && !IsTrimmed(t[0]) && !IsTrimmed(t[|t| - 1])
  {
    NameVisible(g);
    if Parametric(g) {
      ParamGateEnds(g, qs, fmt);
    } else {
      PlainGateEnds(g, qs, fmt);
    }
  }

  lemma NameVisible(g: Gate)
    ensures |Name(g)| > 0 && !IsTrimmed(Name(g)[0])
  {
    NamesAreLowercase(g);
  }

  lemma ParamGateEnds(g: Gate, qs: seq<int>, fmt: Formatter)
    requires Parametric(g) && |qs| > 0 && |Name(g)| > 0 && !IsTrimmed(Name(g)[0])
    ensures var t := GateText(g, qs, fmt); |t| > 0 && !IsTrimmed(t[0]) && !IsTrimmed(t[|t| - 1])
  {
    RefEnds(qs[0]);
    var a, z := ParamEnds(Name(g), ParamText(Params(g), fmt), Ref('q', qs[0]));
    VisibleEnds(GateText(g, qs, fmt), a, z);
  }

  lemma PlainGateEnds(g: Gate, qs: seq<int>, fmt: Formatter)
    requires !Parametric(g) && |qs| > 0 && |Name(g)| > 0 && !IsTrimmed(Name(g)[0])
    ensures var t := GateText(g, qs, fmt); |t| > 0 && !IsTrimmed(t[0]) && !IsTrimmed(t[|t| - 1])
  {
    var ts := Refs(qs);
    RefEnds(qs[|qs| - 1]);
    JoinLast(ts, ", ");
    var a, z := PlainEnds(Name(g), JoinWith(ts, ", "));
    VisibleEnds(GateText(g, qs, fmt), a, z);
  }

  lemma ParamEnds(n: string, ps: string, q: string) returns (a: char, z: char)
    requires |n| > 0 && |q| > 0
    ensures var s := n + "(" + ps + ") " + q; |s| > 0 && s[0] == a == n[0] && s[|s| - 1] == z == q[|q| - 1]
  {
    a, z := n[0], q[|q| - 1];
  }

  lemma PlainEnds(n: string, rest: string) returns (a: char, z: char)
    requires |n| > 0 && |rest| > 0
    ensures var s := n + " " + rest; |s| > 0 && s[0] == a == n[0] && s[|s| - 1] == z == rest[|rest| - 1]
  {
    a, z := n[0], rest[|rest| - 1];
  }

  lemma VisibleEnds(t: string, a: char, z: char)
    requires |t| > 0 && t[0] == a && t[|t| - 1] == z && !IsTrimmed(a) && !IsTrimmed(z)
    ensures |t| > 0 && !IsTrimmed(t[0]) && !IsTrimmed(t[|t| - 1])
  {
  }

  /** The printed line of an instruction adds it, in its canonical form, to the circuit being read. */
  lemma InstructionStep(n: int, xs: seq<Instruction>, i: Instruction, fmt: Formatter, parse: Parser)
    requires 0 <= n <= IntMax && Printable(i, n, fmt, parse)
    ensures InstructionLine(i, fmt).Ok?
    ensures Step(Ready(n, xs), InstructionLine(i, fmt).value, parse) == Ok(Ready(n, xs + [CanonInstruction(i)]))
  {
    var r := Ready(n, xs);
    match i
    case GateOp(g, qs) =>
      GateLineText(g, qs, fmt);
      GateEnds(g, qs, fmt);
      StepLine(r, GateText(g, qs, fmt), parse);
      GateStatement(r, g, qs, fmt, parse);
    case MeasureOp(q, c) =>
      assert MeasureLine(q, c) == MeasureText(q, c) + ";";
      StepLine(r, MeasureText(q, c), parse);
      MeasureStatement(r, q, c, parse);
  }

  /** The instruction lines, read after the header, add the instructions in order. */
  lemma {:induction false} BodyRun(n: int, s: seq<Instruction>, xs: seq<Instruction>, fmt: Formatter, parse: Parser)
    requires 0 <= n <= IntMax && forall k :: 0 <= k < |s| ==> Printable(s[k], n, fmt, parse)
    ensures BodyLines(s, fmt).Ok?
    ensures Run(Ready(n, xs), BodyLines(s, fmt).value, parse) == Ok(Ready(n, xs + CanonAll(s)))
    decreases |s|
  {
    if |s| == 0 {
      assert xs + CanonAll(s) == xs;
    } else {
      BodyRun(n, s[..|s| - 1], xs, fmt, parse);
      BodyRunStep(n, s, xs, fmt, parse);
    }
  }

  /** The induction step of BodyRun: the last instruction's line after the others'. */
  lemma BodyRunStep(n: int, s: seq<Instruction>, xs: seq<Instruction>, fmt: Formatter, parse: Parser)
    requires 0 <= n <= IntMax && |s| > 0 && Printable(s[|s| - 1], n, fmt, parse)
    requires BodyLines(s[..|s| - 1], fmt).Ok?
    requires Run(Ready(n, xs), BodyLines(s[..|s| - 1], fmt).value, parse) == Ok(Ready(n, xs + CanonAll(s[..|s| - 1])))
    ensures BodyLines(s, fmt).Ok?
    ensures Run(Ready(n, xs), BodyLines(s, fmt).value, parse) == Ok(Ready(n, xs + CanonAll(s)))
  {
    var p := s[..|s| - 1];
    var i := s[|s| - 1];
    CanonAllSnoc(xs, s);
    BodyLinesSnoc(s, |s| - 1, fmt);
    InstructionStep(n, xs + CanonAll(p), i, fmt, parse);
    RunExtends(Ready(n, xs), BodyLines(p, fmt).value, InstructionLine(i, fmt).value,
      Ready(n, xs + CanonAll(p)), Ready(n, xs + CanonAll(p) + [CanonInstruction(i)]), parse);
    assert s[..|s|] == s;
  }

  lemma CanonAllSnoc(xs: seq<Instruction>, s: seq<Instruction>)
    requires |s| > 0
    ensures xs + CanonAll(s[..|s| - 1]) + [CanonInstruction(s[|s| - 1])] == xs + CanonAll(s)
  {
    var a, b := CanonAll(s[..|s| - 1]), [CanonInstruction(s[|s| - 1])];
    assert CanonAll(s) == a + b;
    assert xs + a + b == xs + (a + b);
  }

  /** One more line, read from where the others left the reader. */
  lemma RunExtends(r: Reader, ls: seq<string>, l: string, m: Reader, m': Reader, parse: Parser)
    requires Run(r, ls, parse) == Ok(m) && Step(m, l, parse) == Ok(m')
    ensures Run(r, ls + [l], parse) == Ok(m')
  {
    assert (ls + [l])[..|ls|] == ls;
  }

  // ---------------------------------------------------------------- the header lines

  /** `OPENQASM 2.0` and `include "qelib1.inc"` change nothing. */
  lemma PreambleStatements(r: Reader, parse: Parser)
    ensures Statement(r, "OPENQASM 2.0", parse) == Ok(r)
    ensures Statement(r, "include \"qelib1.inc\"", parse) == Ok(r)
  {
    assert "OPENQASM 2.0"[..8] == "OPENQASM";
    assert "include \"qelib1.inc\""[..7] == "include";
  }

  /** `qreg q[n]` creates the circuit of n qubits, with no instructions. */
  lemma QregStatement(r: Reader, n: int, parse: Parser)
    requires 0 <= n <= IntMax
    ensures Statement(r, DeclText("qreg", 'q', n), parse) == Ok(r.(circuit := Some(Circuit(n, []))))
  {
    assert "qreg" + " " == "qreg ";
    DeclFacts("qreg", 'q', n);
    StatementQreg(r, DeclText("qreg", 'q', n), n, parse);
  }

  /** A declaration starts with its keyword, which is neither of the preamble's, and it reads as its size. */
  lemma DeclFacts(kw: string, reg: char, n: int)
    requires Keyword(kw) && IsIdentStart(reg) && 0 <= n <= IntMax
    requires kw[0] != 'O' && kw[0] != 'i'
    ensures var t := DeclText(kw, reg, n);
      StartsWith(t, kw + " ") && !StartsWith(t, "OPENQASM") && !StartsWith(t, "include") && t[0] == kw[0]
    ensures RegisterSize(DeclText(kw, reg, n), kw) == Ok(n)
  {
    var t := DeclText(kw, reg, n);
    DeclTrimmed(kw, reg, n);
    assert t[0] == t[..|kw| + 1][0] == kw[0];
    DiffersAt(t, "OPENQASM", 0);
    DiffersAt(t, "include", 0);
    DeclSize(kw, reg, n);
  }

  lemma StatementQreg(r: Reader, stmt: string, n: int, parse: Parser)
    requires !StartsWith(stmt, "OPENQASM") && !StartsWith(stmt, "include") && StartsWith(stmt, "qreg ")
    requires RegisterSize(stmt, "qreg") == Ok(n)
    ensures Statement(r, stmt, parse) == Ok(r.(circuit := Some(Circuit(n, []))))
  {
  }

  /** `creg c[n]` sets the size against which measurements are checked. */
  lemma CregStatement(r: Reader, n: int, parse: Parser)
    requires 0 <= n <= IntMax
    ensures Statement(r, DeclText("creg", 'c', n), parse) == Ok(r.(cregSize := n))
  {
    assert "creg" + " " == "creg ";
    DeclFacts("creg", 'c', n);
    DiffersAt(DeclText("creg", 'c', n), "qreg ", 0);
    StatementCreg(r, DeclText("creg", 'c', n), n, parse);
  }

  lemma StatementCreg(r: Reader, stmt: string, n: int, parse: Parser)
    requires !StartsWith(stmt, "OPENQASM") && !StartsWith(stmt, "include") && !StartsWith(stmt, "qreg ")
    requires StartsWith(stmt, "creg ") && RegisterSize(stmt, "creg") == Ok(n)
    ensures Statement(r, stmt, parse) == Ok(r.(cregSize := n))
  {
  }

  /** A blank line leaves the reader as it is. */
  lemma BlankStep(r: Reader, line: string, parse: Parser)
    requires line == ""
    ensures Step(r, line, parse) == Ok(r)
  {
  }

  /** `OPENQASM ...;` and `include ...;` lines leave the reader as it is. */
  lemma PreambleStep(r: Reader, body: string, parse: Parser)
    requires r.buffer == "" && |body| > 0 && !IsTrimmed(body[0]) && !IsTrimmed(body[|body| - 1])
    requires StartsWith(body, "OPENQASM") || StartsWith(body, "include")
    ensures Step(r, body + ";", parse) == Ok(r)
  {
    StepLine(r, body, parse);
  }

  lemma VersionStep(r: Reader, line: string, parse: Parser)
    requires r.buffer == "" && line == "OPENQASM 2.0;"
    ensures Step(r, line, parse) == Ok(r)
  {
    var body := "OPENQASM 2.0";
    assert body[..8] == "OPENQASM";
    assert body[0] == 'O' && body[|body| - 1] == '0';
    assert body + ";" == line;
    PreambleStep(r, body, parse);
  }

  lemma IncludeStep(r: Reader, line: string, parse: Parser)
    requires r.buffer == "" && line == "include \"qelib1.inc\";"
    ensures Step(r, line, parse) == Ok(r)
  {
    var body := "include \"qelib1.inc\"";
    assert body[..7] == "include";
    assert body[0] == 'i' && body[|body| - 1] == '"';
    assert body + ";" == line;
    PreambleStep(r, body, parse);
  }

  /** A declaration starts with its keyword and ends with ']'. */
  lemma DeclEnds(kw: string, reg: char, n: int)
    requires Keyword(kw)
    ensures var t := DeclText(kw, reg, n); |t| > 0 && !IsTrimmed(t[0]) && !IsTrimmed(t[|t| - 1])
  {
    DeclTrimmed(kw, reg, n);
  }

  lemma QregStep(r: Reader, line: string, n: int, parse: Parser)
    requires r.buffer == "" && 0 <= n <= IntMax && line == "qreg " + Ref('q', n) + ";"
    ensures Step(r, line, parse) == Ok(r.(circuit := Some(Circuit(n, []))))
  {
    assert line == DeclText("qreg", 'q', n) + ";";
    DeclEnds("qreg", 'q', n);
    StepLine(r, DeclText("qreg", 'q', n), parse);
    QregStatement(r, n, parse);
  }

  lemma CregStep(r: Reader, line: string, n: int, parse: Parser)
    requires r.buffer == "" && 0 <= n <= IntMax && line == "creg " + Ref('c', n) + ";"
    ensures Step(r, line, parse) == Ok(r.(cregSize := n))
  {
    assert line == DeclText("creg", 'c', n) + ";";
    DeclEnds("creg", 'c', n);
    StepLine(r, DeclText("creg", 'c', n), parse);
    CregStatement(r, n, parse);
  }

  /** The reader before each header line, and after the last. */
  function HeaderReaders(n: int): seq<Reader>
  {
    var q := Start.(circuit := Some(Circuit(n, [])));
    [Start, Start, Start, Start, q, Ready(n, []), Ready(n, [])]
  }

  /** Each header line takes the reader before it to the one after it. */
  lemma HeaderStep(n: int, k: int, parse: Parser)
    requires 0 <= n <= IntMax && 0 <= k < 6
    ensures Step(HeaderReaders(n)[k], HeaderLines(n)[k], parse) == Ok(HeaderReaders(n)[k + 1])
  {
    if k < 2 {
      PreambleLineStep(n, k, parse);
    } else if k == 3 || k == 4 {
      DeclLineStep(n, k, parse);
    } else {
      var h, rs := HeaderLines(n), HeaderReaders(n);
      assert rs[k + 1] == rs[k];
      BlankStep(rs[k], h[k], parse);
    }
  }

  /** The version and include lines change nothing. */
  lemma PreambleLineStep(n: int, k: int, parse: Parser)
    requires 0 <= k < 2
    ensures Step(HeaderReaders(n)[k], HeaderLines(n)[k], parse) == Ok(HeaderReaders(n)[k + 1])
  {
    var h, rs := HeaderLines(n), HeaderReaders(n);
    assert rs[k] == Start && rs[k + 1] == Start;
    if k == 0 {
      VersionStep(rs[k], h[k], parse);
    } else {
      IncludeStep(rs[k], h[k], parse);
    }
  }

  /** The qreg and creg lines declare the registers. */
  lemma DeclLineStep(n: int, k: int, parse: Parser)
    requires 0 <= n <= IntMax && 3 <= k < 5
    ensures Step(HeaderReaders(n)[k], HeaderLines(n)[k], parse) == Ok(HeaderReaders(n)[k + 1])
  {
    if k == 3 {
      QregLineStep(n, k, parse);
    } else {
      CregLineStep(n, k, parse);
    }
  }

  lemma QregLineStep(n: int, k: int, parse: Parser)
    requires 0 <= n <= IntMax && k == 3
    ensures Step(HeaderReaders(n)[k], HeaderLines(n)[k], parse) == Ok(HeaderReaders(n)[k + 1])
  {
    var h, rs := HeaderLines(n), HeaderReaders(n);
    assert rs[k + 1] == rs[k].(circuit := Some(Circuit(n, [])));
    QregStep(rs[k], h[k], n, parse);
  }

  lemma CregLineStep(n: int, k: int, parse: Parser)
    requires 0 <= n <= IntMax && k == 4
    ensures Step(HeaderReaders(n)[k], HeaderLines(n)[k], parse) == Ok(HeaderReaders(n)[k + 1])
  {
    var h, rs := HeaderLines(n), HeaderReaders(n);
    assert rs[k + 1] == rs[k].(cregSize := n);
    CregStep(rs[k], h[k], n, parse);
  }

  /** The first k header lines. */
  lemma {:induction false} HeaderPrefix(n: int, k: int, parse: Parser)
    requires 0 <= n <= IntMax && 0 <= k <= 6
    ensures Run(Start, HeaderLines(n)[..k], parse) == Ok(HeaderReaders(n)[k])
  {
    if k > 0 {
      HeaderPrefix(n, k - 1, parse);
      HeaderStep(n, k - 1, parse);
      PrefixStep(Start, HeaderLines(n), k - 1, HeaderReaders(n)[k - 1], HeaderReaders(n)[k], parse);
    }
  }

  /** The header declares n qubits and n bits and leaves nothing buffered. */
  lemma HeaderRun(n: int, parse: Parser)
    requires 0 <= n <= IntMax
    ensures Run(Start, HeaderLines(n), parse) == Ok(Ready(n, []))
  {
    HeaderPrefix(n, 6, parse);
    assert HeaderLines(n)[..6] == HeaderLines(n);
  }

  /** One more line of ls, read from where its first k lines left the reader. */
  lemma PrefixStep(r: Reader, ls: seq<string>, k: int, m: Reader, m': Reader, parse: Parser)
    requires 0 <= k < |ls| && Run(r, ls[..k], parse) == Ok(m) && Step(m, ls[k], parse) == Ok(m')
    ensures Run(r, ls[..k + 1], parse) == Ok(m')
  {
    assert ls[..k + 1][..k] == ls[..k];
  }
}
