/**
 * The ASCII character and string operations the toolchain relies on:
 * `toLowerCase` on the letters A-Z, and the character classes the QASM
 * importer's recognisers test.
 */
module Strings {
  import opened Wrappers

  function LowerChar(c: char): (r: char)
    ensures 'A' <= c <= 'Z' ==> 'a' <= r <= 'z'
    ensures !('A' <= c <= 'Z') ==> r == c
  {
    if 'A' <= c <= 'Z' then (c as int - 'A' as int + 'a' as int) as char else c
  }

  /** `toLowerCase` for ASCII text: each of A-Z becomes its lowercase letter, everything else stays. */
  function ToLower(s: string): (r: string)
    ensures |r| == |s|
    ensures forall i :: 0 <= i < |s| ==> r[i] == LowerChar(s[i])
  {
    if |s| == 0 then [] else ToLower(s[..|s| - 1]) + [LowerChar(s[|s| - 1])]
  }

  /** Text without capital letters is its own lowercase form. */
  lemma ToLowerNoCapitals(s: string)
    requires forall i :: 0 <= i < |s| ==> !('A' <= s[i] <= 'Z')
    ensures ToLower(s) == s
  {
  }

  /** Lowercasing twice is lowercasing once. */
  lemma ToLowerIdempotent(s: string)
    ensures ToLower(ToLower(s)) == ToLower(s)
  {
  }

  // ------------------------------------------------------------ character classes

  /** The characters `String.trim` removes: every code point up to U+0020. */
  predicate IsTrimmed(c: char)
  {
    c <= ' '
  }

  /** The regex class `\s`: space, tab, newline, vertical tab, form feed and carriage return. */
  predicate IsSpace(c: char)
  {
    c == ' ' || c == '\t' || c == '\n' || c == '\U{B}' || c == '\U{C}' || c == '\r'
  }

  /** The regex class `\d`: the ASCII digits. */
  predicate IsDigit(c: char)
  {
    '0' <= c <= '9'
  }

  /** The regex class `[A-Za-z_]`. */
  predicate IsIdentStart(c: char)
  {
    'A' <= c <= 'Z' || 'a' <= c <= 'z' || c == '_'
  }

  /** The regex class `[A-Za-z_0-9]`. */
  predicate IsIdentPart(c: char)
  {
    IsIdentStart(c) || IsDigit(c)
  }

  predicate AllDigits(s: string)
  {
    forall i :: 0 <= i < |s| ==> IsDigit(s[i])
  }

  // ------------------------------------------------------------ trim

  /** s without its leading run of trimmed characters. */
  function TrimStart(s: string): (r: string)
    ensures |r| <= |s| && r == s[|s| - |r|..]
    ensures |r| > 0 ==> !IsTrimmed(r[0])
    ensures forall i :: 0 <= i < |s| - |r| ==> IsTrimmed(s[i])
  {
    if |s| > 0 && IsTrimmed(s[0]) then
      var r := TrimStart(s[1..]);
      assert s[1..][|s| - 1 - |r|..] == s[|s| - |r|..];
      r
    else s
  }

  /** s without its trailing run of trimmed characters. */
  function TrimEnd(s: string): (r: string)
    ensures |r| <= |s| && r == s[..|r|]
    ensures |r| > 0 ==> !IsTrimmed(r[|r| - 1])
    ensures forall i :: |r| <= i < |s| ==> IsTrimmed(s[i])
  {
    if |s| > 0 && IsTrimmed(s[|s| - 1]) then
      var r := TrimEnd(s[..|s| - 1]);
      assert s[..|s| - 1][..|r|] == s[..|r|];
      r
    else s
  }

  /**
   * `String.trim()`: the text between the leading and the trailing run of
   * characters up to U+0020. It is empty exactly when every character is one
   * of those, and otherwise starts and ends with a character above U+0020.
   */
  function Trim(s: string): (r: string)
    ensures |r| == 0 <==> forall i :: 0 <= i < |s| ==> IsTrimmed(s[i])
    ensures |r| > 0 ==> !IsTrimmed(r[0]) && !IsTrimmed(r[|r| - 1])
  {
    var t := TrimStart(s);
    assert forall i :: |s| - |t| <= i < |s| ==> s[i] == t[i - (|s| - |t|)];
    TrimEnd(t)
  }

  predicate AllTrimmed(s: string)
  {
    forall i :: 0 <= i < |s| ==> IsTrimmed(s[i])
  }

  /** Text that already starts and ends with a visible character is its own trim. */
  lemma TrimUntouched(s: string)
    requires |s| == 0 || (!IsTrimmed(s[0]) && !IsTrimmed(s[|s| - 1]))
    ensures Trim(s) == s
  {
  }

  lemma {:induction false} TrimStartPadded(a: string, s: string)
    requires AllTrimmed(a)
    ensures TrimStart(a + s) == TrimStart(s)
    decreases |a|
  {
    if |a| > 0 {
      assert (a + s)[1..] == a[1..] + s;
      TrimStartPadded(a[1..], s);
    } else {
      assert a + s == s;
    }
  }

  lemma {:induction false} TrimEndPadded(s: string, b: string)
    requires AllTrimmed(b)
    ensures TrimEnd(s + b) == TrimEnd(s)
    decreases |b|
  {
    if |b| > 0 {
      assert (s + b)[..|s + b| - 1] == s + b[..|b| - 1];
      TrimEndPadded(s, b[..|b| - 1]);
    } else {
      assert s + b == s;
    }
  }

  lemma {:induction false} TrimStartAppend(s: string, b: string)
    requires |TrimStart(s)| > 0
    ensures TrimStart(s + b) == TrimStart(s) + b
    decreases |s|
  {
    if IsTrimmed(s[0]) {
      assert (s + b)[1..] == s[1..] + b;
      TrimStartAppend(s[1..], b);
    }
  }

  /** Padding on either side with characters up to U+0020 does not change the trim. */
  lemma TrimPadded(a: string, s: string, b: string)
    requires AllTrimmed(a) && AllTrimmed(b)
    ensures Trim(a + s + b) == Trim(s)
  {
    assert a + s + b == a + (s + b);
    TrimStartPadded(a, s + b);
    if |TrimStart(s)| > 0 {
      TrimStartAppend(s, b);
      TrimEndPadded(TrimStart(s), b);
    } else {
      assert AllTrimmed(s + b);
      assert |TrimStart(s + b)| == 0;
    }
  }

  /** Trimming twice is trimming once. */
  lemma TrimIdempotent(s: string)
    ensures Trim(Trim(s)) == Trim(s)
  {
    TrimUntouched(Trim(s));
  }

  // ------------------------------------------------------------ prefixes and searches

  /** `startsWith`. */
  predicate StartsWith(s: string, p: string)
  {
    |p| <= |s| && s[..|p|] == p
  }

  /** `endsWith`. */
  predicate EndsWith(s: string, p: string)
  {
    |p| <= |s| && s[|s| - |p|..] == p
  }

  /** `indexOf(char)`: the first position holding c, or -1 when there is none. */
  function IndexOf(s: string, c: char): (r: int)
    ensures -1 <= r < |s|
    ensures r < 0 ==> forall i :: 0 <= i < |s| ==> s[i] != c
    ensures r >= 0 ==> s[r] == c && forall i :: 0 <= i < r ==> s[i] != c
  {
    if |s| == 0 then -1
    else if s[0] == c then 0
    else
      var k := IndexOf(s[1..], c);
      if k < 0 then -1 else k + 1
  }

  /** The first position of c is the one the contract singles out. */
  lemma IndexOfAt(s: string, c: char, k: int)
    requires 0 <= k < |s| && s[k] == c
    requires forall i :: 0 <= i < k ==> s[i] != c
    ensures IndexOf(s, c) == k
  {
  }

  /** p occurs in s at position j. */
  predicate OccursAt(s: string, p: string, j: int)
  {
    0 <= j && j + |p| <= |s| && s[j..j + |p|] == p
  }

  /** The first occurrence of p in s at or after k, or -1. */
  function FindFrom(s: string, p: string, k: nat): (r: int)
    requires k <= |s|
    ensures r == -1 || (k <= r && OccursAt(s, p, r))
    ensures forall j :: k <= j && (r < 0 || j < r) ==> !OccursAt(s, p, j)
    decreases |s| - k
  {
    if k + |p| > |s| then -1
    else if s[k..k + |p|] == p then k
    else FindFrom(s, p, k + 1)
  }

  /** `indexOf(String)`: the first position where p occurs, or -1. */
  function IndexOfSub(s: string, p: string): (r: int)
    ensures r == -1 || OccursAt(s, p, r)
    ensures forall j :: 0 <= j && (r < 0 || j < r) ==> !OccursAt(s, p, j)
  {
    FindFrom(s, p, 0)
  }

  /** A separator whose first character is absent from s does not occur in it. */
  lemma SubAbsent(s: string, p: string)
    requires |p| > 0 && forall i :: 0 <= i < |s| ==> s[i] != p[0]
    ensures IndexOfSub(s, p) == -1
  {
    forall j | 0 <= j && j + |p| <= |s|
      ensures !OccursAt(s, p, j)
    {
      assert s[j..j + |p|][0] == s[j];
    }
  }

  /** In a + p + b with p's first character absent from a, the first occurrence is right after a. */
  lemma SubAfter(a: string, p: string, b: string)
    requires |p| > 0 && forall i :: 0 <= i < |a| ==> a[i] != p[0]
    ensures IndexOfSub(a + p + b, p) == |a|
  {
    var s := a + p + b;
    assert s[|a|..|a| + |p|] == p;
    assert OccursAt(s, p, |a|);
    forall j | 0 <= j < |a|
      ensures !OccursAt(s, p, j)
    {
      assert s[j..j + |p|][0] == s[j] == a[j];
    }
  }

  // ------------------------------------------------------------ split

  /** ts with sep between consecutive elements. */
  function JoinWith(ts: seq<string>, sep: string): (r: string)
  {
    if |ts| == 0 then ""
    else if |ts| == 1 then ts[0]
    else ts[0] + sep + JoinWith(ts[1..], sep)
  }

  /** The pieces between the successive leftmost occurrences of p; joining them back with p gives s. */
  function Pieces(s: string, p: string): (r: seq<string>)
    requires |p| > 0
    ensures |r| > 0 && JoinWith(r, p) == s
    decreases |s|
  {
    var k := IndexOfSub(s, p);
    if k < 0 then [s]
    else
      var rest := Pieces(s[k + |p|..], p);
      assert s == s[..k] + p + s[k + |p|..] by {
        assert s[k..k + |p|] == p;
      }
      [s[..k]] + rest
  }

  /** ps without its trailing empty strings. */
  function DropTrailingEmpty(ps: seq<string>): (r: seq<string>)
    ensures |r| <= |ps| && r == ps[..|r|]
    ensures |r| == 0 || r[|r| - 1] != ""
    ensures forall i :: |r| <= i < |ps| ==> ps[i] == ""
  {
    if |ps| > 0 && ps[|ps| - 1] == "" then DropTrailingEmpty(ps[..|ps| - 1]) else ps
  }

  /**
   * `split(p)` for a literal separator: a single piece when p does not occur
   * (so "" splits into [""]), otherwise the pieces without the trailing empty ones.
   */
  function Split(s: string, p: string): (r: seq<string>)
    requires |p| > 0
    ensures IndexOfSub(s, p) < 0 ==> |r| == 1
    ensures forall i :: 0 <= i < |r| ==> |r[i]| <= |s|
  {
    var k := IndexOfSub(s, p);
    if k < 0 then [s]
    else
      var ps := Pieces(s, p);
      PiecesShorter(s, p);
      DropTrailingEmpty(ps)
  }

  lemma {:induction false} PiecesShorter(s: string, p: string)
    requires |p| > 0
    ensures forall i :: 0 <= i < |Pieces(s, p)| ==> |Pieces(s, p)[i]| <= |s|
    decreases |s|
  {
    var k := IndexOfSub(s, p);
    if k >= 0 {
      PiecesShorter(s[k + |p|..], p);
    }
  }

  /** Dropping trailing empty strings twice drops them once. */
  lemma DropTrailingEmptyTwice(ps: seq<string>)
    ensures DropTrailingEmpty(DropTrailingEmpty(ps)) == DropTrailingEmpty(ps)
  {
  }

  /** One more empty string at the end is dropped with the others. */
  lemma DropTrailingEmptySnoc(ps: seq<string>)
    ensures DropTrailingEmpty(ps + [""]) == DropTrailingEmpty(ps)
  {
    assert (ps + [""])[..|ps|] == ps;
  }

  /** No character of ts is p's first character. */
  predicate FreeOf(ts: seq<string>, c: char)
  {
    forall k, i :: 0 <= k < |ts| && 0 <= i < |ts[k]| ==> ts[k][i] != c
  }

  /** Joining pieces free of the separator's first character and splitting again gives them back. */
  lemma {:induction false} PiecesOfJoin(ts: seq<string>, p: string)
    requires |ts| > 0 && |p| > 0 && FreeOf(ts, p[0])
    ensures Pieces(JoinWith(ts, p), p) == ts
    decreases |ts|
  {
    var s := JoinWith(ts, p);
    if |ts| == 1 {
      SubAbsent(ts[0], p);
    } else {
      var rest := JoinWith(ts[1..], p);
      SubAfter(ts[0], p, rest);
      assert s[|ts[0]| + |p|..] == rest;
      assert s[..|ts[0]|] == ts[0];
      PiecesOfJoin(ts[1..], p);
    }
  }

  /** `split` undoes a join whose last piece is non-empty. */
  lemma SplitOfJoin(ts: seq<string>, p: string)
    requires |ts| > 0 && |p| > 0 && FreeOf(ts, p[0])
    requires |ts| == 1 || ts[|ts| - 1] != ""
    ensures Split(JoinWith(ts, p), p) == ts
  {
    PiecesOfJoin(ts, p);
    if |ts| == 1 {
      SubAbsent(ts[0], p);
    } else {
      SubAfter(ts[0], p, JoinWith(ts[1..], p));
    }
  }

  // ------------------------------------------------------------ lines

  /** A line without the carriage return that precedes its newline. */
  function DropCr(s: string): (r: string)
    ensures r == s || (r + "\r" == s)
  {
    if |s| > 0 && s[|s| - 1] == '\r' then s[..|s| - 1] else s
  }

  /** The raw pieces of `split("\r?\n")`: cut at each newline, with a carriage return just before it removed. */
  function LinePieces(s: string): (r: seq<string>)
    ensures |r| > 0
    decreases |s|
  {
    var k := IndexOf(s, '\n');
    if k < 0 then [s] else [DropCr(s[..k])] + LinePieces(s[k + 1..])
  }

  /** `split("\r?\n")`: one piece when there is no newline, otherwise the pieces without the trailing empty ones. */
  function LineSplit(s: string): (r: seq<string>)
    ensures IndexOf(s, '\n') < 0 ==> r == [s]
  {
    if IndexOf(s, '\n') < 0 then [s] else DropTrailingEmpty(LinePieces(s))
  }

  /** Each line followed by a newline. */
  function Terminated(ls: seq<string>): string
  {
    if |ls| == 0 then "" else ls[0] + "\n" + Terminated(ls[1..])
  }

  lemma {:induction false} TerminatedAppend(a: seq<string>, b: seq<string>)
    ensures Terminated(a + b) == Terminated(a) + Terminated(b)
    decreases |a|
  {
    if |a| == 0 {
      assert a + b == b;
    } else {
      assert (a + b)[1..] == a[1..] + b;
      TerminatedAppend(a[1..], b);
    }
  }

  /** Regrouping a concatenation of four strings. */
  lemma Regroup(a: string, b: string, c: string, d: string)
    ensures a + b + c + d == a + (b + c + d)
  {
  }

  lemma TerminatedSnoc(ls: seq<string>, l: string)
    ensures Terminated(ls + [l]) == Terminated(ls) + l + "\n"
  {
    TerminatedAppend(ls, [l]);
    assert [l][1..] == [];
  }

  /** Newline-terminated lines are the lines and an empty last piece joined with newlines. */
  lemma {:induction false} TerminatedIsJoin(ls: seq<string>)
    ensures Terminated(ls) == JoinWith(ls + [""], "\n")
    decreases |ls|
  {
    if |ls| > 0 {
      assert (ls + [""])[1..] == ls[1..] + [""];
      TerminatedIsJoin(ls[1..]);
      if |ls| == 1 {
        assert ls[1..] + [""] == [""];
      }
    }
  }

  /** Lines free of newlines and carriage returns come back from `split("\r?\n")` of their join. */
  lemma FreeOfTail(ts: seq<string>, c: char)
    requires |ts| > 0 && FreeOf(ts, c)
    ensures FreeOf(ts[1..], c)
  {
    forall k, i | 0 <= k < |ts| - 1 && 0 <= i < |ts[1..][k]|
      ensures ts[1..][k][i] != c
    {
      assert ts[1..][k] == ts[k + 1];
    }
  }

  lemma {:induction false} LinePiecesOfJoin(ts: seq<string>)
    requires |ts| > 0 && FreeOf(ts, '\n') && FreeOf(ts, '\r')
    ensures LinePieces(JoinWith(ts, "\n")) == ts
    decreases |ts|
  {
    var s := JoinWith(ts, "\n");
    if |ts| == 1 {
      assert IndexOf(s, '\n') < 0;
    } else {
      var rest := JoinWith(ts[1..], "\n");
      FreeOfTail(ts, '\n');
      FreeOfTail(ts, '\r');
      LinePiecesOfJoin(ts[1..]);
      assert s == ts[0] + "\n" + rest;
      IndexOfAt(s, '\n', |ts[0]|);
      assert s[..|ts[0]|] == ts[0];
      assert s[|ts[0]| + 1..] == rest;
      assert DropCr(ts[0]) == ts[0] by {
        if |ts[0]| > 0 {
          assert ts[0][|ts[0]| - 1] != '\r';
        }
      }
      assert [ts[0]] + ts[1..] == ts;
    }
  }

  /** Splitting newline-terminated lines gives them back without the trailing empty ones. */
  lemma LineSplitOfTerminated(ls: seq<string>)
    requires FreeOf(ls, '\n') && FreeOf(ls, '\r')
    ensures LineSplit(Terminated(ls)) == (if |ls| == 0 then [""] else DropTrailingEmpty(ls))
  {
    if |ls| > 0 {
      TerminatedIsJoin(ls);
      var ts := ls + [""];
      assert FreeOf(ts, '\n') && FreeOf(ts, '\r') by {
        forall k, i | 0 <= k < |ts| && 0 <= i < |ts[k]|
          ensures ts[k][i] != '\n' && ts[k][i] != '\r'
        {
          assert ts[k] == ls[k];
        }
      }
      LinePiecesOfJoin(ts);
      IndexOfAt(Terminated(ls), '\n', |ls[0]|);
      DropTrailingEmptySnoc(ls);
    }
  }

  /** `split("\n")` of newline-terminated lines whose last line is not empty gives the lines back. */
  lemma SplitOfTerminated(ls: seq<string>)
    requires |ls| > 0 && ls[|ls| - 1] != "" && FreeOf(ls, '\n')
    ensures Split(Terminated(ls), "\n") == ls
  {
    TerminatedIsJoin(ls);
    var ts := ls + [""];
    assert FreeOf(ts, "\n"[0]) by {
      forall k, i | 0 <= k < |ts| && 0 <= i < |ts[k]|
        ensures ts[k][i] != '\n'
      {
        assert ts[k] == ls[k];
      }
    }
    PiecesOfJoin(ts, "\n");
    SubAfter(ts[0], "\n", JoinWith(ts[1..], "\n"));
    DropTrailingEmptySnoc(ls);
  }

  // ------------------------------------------------------------ integers

  /** The range of a Java `int`. */
  const IntMin: int := -0x8000_0000
  const IntMax: int := 0x7fff_ffff

  function DigitValue(c: char): int
  {
    c as int - '0' as int
  }

  function Digit(d: int): (r: char)
    requires 0 <= d < 10
    ensures IsDigit(r) && DigitValue(r) == d
  {
    ('0' as int + d) as char
  }

  /** The value of a string of decimal digits, most significant first. */
  function DigitsValue(s: string): (r: int)
    requires AllDigits(s)
    ensures r >= 0
  {
    if |s| == 0 then 0 else DigitsValue(s[..|s| - 1]) * 10 + DigitValue(s[|s| - 1])
  }

  /** The decimal digits of n, without leading zeros; their value is n. */
  function NatToString(n: nat): (r: string)
    ensures |r| > 0 && AllDigits(r) && DigitsValue(r) == n
    ensures r[0] != '0' || n == 0
  {
    if n < 10 then [Digit(n)]
    else
      var p := NatToString(n / 10);
      var r := p + [Digit(n % 10)];
      assert r[..|r| - 1] == p;
      r
  }

  /** `Integer.toString`: a minus sign before the digits of a negative value. */
  function IntToString(n: int): (r: string)
    ensures |r| > 0
    ensures n >= 0 ==> AllDigits(r)
    ensures n < 0 ==> r[0] == '-' && AllDigits(r[1..])
  {
    if n < 0 then "-" + NatToString(-n) else NatToString(n)
  }

  /** An optional sign and at least one ASCII digit. */
  predicate Numeral(s: string)
  {
    |s| > 0 &&
    var ds := if s[0] == '-' || s[0] == '+' then s[1..] else s;
    |ds| > 0 && AllDigits(ds)
  }

  /** The value a numeral denotes: its digits' value, negated after a '-'. */
  function NumeralValue(s: string): int
    requires Numeral(s)
  {
    if s[0] == '-' then -DigitsValue(s[1..])
    else if s[0] == '+' then DigitsValue(s[1..])
    else DigitsValue(s)
  }

  /**
   * `Integer.parseInt` on ASCII text: an optional sign, at least one digit,
   * and a value that fits an `int`; anything else is a NumberFormatException.
   */
  function ParseInt(s: string): (r: Option<int>)
    ensures r.Some? ==> Numeral(s) && IntMin <= r.value <= IntMax
    ensures r.Some? && AllDigits(s) ==> r.value == DigitsValue(s)
  {
    if |s| == 0 then None
    else
      var signed := s[0] == '-' || s[0] == '+';
      var ds := if signed then s[1..] else s;
      if |ds| == 0 || !AllDigits(ds) then None
      else
        var v := if s[0] == '-' then -DigitsValue(ds) else DigitsValue(ds);
        if IntMin <= v <= IntMax then Some(v) else None
  }

  /** `Integer.parseInt` accepts exactly the numerals whose value fits an `int`, and returns that value. */
  lemma ParseIntExactly(s: string)
    ensures ParseInt(s).Some? <==> Numeral(s) && IntMin <= NumeralValue(s) <= IntMax
    ensures ParseInt(s).Some? ==> ParseInt(s).value == NumeralValue(s)
  {
  }

  /** `Integer.parseInt` reads back what `Integer.toString` writes. */
  lemma ParseIntOfString(n: int)
    requires IntMin <= n <= IntMax
    ensures ParseInt(IntToString(n)) == Some(n)
  {
    var s := IntToString(n);
    if n < 0 {
      assert s[1..] == NatToString(-n);
    } else {
      assert s[0] != '-' && s[0] != '+';
    }
  }

  /** Text without digits, or with a character other than a sign before them, is rejected. */
  lemma ParseIntRejectsNonNumerals(s: string)
    requires !Numeral(s)
    ensures ParseInt(s) == None
  {
  }

  // ------------------------------------------------------------ scanning

  /** s without its leading run of characters satisfying p. */
  function Skip(s: string, p: char -> bool): (r: string)
    ensures |r| <= |s| && r == s[|s| - |r|..]
    ensures |r| > 0 ==> !p(r[0])
  {
    if |s| > 0 && p(s[0]) then Skip(s[1..], p) else s
  }

  /** A run of p-characters followed by a character outside p is skipped exactly. */
  lemma {:induction false} SkipRun(a: string, b: string, p: char -> bool)
    requires forall i :: 0 <= i < |a| ==> p(a[i])
    requires |b| == 0 || !p(b[0])
    ensures Skip(a + b, p) == b
    decreases |a|
  {
    if |a| == 0 {
      assert a + b == b;
    } else {
      assert (a + b)[1..] == a[1..] + b;
      SkipRun(a[1..], b, p);
    }
  }
}
