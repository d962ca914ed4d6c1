/**
 * GateCommutationPass: each gate is appended and then bubbled left, one
 * swap at a time, while the instruction before it is a gate it may move
 * across; measurements are appended and never crossed. The direction test
 * lets a single-qubit gate (H, X, Y, Z, S, T, RX, RY, RZ) pass a
 * single-qubit gate on a lower-numbered qubit, an RZ on a CX's control pass
 * that CX, and an RX on a CX's target pass that CX.
 */
module GateCommutation {
  import opened Gates
  import opened Circuits

  /** `isSingle`: the StandardGates single-qubit classes the rules know, not U1/U2/U3. */
  predicate IsSingle(g: Gate)
  {
    g.H? || g.X? || g.Y? || g.Z? || g.S? || g.T? || g.RX? || g.RY? || g.RZ?
  }

  /** Every single-qubit gate has its qubit and every CX its two: enough for the pass never to throw. */
  predicate Fits(i: Instruction)
  {
    i.GateOp? ==> (IsSingle(i.gate) ==> |i.qubits| >= 1) && (i.gate == CNOT ==> |i.qubits| >= 2)
  }

  predicate Ready(s: seq<Instruction>)
  {
    forall k :: 0 <= k < |s| ==> Fits(s[k])
  }

  /**
   * `commutes(current, prev)` throws: in the branch it takes it reads q[0]
   * of both single-qubit gates, q[0] of the CX and of the RZ, or q[1] of
   * the CX and q[0] of the RX, and one of those arrays is too short.
   */
  predicate Throws(cur: Instruction, prev: Instruction)
  {
    cur.GateOp? && prev.GateOp? &&
    if IsSingle(cur.gate) && IsSingle(prev.gate) then |cur.qubits| == 0 || |prev.qubits| == 0
    else if cur.gate.RZ? && prev.gate == CNOT then |prev.qubits| == 0 || |cur.qubits| == 0
    else if cur.gate.RX? && prev.gate == CNOT then |prev.qubits| < 2 || |cur.qubits| == 0
    else false
  }

  /**
   * `commutes(current, prev)`: may current move left across prev? Only the
   * indices named in Throws are read; where Java throws the value here is
   * false, and the pass reports that case through Fails.
   */
  predicate Commutes(cur: Instruction, prev: Instruction)
  {
    if !cur.GateOp? || !prev.GateOp? then false
    else if IsSingle(cur.gate) && IsSingle(prev.gate) then
      |cur.qubits| > 0 && |prev.qubits| > 0 && cur.qubits[0] != prev.qubits[0] && cur.qubits[0] > prev.qubits[0]
    else if cur.gate.RZ? && prev.gate == CNOT then
      |prev.qubits| > 0 && |cur.qubits| > 0 && cur.qubits[0] == prev.qubits[0]
    else if cur.gate.RX? && prev.gate == CNOT then
      |prev.qubits| > 1 && |cur.qubits| > 0 && cur.qubits[0] == prev.qubits[1]
    else false
  }

  /** The list after appending e and bubbling it left. */
  function Insert(out: seq<Instruction>, e: Instruction): (r: seq<Instruction>)
    ensures |r| == |out| + 1
    ensures r[|r| - 1] == e || (|out| > 0 && r[|r| - 1] == out[|out| - 1])
    decreases |out|
  {
    if |out| == 0 then [e]
    else
      var last := out[|out| - 1];
      if !IsMeasure(last) && Commutes(e, last) then Insert(out[..|out| - 1], e) + [last]
      else out + [e]
  }

  /** The pass output: each instruction of the input processed in order. */
  function Commute(s: seq<Instruction>): (r: seq<Instruction>)
    ensures |r| == |s|
  {
    if |s| == 0 then []
    else
      var p := Commute(s[..|s| - 1]);
      var current := Copy(s[|s| - 1]);
      if IsMeasure(current) then p + [current] else Insert(p, current)
  }

  /** Bubbling e into out throws: a `commutes` test on its way left throws. */
  predicate InsertFails(out: seq<Instruction>, e: Instruction)
    decreases |out|
  {
    |out| > 0 && !IsMeasure(out[|out| - 1])
    && (Throws(e, out[|out| - 1]) || (Commutes(e, out[|out| - 1]) && InsertFails(out[..|out| - 1], e)))
  }

  /** The pass throws on s. */
  predicate Fails(s: seq<Instruction>)
  {
    |s| > 0 && (Fails(s[..|s| - 1]) || (!IsMeasure(s[|s| - 1]) && InsertFails(Commute(s[..|s| - 1]), Copy(s[|s| - 1]))))
  }

  /** A run that does not throw does not throw on any prefix either. */
  lemma {:induction false} FailsPrefix(s: seq<Instruction>, k: int)
    requires !Fails(s) && 0 <= k <= |s|
    ensures !Fails(s[..k])
    decreases |s|
  {
    if k < |s| {
      assert s[..|s| - 1][..k] == s[..k];
      FailsPrefix(s[..|s| - 1], k);
    } else {
      assert s[..k] == s;
    }
  }

  /** On a ready list no `commutes` test throws, so the pass never does. */
  lemma {:induction false} ReadyCompletes(s: seq<Instruction>)
    requires Ready(s)
    ensures !Fails(s)
  {
    if |s| > 0 {
      var p := s[..|s| - 1];
      assert Ready(p) by {
        forall k | 0 <= k < |p|
          ensures Fits(p[k])
        {
          assert p[k] == s[k];
        }
      }
      ReadyCompletes(p);
      CommuteReady(p);
      InsertReady(Commute(p), Copy(s[|s| - 1]));
    }
  }

  lemma {:induction false} InsertReady(out: seq<Instruction>, e: Instruction)
    requires Ready(out) && Fits(e)
    ensures !InsertFails(out, e)
    decreases |out|
  {
    if |out| > 0 {
      var p := out[..|out| - 1];
      assert Ready(p) by {
        forall k | 0 <= k < |p|
          ensures Fits(p[k])
        {
          assert p[k] == out[k];
        }
      }
      InsertReady(p, e);
    }
  }

  /** The output's instructions are the input's, so a ready input gives a ready output. */
  lemma CommuteReady(s: seq<Instruction>)
    requires Ready(s)
    ensures Ready(Commute(s))
  {
    CommutePermutes(s);
    forall k | 0 <= k < |Commute(s)|
      ensures Fits(Commute(s)[k])
    {
      assert Commute(s)[k] in multiset(Commute(s));
      assert Commute(s)[k] in multiset(s);
    }
  }

  /** The bubble loop: e, just appended to base, moves left while it may cross the gate before it. */
  method BubbleLeft(base: seq<Instruction>, e: Instruction) returns (out: seq<Instruction>)
    requires !InsertFails(base, e)
    ensures out == Insert(base, e)
  {
    out := base + [e];
    var pos := |out| - 1;
    assert base[..pos] == base && base[pos..] == [];
    while pos > 0
      invariant 0 <= pos <= |base|
      invariant out == base[..pos] + [e] + base[pos..]
      invariant Insert(base, e) == Insert(base[..pos], e) + base[pos..]
      invariant !InsertFails(base[..pos], e)
    {
      var prev := out[pos - 1];
      var cur := out[pos];
      assert prev == base[pos - 1] && cur == e;
      if prev.MeasureOp? {
        InsertStops(base, pos, e);
        break;
      }
      if Commutes(cur, prev) {
        assert base[..pos][..pos - 1] == base[..pos - 1];
        SwapLeft(base, e, pos, out);
        BubbleStep(base, e, pos);
        out := out[pos - 1 := cur][pos := prev];
      } else {
        InsertStops(base, pos, e);
        break;
      }
      pos := pos - 1;
    }
    if pos == 0 {
      assert base[..0] == [] && Insert([], e) == [e];
    }
  }

  /** One swap of the bubble loop keeps the Insert invariant, one position further left. */
  lemma BubbleStep(base: seq<Instruction>, e: Instruction, pos: int)
    requires 0 < pos <= |base|
    requires !IsMeasure(base[pos - 1]) && Commutes(e, base[pos - 1])
    requires Insert(base, e) == Insert(base[..pos], e) + base[pos..]
    ensures Insert(base, e) == Insert(base[..pos - 1], e) + base[pos - 1..]
  {
    InsertMoves(base, pos, e);
    Regroup(Insert(base, e), Insert(base[..pos], e), Insert(base[..pos - 1], e), base[pos - 1], base[pos..]);
    assert base[pos - 1..] == [base[pos - 1]] + base[pos..];
  }

  lemma Regroup(whole: seq<Instruction>, front: seq<Instruction>, moved: seq<Instruction>, b: Instruction, rest: seq<Instruction>)
    requires whole == front + rest && front == moved + [b]
    ensures whole == moved + ([b] + rest)
  {
  }

  lemma SwapLeft(base: seq<Instruction>, e: Instruction, pos: int, out: seq<Instruction>)
    requires 0 < pos <= |base| && out == base[..pos] + [e] + base[pos..]
    ensures out[pos - 1 := e][pos := base[pos - 1]] == base[..pos - 1] + [e] + base[pos - 1..]
  {
    var l := out[pos - 1 := e][pos := base[pos - 1]];
    var r := base[..pos - 1] + [e] + base[pos - 1..];
    assert |l| == |r|;
    forall i | 0 <= i < |l|
      ensures l[i] == r[i]
    {
      if i < pos - 1 {
        assert l[i] == out[i] == base[i];
      } else if i > pos {
        assert l[i] == out[i] == base[i - 1];
      }
    }
  }

  lemma InsertMoves(base: seq<Instruction>, pos: int, e: Instruction)
    requires 0 < pos <= |base|
    requires !IsMeasure(base[pos - 1]) && Commutes(e, base[pos - 1])
    ensures Insert(base[..pos], e) == Insert(base[..pos - 1], e) + [base[pos - 1]]
  {
    assert base[..pos][..pos - 1] == base[..pos - 1];
  }

  lemma InsertStops(base: seq<Instruction>, pos: int, e: Instruction)
    requires 0 < pos <= |base|
    requires IsMeasure(base[pos - 1]) || !Commutes(e, base[pos - 1])
    ensures Insert(base[..pos], e) == base[..pos] + [e]
  {
  }

  method Apply(c: Circuit) returns (r: Circuit)
    requires !Fails(c.instructions)
    ensures r == Circuit(c.numQubits, Commute(c.instructions))
  {
    var original := c.instructions;
    var out: seq<Instruction> := [];
    for k := 0 to |original|
      invariant out == Commute(original[..k])
    {
      assert original[..k + 1][..k] == original[..k];
      FailsPrefix(original, k + 1);
      var current := Copy(original[k]);
      if current.MeasureOp? {
        out := out + [current];
        continue;
      }
      out := BubbleLeft(out, current);
    }
    assert original[..|original|] == original;
    var result: seq<Instruction> := [];
    for k := 0 to |out|
      invariant result == out[..k]
    {
      result := result + [out[k]];
    }
    assert out[..|out|] == out;
    r := Circuit(c.numQubits, result);
  }

  // ---------------------------------------------------------------- properties

  /** The direction test is asymmetric: of two gates at most one may cross the other. */
  lemma CommutesAsymmetric(a: Instruction, b: Instruction)
    requires Commutes(a, b)
    ensures !Commutes(b, a)
  {
  }

  /**
   * Where e lands: InsertAt puts it after out[..p], in front of the
   * instructions it crossed; InsertCrossed says all of those are gates it may
   * cross; InsertBlocked says the instruction before it, if any, is a
   * measurement or a gate it may not cross.
   */
  function InsertPosition(out: seq<Instruction>, e: Instruction): (p: nat)
    ensures p <= |out|
    decreases |out|
  {
    if |out| == 0 then 0
    else if !IsMeasure(out[|out| - 1]) && Commutes(e, out[|out| - 1]) then InsertPosition(out[..|out| - 1], e)
    else |out|
  }

  lemma {:induction false} InsertAt(out: seq<Instruction>, e: Instruction)
    ensures var p := InsertPosition(out, e); Insert(out, e) == out[..p] + [e] + out[p..]
    decreases |out|
  {
    var n := |out|;
    if n > 0 && !IsMeasure(out[n - 1]) && Commutes(e, out[n - 1]) {
      var p := InsertPosition(out[..n - 1], e);
      InsertAt(out[..n - 1], e);
      assert out[..n - 1][..p] == out[..p];
      assert out[p..] == out[..n - 1][p..] + [out[n - 1]];
    } else {
      assert out[n..] == [] && out[..n] == out;
    }
  }

  lemma {:induction false} InsertCrossed(out: seq<Instruction>, e: Instruction)
    ensures forall j :: InsertPosition(out, e) <= j < |out| ==> !IsMeasure(out[j]) && Commutes(e, out[j])
    decreases |out|
  {
    var n := |out|;
    if n > 0 && !IsMeasure(out[n - 1]) && Commutes(e, out[n - 1]) {
      InsertCrossed(out[..n - 1], e);
      forall j | InsertPosition(out, e) <= j < n
        ensures !IsMeasure(out[j]) && Commutes(e, out[j])
      {
        if j < n - 1 {
          assert out[j] == out[..n - 1][j];
        }
      }
    }
  }

  lemma {:induction false} InsertBlocked(out: seq<Instruction>, e: Instruction)
    ensures var p := InsertPosition(out, e); p == 0 || IsMeasure(out[p - 1]) || !Commutes(e, out[p - 1])
    decreases |out|
  {
    var n := |out|;
    if n > 0 && !IsMeasure(out[n - 1]) && Commutes(e, out[n - 1]) {
      InsertBlocked(out[..n - 1], e);
      var p := InsertPosition(out, e);
      if p > 0 {
        assert out[p - 1] == out[..n - 1][p - 1];
      }
    }
  }

  /** Inserting adds e and keeps everything else: a permutation step. */
  lemma {:induction false} InsertPermutes(out: seq<Instruction>, e: Instruction)
    ensures multiset(Insert(out, e)) == multiset(out) + multiset{e}
    decreases |out|
  {
    if |out| > 0 {
      var n := |out|;
      var last := out[n - 1];
      var p := out[..n - 1];
      assert out == p + [last];
      if !IsMeasure(last) && Commutes(e, last) {
        InsertPermutes(p, e);
        assert Insert(out, e) == Insert(p, e) + [last];
      }
    }
  }

  /** The output is a permutation of the input. */
  lemma {:induction false} CommutePermutes(s: seq<Instruction>)
    ensures multiset(Commute(s)) == multiset(s)
  {
    if |s| > 0 {
      var p := s[..|s| - 1];
      var i := s[|s| - 1];
      assert s == p + [i];
      CommuteSnoc(p, i);
      CommutePermutes(p);
      if !IsMeasure(i) {
        InsertPermutes(Commute(p), i);
      }
    }
  }

  /** No instruction of the list may move left across its neighbour. */
  predicate Settled(s: seq<Instruction>)
  {
    forall k :: 0 <= k < |s| - 1 ==> !Commutes(s[k + 1], s[k])
  }

  lemma {:induction false} InsertSettled(out: seq<Instruction>, e: Instruction)
    requires Settled(out)
    ensures Settled(Insert(out, e))
    decreases |out|
  {
    if |out| > 0 {
      var n := |out|;
      var last := out[n - 1];
      var p := out[..n - 1];
      if !IsMeasure(last) && Commutes(e, last) {
        assert Settled(p);
        InsertSettled(p, e);
        var q := Insert(p, e);
        var r := q + [last];
        assert r == Insert(out, e);
        if q[n - 1] == e {
          CommutesAsymmetric(e, last);
        } else {
          assert q[n - 1] == out[n - 2];
        }
        forall k | 0 <= k < |r| - 1
          ensures !Commutes(r[k + 1], r[k])
        {
          if k < n - 1 {
            assert r[k] == q[k] && r[k + 1] == q[k + 1];
          }
        }
      } else {
        var r := out + [e];
        assert r == Insert(out, e);
        forall k | 0 <= k < |r| - 1
          ensures !Commutes(r[k + 1], r[k])
        {
          if k < n - 1 {
            assert r[k] == out[k] && r[k + 1] == out[k + 1];
          }
        }
      }
    }
  }

  /** The output is settled: no gate in it could bubble further. */
  lemma {:induction false} CommuteSettled(s: seq<Instruction>)
    ensures Settled(Commute(s))
  {
    if |s| > 0 {
      var p := s[..|s| - 1];
      var i := Copy(s[|s| - 1]);
      CommuteSettled(p);
      var c := Commute(p);
      if IsMeasure(i) {
        var r := c + [i];
        forall k | 0 <= k < |r| - 1
          ensures !Commutes(r[k + 1], r[k])
        {
          if k < |c| - 1 {
            assert r[k] == c[k] && r[k + 1] == c[k + 1];
          }
        }
      } else {
        InsertSettled(c, i);
      }
    }
  }

  /** A settled list passes through unchanged. */
  lemma {:induction false} SettledIdentity(s: seq<Instruction>)
    requires Settled(s)
    ensures Commute(s) == s
  {
    if |s| > 0 {
      var p := s[..|s| - 1];
      var i := s[|s| - 1];
      assert Settled(p);
      SettledIdentity(p);
      assert Copy(i) == i;
      if |p| > 0 {
        assert p[|p| - 1] == s[|s| - 2];
      }
      assert s == p + [i];
    }
  }

  /** Running the pass twice gives what running it once gives. */
  lemma Idempotent(s: seq<Instruction>)
    ensures Commute(Commute(s)) == Commute(s)
  {
    CommuteSettled(s);
    SettledIdentity(Commute(s));
  }

  /**
   * At index k, r keeps s's barrier: r holds a measurement exactly where s
   * does, the same one, with a permutation of s's instructions before it.
   */
  predicate BarrierAt(s: seq<Instruction>, r: seq<Instruction>, k: int)
    requires 0 <= k < |s| == |r|
  {
    (IsMeasure(r[k]) <==> IsMeasure(s[k])) &&
    (IsMeasure(s[k]) ==> r[k] == s[k] && multiset(r[..k]) == multiset(s[..k]))
  }

  predicate KeepsBarriers(s: seq<Instruction>, r: seq<Instruction>)
  {
    |s| == |r| && forall k :: 0 <= k < |s| ==> BarrierAt(s, r, k)
  }

  /** Measurements are barriers: no instruction crosses one, and each stays where it was. */
  lemma {:induction false} CommuteKeepsMeasurements(s: seq<Instruction>)
    ensures KeepsBarriers(s, Commute(s))
  {
    if |s| > 0 {
      var n := |s|;
      var p, i := s[..n - 1], s[n - 1];
      CommuteKeepsMeasurements(p);
      CommutePermutes(p);
      var c := Commute(p);
      assert Copy(i) == i && s == p + [i];
      if IsMeasure(i) {
        MeasureStep(p, c, i);
      } else {
        var q := InsertPosition(c, i);
        InsertAt(c, i);
        InsertCrossed(c, i);
        GateStep(p, c, i, q);
      }
    }
  }

  lemma MeasureStep(p: seq<Instruction>, c: seq<Instruction>, i: Instruction)
    requires KeepsBarriers(p, c) && multiset(c) == multiset(p) && IsMeasure(i)
    ensures KeepsBarriers(p + [i], c + [i])
  {
    var s, r := p + [i], c + [i];
    forall k | 0 <= k < |s|
      ensures BarrierAt(s, r, k)
    {
      if k < |p| {
        assert BarrierAt(p, c, k);
        assert r[k] == c[k] && s[k] == p[k] && r[..k] == c[..k] && s[..k] == p[..k];
      } else {
        assert r[..k] == c && s[..k] == p;
      }
    }
  }

  lemma GateStep(p: seq<Instruction>, c: seq<Instruction>, i: Instruction, q: int)
    requires KeepsBarriers(p, c) && !IsMeasure(i) && 0 <= q <= |c|
    requires forall j :: q <= j < |c| ==> !IsMeasure(c[j])
    ensures KeepsBarriers(p + [i], c[..q] + [i] + c[q..])
  {
    var s, r := p + [i], c[..q] + [i] + c[q..];
    forall k | 0 <= k < |s|
      ensures BarrierAt(s, r, k)
    {
      if k < q {
        assert BarrierAt(p, c, k);
        assert r[k] == c[k] && r[..k] == c[..k] && s[k] == p[k] && s[..k] == p[..k];
      } else {
        assert !IsMeasure(r[k]) by {
          if k > q {
            assert r[k] == c[k - 1];
          }
        }
        if k < |p| {
          assert BarrierAt(p, c, k);
          assert !IsMeasure(c[k]) && s[k] == p[k];
        }
      }
    }
  }

  lemma CommuteSnoc(p: seq<Instruction>, i: Instruction)
    ensures Commute(p + [i]) == if IsMeasure(i) then Commute(p) + [i] else Insert(Commute(p), i)
  {
    assert (p + [i])[..|p|] == p;
    assert Copy(i) == i;
  }

  // ---------------------------------------------------------------- relative order

  /** b may not move in front of the earlier a: one of them is a measurement, or b may not cross a. */
  predicate Blocks(a: Instruction, b: Instruction)
  {
    IsMeasure(a) || IsMeasure(b) || !Commutes(b, a)
  }

  /** Positions at or after q move one place right, to make room at q. */
  function Bump(P: seq<nat>, q: nat): (r: seq<nat>)
    ensures |r| == |P|
  {
    seq(|P|, k requires 0 <= k < |P| => if P[k] < q then P[k] else P[k] + 1)
  }

  /** Where each input instruction ends up in the output of the pass. */
  function Place(s: seq<Instruction>): (P: seq<nat>)
    ensures |P| == |s|
  {
    if |s| == 0 then []
    else
      var p := s[..|s| - 1];
      var e := s[|s| - 1];
      if IsMeasure(e) then Place(p) + [|p|]
      else
        var q := InsertPosition(Commute(p), e);
        Bump(Place(p), q) + [q]
  }

  /** r holds input k at position P[k]. */
  predicate Maps(s: seq<Instruction>, r: seq<Instruction>, P: seq<nat>)
  {
    |P| == |s| == |r| && forall k :: 0 <= k < |s| ==> P[k] < |r| && r[P[k]] == s[k]
  }

  predicate Distinct(P: seq<nat>)
  {
    forall i, j :: 0 <= i < j < |P| ==> P[i] != P[j]
  }

  /** An instruction that blocks a later one is still in front of it. */
  predicate KeepsOrder(s: seq<Instruction>, P: seq<nat>)
    requires |P| == |s|
  {
    forall i, j :: 0 <= i < j < |s| && Blocks(s[i], s[j]) ==> P[i] < P[j]
  }

  /**
   * The pass only reorders: output position Place(s)[k] holds input k, no two
   * inputs share a position, and whenever a later instruction may not cross an
   * earlier one (either is a measurement, or `commutes(later, earlier)` is
   * false) the earlier one stays in front.
   */
  lemma {:induction false} CommuteOrder(s: seq<Instruction>)
    ensures Maps(s, Commute(s), Place(s)) && Distinct(Place(s)) && KeepsOrder(s, Place(s))
  {
    if |s| > 0 {
      var p := s[..|s| - 1];
      var e := s[|s| - 1];
      assert s == p + [e];
      CommuteOrder(p);
      CommuteSnoc(p, e);
      if IsMeasure(e) {
        MeasureOrder(p, Commute(p), Place(p), e);
      } else {
        GateOrder(p, Commute(p), Place(p), e);
      }
    }
  }

  lemma MeasureOrder(p: seq<Instruction>, c: seq<Instruction>, P: seq<nat>, e: Instruction)
    requires Maps(p, c, P) && Distinct(P) && KeepsOrder(p, P)
    ensures Maps(p + [e], c + [e], P + [|p|]) && Distinct(P + [|p|]) && KeepsOrder(p + [e], P + [|p|])
  {
    var s, r, P' := p + [e], c + [e], P + [|p|];
    forall k | 0 <= k < |s|
      ensures P'[k] < |r| && r[P'[k]] == s[k]
    {
      if k < |p| {
        assert P'[k] == P[k] && s[k] == p[k] && r[P[k]] == c[P[k]];
      }
    }
    forall i, j | 0 <= i < j < |P'|
      ensures P'[i] != P'[j] && (Blocks(s[i], s[j]) ==> P'[i] < P'[j])
    {
      if j < |p| {
        assert P'[i] == P[i] && P'[j] == P[j] && s[i] == p[i] && s[j] == p[j];
      } else {
        assert P'[i] == P[i] < |c|;
      }
    }
  }

  /** Bumping at q keeps positions apart and in order, and none lands on q. */
  lemma BumpMonotone(P: seq<nat>, q: nat)
    ensures forall k :: 0 <= k < |P| ==> Bump(P, q)[k] != q
    ensures forall i, j :: 0 <= i < |P| && 0 <= j < |P| && P[i] < P[j] ==> Bump(P, q)[i] < Bump(P, q)[j]
    ensures forall i, j :: 0 <= i < |P| && 0 <= j < |P| && P[i] != P[j] ==> Bump(P, q)[i] != Bump(P, q)[j]
  {
  }

  lemma GateOrder(p: seq<Instruction>, c: seq<Instruction>, P: seq<nat>, e: Instruction)
    requires Maps(p, c, P) && Distinct(P) && KeepsOrder(p, P) && !IsMeasure(e)
    ensures var q := InsertPosition(c, e);
      Maps(p + [e], Insert(c, e), Bump(P, q) + [q]) && Distinct(Bump(P, q) + [q])
      && KeepsOrder(p + [e], Bump(P, q) + [q])
  {
    var q := InsertPosition(c, e);
    InsertAt(c, e);
    InsertCrossed(c, e);
    BumpMonotone(P, q);
    var s, r, B := p + [e], Insert(c, e), Bump(P, q);
    var P' := B + [q];
    assert r == c[..q] + [e] + c[q..];
    forall k | 0 <= k < |s|
      ensures P'[k] < |r| && r[P'[k]] == s[k]
    {
      if k < |p| {
        assert P'[k] == B[k] && s[k] == p[k] && c[P[k]] == p[k];
        if P[k] < q {
          assert r[P[k]] == c[P[k]];
        } else {
          assert r[P[k] + 1] == c[P[k]];
        }
      } else {
        assert r[q] == e;
      }
    }
    forall i, j | 0 <= i < j < |P'|
      ensures P'[i] != P'[j] && (Blocks(s[i], s[j]) ==> P'[i] < P'[j])
    {
      assert P'[i] == B[i] && s[i] == p[i];
      if j < |p| {
        assert P'[j] == B[j] && s[j] == p[j];
      } else {
        assert P'[j] == q && s[j] == e;
        if P[i] >= q {
          assert c[P[i]] == p[i];
          assert !IsMeasure(p[i]) && Commutes(e, p[i]);
        }
      }
    }
  }

  /** RZ on qubit a then RX on a higher qubit b: the RX moves first. */
  lemma SingleQubitGatesReorder(a: int, b: int, t: real, u: real)
    requires a < b
    ensures Commute([GateOp(RZ(t), [a]), GateOp(RX(u), [b])]) == [GateOp(RX(u), [b]), GateOp(RZ(t), [a])]
  {
    var z, x := GateOp(RZ(t), [a]), GateOp(RX(u), [b]);
    CommuteSnoc([], z);
    assert [] + [z] == [z];
    CommuteSnoc([z], x);
    assert [z] + [x] == [z, x];
    assert Commutes(x, z);
    assert [z][..0] == [];
  }

  /** H(q), MEASURE(q, c), RZ(q): nothing crosses the measurement. */
  lemma MeasurementIsBarrier(q: int, c: int, t: real)
    ensures Commute([GateOp(H, [q]), MeasureOp(q, c), GateOp(RZ(t), [q])])
         == [GateOp(H, [q]), MeasureOp(q, c), GateOp(RZ(t), [q])]
  {
    SettledIdentity([GateOp(H, [q]), MeasureOp(q, c), GateOp(RZ(t), [q])]);
  }

  /** An RZ on a CX's control moves in front of the CX. */
  lemma RzOnControlMovesBeforeCX(c: int, t: int, theta: real)
    ensures Commute([GateOp(CNOT, [c, t]), GateOp(RZ(theta), [c])]) == [GateOp(RZ(theta), [c]), GateOp(CNOT, [c, t])]
  {
    var x, z := GateOp(CNOT, [c, t]), GateOp(RZ(theta), [c]);
    CommuteSnoc([], x);
    assert [] + [x] == [x];
    CommuteSnoc([x], z);
    assert [x] + [z] == [x, z];
    assert Commutes(z, x);
    assert [x][..0] == [];
  }

  /** An RX on a CX's target moves in front of the CX. */
  lemma RxOnTargetMovesBeforeCX(c: int, t: int, theta: real)
    ensures Commute([GateOp(CNOT, [c, t]), GateOp(RX(theta), [t])]) == [GateOp(RX(theta), [t]), GateOp(CNOT, [c, t])]
  {
    var x, z := GateOp(CNOT, [c, t]), GateOp(RX(theta), [t]);
    CommuteSnoc([], x);
    assert [] + [x] == [x];
    CommuteSnoc([x], z);
    assert [x] + [z] == [x, z];
    assert Commutes(z, x);
    assert [x][..0] == [];
  }

  /** An X on a CX's control stays behind the CX. */
  lemma NonCommutingGatesStayPut(c: int, t: int)
    ensures Commute([GateOp(CNOT, [c, t]), GateOp(X, [c])]) == [GateOp(CNOT, [c, t]), GateOp(X, [c])]
  {
    SettledIdentity([GateOp(CNOT, [c, t]), GateOp(X, [c])]);
  }

  /** A gate without qubits on its own: no `commutes` test runs, so the pass returns it. */
  lemma LoneGateWithoutQubits(g: Gate)
    ensures !Fails([GateOp(g, [])]) && Commute([GateOp(g, [])]) == [GateOp(g, [])]
  {
    var x := GateOp(g, []);
    assert [x][..0] == [];
    CommuteSnoc([], x);
    assert [] + [x] == [x];
  }

  /** An RZ behind a CX that holds only its control: `commutes` reads q[0] of both, so the RZ moves in front. */
  lemma RzCrossesShortCX(q: int, theta: real)
    ensures !Fails([GateOp(CNOT, [q]), GateOp(RZ(theta), [q])])
    ensures Commute([GateOp(CNOT, [q]), GateOp(RZ(theta), [q])]) == [GateOp(RZ(theta), [q]), GateOp(CNOT, [q])]
  {
    var x, z := GateOp(CNOT, [q]), GateOp(RZ(theta), [q]);
    var s := [x, z];
    assert s[..1] == [x] && [x][..0] == [];
    CommuteSnoc([], x);
    assert [] + [x] == [x];
    CommuteSnoc([x], z);
    assert [x] + [z] == s;
    assert Commutes(z, x) && !Throws(z, x);
    assert !InsertFails([], z) && !InsertFails([], x);
    assert !Fails([x]);
    assert Copy(z) == z && Commute([x]) == [x];
    assert !InsertFails([x], z);
  }

  /** An RX behind a CX that holds only its control: `commutes` reads q[1] of the CX, and the pass throws. */
  lemma RxBehindShortCXFails(q: int, theta: real)
    ensures Fails([GateOp(CNOT, [q]), GateOp(RX(theta), [q])])
  {
    var x, z := GateOp(CNOT, [q]), GateOp(RX(theta), [q]);
    var s := [x, z];
    assert s[..1] == [x] && [x][..0] == [];
    CommuteSnoc([], x);
    assert [] + [x] == [x];
    assert Throws(z, x);
  }

  /** A single-qubit gate without qubits behind another: `commutes` reads its q[0], and the pass throws. */
  lemma EmptyBehindSingleFails(q: int)
    ensures Fails([GateOp(H, [q]), GateOp(H, [])])
  {
    var x, z := GateOp(H, [q]), GateOp(H, []);
    var s := [x, z];
    assert s[..1] == [x] && [x][..0] == [];
    CommuteSnoc([], x);
    assert [] + [x] == [x];
    assert Throws(z, x);
  }
}
