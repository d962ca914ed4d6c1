/**
 * The Quantum Fourier Transform builders: `qft(n)` and `inverseQft(n)` append
 * H, SWAP and controlled-RZ gates to a fresh n-qubit circuit, each
 * controlled RZ written out as U1, CX, U1, CX.
 */
module QFT {
  import opened Wrappers
  import opened Gates
  import opened Circuits
  import opened RealMath
  import opened Bits
  import ComCircuit

  // ------------------------------------------------------------------ angles

  /**
   * Java's `1 << d` on int: the shift count is taken modulo 32 and the
   * bit pattern read as a signed 32-bit value.
   */
  function Shift(d: nat): (r: int)
    ensures r != 0
  {
    if d % 32 == 31 then -0x8000_0000 else Pow2(d % 32)
  }

  /**
   * The angle of the controlled RZ between qubits d apart, halving from π
   * as d grows through each block of 32 shift counts; AngleIsQuotient shows
   * it is `Math.PI / (1 << d)`.
   */
  function Angle(d: nat): real
  {
    if d % 32 == 0 then PI
    else if d % 32 == 31 then -PI / 2147483648.0
    else Angle(d - 1) / 2.0
  }

  /** Angle(d) is π divided by Java's `1 << d`. */
  lemma {:induction false} AngleIsQuotient(d: nat)
    ensures Angle(d) == PI / (Shift(d) as real)
  {
    if d % 32 != 0 && d % 32 != 31 {
      AngleIsQuotient(d - 1);
      ShiftDoubles(d);
      Halved(PI, Shift(d - 1));
    }
  }

  /** Inside a block of 32 shift counts, one more doubles the shift. */
  lemma ShiftDoubles(d: nat)
    requires d % 32 != 0 && d % 32 != 31
    ensures Shift(d) == 2 * Shift(d - 1)
  {
    ModStep(d);
  }

  lemma ModStep(d: nat)
    requires d % 32 != 0
    ensures (d - 1) % 32 == d % 32 - 1
  {
    var q, r := d / 32, d % 32;
    assert d - 1 == 32 * q + (r - 1);
  }

  /** The inverse angle `-Math.PI / (1 << d)` is -Angle(d). */
  lemma NegatedQuotient(d: nat)
    ensures -PI / (Shift(d) as real) == -Angle(d)
  {
    AngleIsQuotient(d);
    NegatedDivision(PI, Shift(d));
  }

  lemma NegatedDivision(a: real, y: int)
    requires y != 0
    ensures -a / (y as real) == -(a / (y as real))
  {
  }

  lemma Halved(a: real, y: int)
    requires y != 0
    ensures (a / (y as real)) / 2.0 == a / ((2 * y) as real)
  {
    var x := y as real;
    assert (2 * y) as real == 2.0 * x;
  }

  /** Below 31 the shift is the power of two, and the angle is π / 2^d, positive. */
  lemma AngleIsPowerOfTwo(d: nat)
    requires d < 31
    ensures Shift(d) == Pow2(d)
    ensures Angle(d) == PI / (Pow2(d) as real)
    ensures Angle(d) > 0.0
  {
    assert d % 32 == d;
    AngleIsQuotient(d);
    AnglePositive(d);
  }

  lemma {:induction false} AnglePositive(d: nat)
    requires d % 32 != 31
    ensures Angle(d) > 0.0
  {
    if d % 32 != 0 {
      ModStep(d);
      AnglePositive(d - 1);
    }
  }

  /** From 31 on the shift wraps: qubits 31 apart get a negative angle, 32 apart the angle π again. */
  lemma AngleWraps()
    ensures Shift(31) == -2147483648 && Angle(31) < 0.0
    ensures Shift(32) == 1 && Angle(32) == PI
  {
  }

  // ----------------------------------------------------------- instruction lists

  /** `applyCRZ(control, target, θ)`: U1(control, θ/2), CX(control, target), U1(target, -θ/2), CX(control, target). */
  function Crz(control: int, target: int, theta: real): seq<Instruction>
  {
    [GateOp(U1(theta / 2.0), [control]), GateOp(CNOT, [control, target]),
     GateOp(U1(-(theta / 2.0)), [target]), GateOp(CNOT, [control, target])]
  }

  /** The controlled rotations onto target from controls target + 1 .. hi - 1, ascending. */
  function Crzs(target: nat, hi: nat): seq<Instruction>
    decreases hi
  {
    if hi <= target + 1 then []
    else Crzs(target, hi - 1) + Crz(hi - 1, target, Angle(hi - 1 - target))
  }

  /** What `qft` appends for one target: H(target), then its controlled rotations. */
  function Block(n: nat, target: nat): seq<Instruction>
  {
    [GateOp(H, [target])] + Crzs(target, n)
  }

  /** The blocks of targets 0 .. k - 1, ascending. */
  function Blocks(n: nat, k: nat): seq<Instruction>
  {
    if k == 0 then [] else Blocks(n, k - 1) + Block(n, k - 1)
  }

  /** SWAP(i, n - 1 - i) for i = 0 .. k - 1. */
  function Swaps(n: int, k: nat): seq<Instruction>
  {
    if k == 0 then [] else Swaps(n, k - 1) + [GateOp(SWAP, [k - 1, n - k])]
  }

  /** The instructions of `qft(n)`: every block, then the reversing swaps. */
  function QftInstructions(n: nat): seq<Instruction>
  {
    Blocks(n, n) + Swaps(n, n / 2)
  }

  /**
   * The inverse rotations onto target from controls target - 1 down to
   * target - m, with angle -π / (1 << (target - control)).
   */
  function InverseCrzs(target: nat, m: nat): seq<Instruction>
    requires m <= target
  {
    if m == 0 then [] else InverseCrzs(target, m - 1) + Crz(target - m, target, -Angle(m))
  }

  /** What `inverseQft` appends for one target: its inverse rotations, then H(target). */
  function InverseBlock(target: nat): seq<Instruction>
  {
    InverseCrzs(target, target) + [GateOp(H, [target])]
  }

  /** The inverse blocks of targets n - 1 down to n - k. */
  function InverseBlocks(n: nat, k: nat): seq<Instruction>
    requires k <= n
  {
    if k == 0 then [] else InverseBlocks(n, k - 1) + InverseBlock(n - k)
  }

  /** The instructions of `inverseQft(n)`: the swaps first, then the inverse blocks. */
  function InverseQftInstructions(n: nat): seq<Instruction>
  {
    Swaps(n, n / 2) + InverseBlocks(n, n)
  }

  lemma CrzsSnoc(p: seq<Instruction>, target: nat, c: nat)
    requires c >= target + 1
    ensures p + Crzs(target, c + 1) == p + Crzs(target, c) + Crz(c, target, Angle(c - target))
  {
  }

  lemma BlocksSnoc(n: nat, t: nat)
    ensures Blocks(n, t + 1) == Blocks(n, t) + [GateOp(H, [t])] + Crzs(t, n)
  {
  }

  lemma SwapsSnoc(p: seq<Instruction>, n: int, i: nat)
    ensures p + Swaps(n, i + 1) == p + Swaps(n, i) + [GateOp(SWAP, [i, n - 1 - i])]
  {
  }

  lemma InverseCrzsSnoc(p: seq<Instruction>, target: nat, control: nat, theta: real)
    requires control < target && theta == -Angle(target - control)
    ensures p + InverseCrzs(target, target - control) == p + InverseCrzs(target, target - (control + 1)) + Crz(control, target, theta)
  {
  }

  lemma InverseBlocksSnoc(p: seq<Instruction>, n: nat, target: nat)
    requires target < n
    ensures p + InverseBlocks(n, n - target) == p + InverseBlocks(n, n - (target + 1)) + InverseBlock(target)
  {
  }

  // ----------------------------------------------------------------- builders

  /** `applyCRZ`: appends the four instructions of Crz. */
  method ApplyCRZ(qc: ComCircuit.QuantumCircuit, control: int, target: int, theta: real)
    modifies qc
    ensures qc.instructions == old(qc.instructions) + Crz(control, target, theta)
  {
    var half := theta / 2.0;
    var r := qc.U1(control, half);
    r := qc.CX(control, target);
    r := qc.U1(target, -half);
    r := qc.CX(control, target);
  }

  /** One pass of `qft`'s outer loop: H(target), then a controlled rotation from each higher control. */
  method AppendBlock(qc: ComCircuit.QuantumCircuit, n: nat, target: nat)
    requires target < n
    modifies qc
    ensures qc.instructions == old(qc.instructions) + Block(n, target)
  {
    ghost var pre := qc.instructions + [GateOp(H, [target])];
    var r := qc.H(target);
    for control := target + 1 to n
      invariant qc.instructions == pre + Crzs(target, control)
    {
      var theta := PI / (Shift(control - target) as real);
      AngleIsQuotient(control - target);
      CrzsSnoc(pre, target, control);
      ApplyCRZ(qc, control, target, theta);
    }
  }

  /** The swap loop both builders share: SWAP(i, n - 1 - i) for i < n / 2. */
  method AppendSwaps(qc: ComCircuit.QuantumCircuit, n: nat)
    modifies qc
    ensures qc.instructions == old(qc.instructions) + Swaps(n, n / 2)
  {
    ghost var pre := qc.instructions;
    for i := 0 to n / 2
      invariant qc.instructions == pre + Swaps(n, i)
    {
      SwapsSnoc(pre, n, i);
      var r := qc.Swap(i, n - 1 - i);
    }
  }

  /** One pass of `inverseQft`'s outer loop: an inverse rotation from each lower control, descending, then H(target). */
  method AppendInverseBlock(qc: ComCircuit.QuantumCircuit, target: nat)
    modifies qc
    ensures qc.instructions == old(qc.instructions) + InverseBlock(target)
  {
    ghost var pre := qc.instructions;
    var control := target - 1;
    while control >= 0
      invariant -1 <= control <= target - 1
      invariant qc.instructions == pre + InverseCrzs(target, target - (control + 1))
    {
      var theta := -PI / (Shift(target - control) as real);
      NegatedQuotient(target - control);
      InverseCrzsSnoc(pre, target, control, theta);
      ApplyCRZ(qc, control, target, theta);
      control := control - 1;
    }
    var r := qc.H(target);
  }

  /** `qft(n)`: n <= 0 throws; otherwise a fresh n-qubit circuit holding QftInstructions(n). */
  method Qft(n: int) returns (res: Result<ComCircuit.QuantumCircuit>)
    ensures n <= 0 ==> res == Err(IllegalArgument)
    ensures n > 0 ==> res.Ok? && fresh(res.value) && res.value.numQubits == n
                      && res.value.instructions == QftInstructions(n)
  {
    if n <= 0 {
      return Err(IllegalArgument);
    }
    var qc := new ComCircuit.QuantumCircuit.Create(n);
    for target := 0 to n
      invariant qc.instructions == Blocks(n, target)
    {
      BlocksSnoc(n, target);
      AppendBlock(qc, n, target);
    }
    AppendSwaps(qc, n);
    return Ok(qc);
  }

  /** `inverseQft(n)`: n <= 0 throws; otherwise a fresh n-qubit circuit holding InverseQftInstructions(n). */
  method InverseQft(n: int) returns (res: Result<ComCircuit.QuantumCircuit>)
    ensures n <= 0 ==> res == Err(IllegalArgument)
    ensures n > 0 ==> res.Ok? && fresh(res.value) && res.value.numQubits == n
                      && res.value.instructions == InverseQftInstructions(n)
  {
    if n <= 0 {
      return Err(IllegalArgument);
    }
    var qc := new ComCircuit.QuantumCircuit.Create(n);
    AppendSwaps(qc, n);
    ghost var swaps := qc.instructions;
    var target := n - 1;
    while target >= 0
      invariant -1 <= target <= n - 1
      invariant qc.instructions == swaps + InverseBlocks(n, n - (target + 1))
    {
      InverseBlocksSnoc(swaps, n, target);
      AppendInverseBlock(qc, target);
      target := target - 1;
    }
    return Ok(qc);
  }

  // --------------------------------------------------------------- properties

  /**
   * Every instruction is a gate of its own arity on qubits 0 .. n - 1, and
   * the two qubits of a two-qubit gate differ: the simulator accepts it.
   */
  predicate OnQubits(n: int, s: seq<Instruction>)
  {
    WellFormed(s) &&
    forall k :: 0 <= k < |s| ==> s[k].GateOp? && Fits(n, s[k].qubits)
  }

  predicate Fits(n: int, qs: seq<int>)
  {
    (forall j :: 0 <= j < |qs| ==> 0 <= qs[j] < n) && (|qs| == 2 ==> qs[0] != qs[1])
  }

  lemma OnQubitsAppend(n: int, s: seq<Instruction>, t: seq<Instruction>)
    requires OnQubits(n, s) && OnQubits(n, t)
    ensures OnQubits(n, s + t)
  {
    WellFormedAppend(s, t);
    forall k | 0 <= k < |s + t|
      ensures (s + t)[k].GateOp? && Fits(n, (s + t)[k].qubits)
    {
      if k < |s| {
        assert (s + t)[k] == s[k];
      } else {
        assert (s + t)[k] == t[k - |s|];
      }
    }
  }

  lemma CrzOnQubits(n: int, control: int, target: int, theta: real)
    requires 0 <= control < n && 0 <= target < n && control != target
    ensures OnQubits(n, Crz(control, target, theta))
  {
  }

  lemma {:induction false} CrzsOnQubits(n: nat, target: nat, hi: nat)
    requires target < n && hi <= n
    ensures OnQubits(n, Crzs(target, hi))
    decreases hi
  {
    if hi > target + 1 {
      CrzsOnQubits(n, target, hi - 1);
      CrzOnQubits(n, hi - 1, target, Angle(hi - 1 - target));
      OnQubitsAppend(n, Crzs(target, hi - 1), Crz(hi - 1, target, Angle(hi - 1 - target)));
    }
  }

  lemma {:induction false} BlocksOnQubits(n: nat, k: nat)
    requires k <= n
    ensures OnQubits(n, Blocks(n, k))
  {
    if k > 0 {
      BlocksOnQubits(n, k - 1);
      CrzsOnQubits(n, k - 1, n);
      assert OnQubits(n, [GateOp(H, [k - 1])]);
      OnQubitsAppend(n, [GateOp(H, [k - 1])], Crzs(k - 1, n));
      OnQubitsAppend(n, Blocks(n, k - 1), Block(n, k - 1));
    }
  }

  lemma {:induction false} SwapsOnQubits(n: nat, k: nat)
    requires k <= n / 2
    ensures OnQubits(n, Swaps(n, k))
  {
    if k > 0 {
      SwapsOnQubits(n, k - 1);
      assert OnQubits(n, [GateOp(SWAP, [k - 1, n - k])]);
      OnQubitsAppend(n, Swaps(n, k - 1), [GateOp(SWAP, [k - 1, n - k])]);
    }
  }

  lemma {:induction false} InverseCrzsOnQubits(n: nat, target: nat, m: nat)
    requires target < n && m <= target
    ensures OnQubits(n, InverseCrzs(target, m))
  {
    if m > 0 {
      InverseCrzsOnQubits(n, target, m - 1);
      CrzOnQubits(n, target - m, target, -Angle(m));
      OnQubitsAppend(n, InverseCrzs(target, m - 1), Crz(target - m, target, -Angle(m)));
    }
  }

  lemma {:induction false} InverseBlocksOnQubits(n: nat, k: nat)
    requires k <= n
    ensures OnQubits(n, InverseBlocks(n, k))
  {
    if k > 0 {
      var t := n - k;
      InverseBlocksOnQubits(n, k - 1);
      InverseCrzsOnQubits(n, t, t);
      assert OnQubits(n, [GateOp(H, [t])]);
      OnQubitsAppend(n, InverseCrzs(t, t), [GateOp(H, [t])]);
      OnQubitsAppend(n, InverseBlocks(n, k - 1), InverseBlock(t));
    }
  }

  /** qft(n) only touches qubits 0 .. n - 1, each gate on distinct qubits of its own arity. */
  lemma QftOnQubits(n: nat)
    ensures OnQubits(n, QftInstructions(n))
  {
    BlocksOnQubits(n, n);
    SwapsOnQubits(n, n / 2);
    OnQubitsAppend(n, Blocks(n, n), Swaps(n, n / 2));
  }

  /** So does inverseQft(n). */
  lemma InverseQftOnQubits(n: nat)
    ensures OnQubits(n, InverseQftInstructions(n))
  {
    SwapsOnQubits(n, n / 2);
    InverseBlocksOnQubits(n, n);
    OnQubitsAppend(n, Swaps(n, n / 2), InverseBlocks(n, n));
  }

  lemma {:induction false} CrzsLength(target: nat, hi: nat)
    requires target < hi
    ensures |Crzs(target, hi)| == 4 * (hi - target - 1)
    decreases hi
  {
    if hi > target + 1 {
      CrzsLength(target, hi - 1);
    }
  }

  lemma {:induction false} InverseCrzsLength(target: nat, m: nat)
    requires m <= target
    ensures |InverseCrzs(target, m)| == 4 * m
  {
    if m > 0 {
      InverseCrzsLength(target, m - 1);
    }
  }

  lemma {:induction false} SwapsLength(n: int, k: nat)
    ensures |Swaps(n, k)| == k
  {
    if k > 0 {
      SwapsLength(n, k - 1);
    }
  }

  /** One more block of 1 + 4 (n - k - 1) instructions keeps the count formula. */
  lemma CountStep(n: int, k: int)
    ensures k + 2 * k * (2 * n - k - 1) + 1 + 4 * (n - k - 1) == (k + 1) + 2 * (k + 1) * (2 * n - (k + 1) - 1)
  {
  }

  lemma {:induction false} BlocksLength(n: nat, k: nat)
    requires k <= n
    ensures |Blocks(n, k)| == k + 2 * k * (2 * n - k - 1)
  {
    if k > 0 {
      BlocksLength(n, k - 1);
      CrzsLength(k - 1, n);
      CountStep(n, k - 1);
    }
  }

  lemma {:induction false} InverseBlocksLength(n: nat, k: nat)
    requires k <= n
    ensures |InverseBlocks(n, k)| == k + 2 * k * (2 * n - k - 1)
  {
    if k > 0 {
      InverseBlocksLength(n, k - 1);
      InverseCrzsLength(n - k, n - k);
      CountStep(n, k - 1);
    }
  }

  /** qft(n) holds n H gates, n (n - 1) / 2 four-gate controlled rotations and n / 2 swaps. */
  lemma QftLength(n: nat)
    ensures |QftInstructions(n)| == n + 2 * n * (n - 1) + n / 2
  {
    BlocksLength(n, n);
    SwapsLength(n, n / 2);
  }

  /** inverseQft(n) holds as many instructions as qft(n). */
  lemma InverseQftLength(n: nat)
    ensures |InverseQftInstructions(n)| == |QftInstructions(n)|
  {
    InverseBlocksLength(n, n);
    SwapsLength(n, n / 2);
    QftLength(n);
  }

  /** qft(1) is the single H(0). */
  lemma QftOneQubit()
    ensures QftInstructions(1) == [GateOp(H, [0])]
    ensures InverseQftInstructions(1) == [GateOp(H, [0])]
  {
    assert Blocks(1, 1) == [GateOp(H, [0])];
    assert InverseBlocks(1, 1) == [GateOp(H, [0])];
  }

  /** qft(2): H(0), the π/2 controlled rotation from qubit 1 as U1(1, π/4), CX(1, 0), U1(0, -π/4), CX(1, 0), then H(1) and SWAP(0, 1). */
  lemma QftTwoQubits()
    ensures QftInstructions(2)
         == [GateOp(H, [0]), GateOp(U1(PI / 4.0), [1]), GateOp(CNOT, [1, 0]), GateOp(U1(-(PI / 4.0)), [0]),
             GateOp(CNOT, [1, 0]), GateOp(H, [1]), GateOp(SWAP, [0, 1])]
  {
    assert Angle(1) == PI / 2.0;
    assert Crzs(0, 2) == Crz(1, 0, PI / 2.0);
    assert Blocks(2, 2) == [GateOp(H, [0])] + Crz(1, 0, PI / 2.0) + [GateOp(H, [1])];
    assert Swaps(2, 1) == [GateOp(SWAP, [0, 1])];
  }

  /** inverseQft(2): SWAP(0, 1), the -π/2 controlled rotation from qubit 0 onto qubit 1, then H(1) and H(0). */
  lemma InverseQftTwoQubits()
    ensures InverseQftInstructions(2)
         == [GateOp(SWAP, [0, 1]), GateOp(U1(-PI / 4.0), [0]), GateOp(CNOT, [0, 1]), GateOp(U1(PI / 4.0), [1]),
             GateOp(CNOT, [0, 1]), GateOp(H, [1]), GateOp(H, [0])]
  {
    assert Angle(1) == PI / 2.0;
    assert InverseCrzs(1, 1) == Crz(0, 1, -(PI / 2.0));
    assert InverseBlocks(2, 2) == Crz(0, 1, -(PI / 2.0)) + [GateOp(H, [1])] + [GateOp(H, [0])];
    assert Swaps(2, 1) == [GateOp(SWAP, [0, 1])];
  }
}
