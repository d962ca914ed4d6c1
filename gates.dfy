/**
 * The closed gate family: the eighteen classes of StandardGates plus the two
 * alternative classes io CNOTGate and io CCXGate, with their names, arities,
 * parameters and matrices.
 */
module Gates {
  import opened ComplexNumbers
  import opened RealMath
  import opened Bits
  import M = GateMatrices

  /**
   * One constructor per gate class. The parameter getters (`getTheta`,
   * `getPhi`, `getLambda`) are the constructor fields.
   */
  datatype Gate =
    | X | Y | Z | H | S | T
    | RX(theta: real) | RY(theta: real) | RZ(theta: real)
    | CNOT | CZ | SWAP | ISWAP | CH | CCX
    | U3(theta: real, phi: real, lambda: real)
    | U2(phi: real, lambda: real)
    | U1(lambda: real)
    | IoCNOT   // io CNOTGate, a distinct class also named "cx"
    | IoCCX    // io CCXGate, a distinct class also named "ccx"

  /** Subclasses of SingleQubitGate. */
  predicate IsSingleQubit(g: Gate)
  {
    g.X? || g.Y? || g.Z? || g.H? || g.S? || g.T? || g.RX? || g.RY? || g.RZ?
    || g.U3? || g.U2? || g.U1?
  }

  /** Subclasses of TwoQubitGate. */
  predicate IsTwoQubit(g: Gate)
  {
    g.CNOT? || g.CZ? || g.SWAP? || g.ISWAP? || g.CH? || g.IoCNOT?
  }

  /** Subclasses of ThreeQubitGate. */
  predicate IsThreeQubit(g: Gate)
  {
    g.CCX? || g.IoCCX?
  }

  /** `arity()`: 1, 2 or 3 by base class; every gate has exactly one base class. */
  function Arity(g: Gate): (r: nat)
    ensures r == 1 <==> IsSingleQubit(g)
    ensures r == 2 <==> IsTwoQubit(g)
    ensures r == 3 <==> IsThreeQubit(g)
  {
    if IsSingleQubit(g) then 1 else if IsTwoQubit(g) then 2 else 3
  }

  /** `name()`. */
  function Name(g: Gate): string
  {
    match g
    case X => "x"
    case Y => "y"
    case Z => "z"
    case H => "h"
    case S => "s"
    case T => "t"
    case RX(_) => "rx"
    case RY(_) => "ry"
    case RZ(_) => "rz"
    case CNOT => "cx"
    case CZ => "cz"
    case SWAP => "swap"
    case ISWAP => "iswap"
    case CH => "ch"
    case CCX => "ccx"
    case U3(_, _, _) => "u3"
    case U2(_, _) => "u2"
    case U1(_) => "u1"
    case IoCNOT => "cx"
    case IoCCX => "ccx"
  }

  /** Two gates of the same class, whatever their parameters. */
  predicate SameClass(a: Gate, b: Gate)
  {
    match (a, b)
    case (RX(_), RX(_)) => true
    case (RY(_), RY(_)) => true
    case (RZ(_), RZ(_)) => true
    case (U3(_, _, _), U3(_, _, _)) => true
    case (U2(_, _), U2(_, _)) => true
    case (U1(_), U1(_)) => true
    case _ => a == b
  }

  /** `expI(angle)` = cos + i·sin. */
  function ExpI(num: Numerics, angle: real): Complex
  {
    Complex(num.cos(angle), num.sin(angle))
  }

  /** `U3Gate.build(θ, φ, λ)`. */
  function U3Matrix(num: Numerics, theta: real, phi: real, lambda: real): (r: M.Matrix)
    ensures M.IsSquare(r, 2)
  {
    var half := theta / 2.0;
    var c := num.cos(half);
    var s := num.sin(half);
    [[Complex(c, 0.0), Mul(ExpI(num, lambda), Complex(-s, 0.0))],
     [Mul(ExpI(num, phi), Complex(s, 0.0)), Mul(ExpI(num, phi + lambda), Complex(c, 0.0))]]
  }

  /** `U1Gate.build(λ)`. */
  function U1Matrix(num: Numerics, lambda: real): (r: M.Matrix)
    ensures M.IsDiagonal(r, 2) && r[0][0] == One && r[1][1] == ExpI(num, lambda)
  {
    [[One, Zero], [Zero, ExpI(num, lambda)]]
  }

  /**
   * The matrix literal of io CNOTGate, as written: rows 1 and 3 exchanged.
   * Under the two-qubit local order (index 1 = second argument set) this flips
   * the FIRST argument when the second is set.
   */
  const IoCnotAsWritten: M.Matrix :=
    [[One, Zero, Zero, Zero],
     [Zero, Zero, Zero, One],
     [Zero, Zero, One, Zero],
     [Zero, One, Zero, Zero]]

  /**
   * The matrix literal of io CCXGate, as written: rows 3 and 7 exchanged.
   * With local index (b0 << 2) | (b1 << 1) | b2 this flips the FIRST argument
   * when the second and third are set.
   */
  const IoCcxAsWritten: M.Matrix :=
    [[One, Zero, Zero, Zero, Zero, Zero, Zero, Zero],
     [Zero, One, Zero, Zero, Zero, Zero, Zero, Zero],
     [Zero, Zero, One, Zero, Zero, Zero, Zero, Zero],
     [Zero, Zero, Zero, Zero, Zero, Zero, Zero, One],
     [Zero, Zero, Zero, Zero, One, Zero, Zero, Zero],
     [Zero, Zero, Zero, Zero, Zero, One, Zero, Zero],
     [Zero, Zero, Zero, Zero, Zero, Zero, One, Zero],
     [Zero, Zero, Zero, One, Zero, Zero, Zero, Zero]]

  /**
   * The matrix each gate class passes to its base constructor. The io CNOTGate
   * and CCXGate classes pass their literals as written, given here as the
   * permutation matrices that `IoLiteralsArePermutations` proves equal to
   * them; the standard CNOT and CCX classes pass the control-first matrices.
   */
  function Matrix(num: Numerics, g: Gate): M.Matrix
  {
    match g
    case X => M.X
    case Y => M.Y
    case Z => M.Z
    case H => M.H(num)
    case S => M.S
    case T => M.T(num)
    case RX(theta) => M.RX(num, theta)
    case RY(theta) => M.RY(num, theta)
    case RZ(theta) => M.RZ(num, theta)
    case CNOT => M.CNOT
    case CZ => M.CZ
    case SWAP => M.SWAP
    case ISWAP => M.ISWAP
    case CH => M.CH(num)
    case CCX => M.CCX
    case U3(theta, phi, lambda) => U3Matrix(num, theta, phi, lambda)
    case U2(phi, lambda) => U3Matrix(num, PI / 2.0, phi, lambda)
    case U1(lambda) => U1Matrix(num, lambda)
    case IoCNOT => M.PermMatrix([0, 3, 2, 1])
    case IoCCX => M.PermMatrix([0, 1, 2, 7, 4, 5, 6, 3])
  }

  // ---------------------------------------------------------------- lemmas

  /** Every gate's matrix is 2^arity square, so its base-class constructor accepts it. */
  lemma MatrixMatchesArity(num: Numerics, g: Gate)
    ensures M.IsSquare(Matrix(num, g), Pow2(Arity(g)))
  {
    M.MatrixShapes(num, if g.RX? || g.RY? || g.RZ? then g.theta else 0.0);
    assert Pow2(1) == 2 && Pow2(2) == 4 && Pow2(3) == 8;
  }

  /** Names are lowercase letters and digits. */
  lemma NamesAreLowercase(g: Gate)
    ensures |Name(g)| > 0
    ensures forall i :: 0 <= i < |Name(g)| ==> 'a' <= Name(g)[i] <= 'z' || '0' <= Name(g)[i] <= '9'
  {
  }

  /** A name determines the class, except that the io CNOT/CCX share "cx"/"ccx". */
  lemma NamesDetermineClass(a: Gate, b: Gate)
    requires Name(a) == Name(b)
    ensures SameClass(a, b) || {a, b} == {CNOT, IoCNOT} || {a, b} == {CCX, IoCCX}
  {
  }

  /** U2(φ, λ) carries exactly the matrix of U3(π/2, φ, λ). */
  lemma U2IsU3(num: Numerics, phi: real, lambda: real)
    ensures Matrix(num, U2(phi, lambda)) == Matrix(num, U3(PI / 2.0, phi, lambda))
  {
  }

  /** U1(λ) is diag(1, e^{iλ}), and equals U3(0, 0, λ) when cos 0 = 1 and sin 0 = 0. */
  lemma U1IsPhase(num: Numerics, lambda: real)
    requires num.cos(0.0) == 1.0 && num.sin(0.0) == 0.0
    ensures M.IsDiagonal(Matrix(num, U1(lambda)), 2)
    ensures Matrix(num, U1(lambda))[1][1] == ExpI(num, lambda)
    ensures Matrix(num, U1(lambda)) == Matrix(num, U3(0.0, 0.0, lambda))
  {
    var u := U3Matrix(num, 0.0, 0.0, lambda);
    assert 0.0 + lambda == lambda;
    assert u[0][1] == Zero;
    assert u[1][0] == Zero;
    assert u[1][1] == ExpI(num, lambda);
  }

  /** Both io literals are permutation matrices of involutions. */
  lemma IoLiteralsArePermutations()
    ensures IoCnotAsWritten == M.PermMatrix([0, 3, 2, 1])
    ensures IoCcxAsWritten == M.PermMatrix([0, 1, 2, 7, 4, 5, 6, 3])
  {
    var pm, qm := M.PermMatrix([0, 3, 2, 1]), M.PermMatrix([0, 1, 2, 7, 4, 5, 6, 3]);
    forall i | 0 <= i < 4 ensures IoCnotAsWritten[i] == pm[i] { }
    forall i | 0 <= i < 8 ensures IoCcxAsWritten[i] == qm[i] { }
  }

  /** The io CNOT literal exchanges local |01⟩ and |11⟩ and fixes |00⟩ and |10⟩. */
  lemma IoCnotAsWrittenOnBasis(k: nat)
    requires k < 4
    ensures M.MatVec(IoCnotAsWritten, M.Basis(4, k)) == M.Basis(4, [0, 3, 2, 1][k])
  {
    IoLiteralsArePermutations();
    var p: seq<nat> := [0, 3, 2, 1];
    assert M.IsInvolution(p);
    M.PhasedPermBasis(p, M.Ones(4), k);
  }

  /** The io CCX literal exchanges local |011⟩ and |111⟩ and fixes the other six. */
  lemma IoCcxAsWrittenOnBasis(k: nat)
    requires k < 8
    ensures M.MatVec(IoCcxAsWritten, M.Basis(8, k)) == M.Basis(8, [0, 1, 2, 7, 4, 5, 6, 3][k])
  {
    IoLiteralsArePermutations();
    var p: seq<nat> := [0, 1, 2, 7, 4, 5, 6, 3];
    assert M.IsInvolution(p);
    M.PhasedPermBasis(p, M.Ones(8), k);
  }

  /** Both io literals are 0/1 matrices with one 1 per row and column, and their own inverses. */
  lemma IoLiteralsSelfInverse()
    ensures M.IsPermutationMatrix(IoCnotAsWritten, 4) && M.IsPermutationMatrix(IoCcxAsWritten, 8)
    ensures M.MatMul(IoCnotAsWritten, IoCnotAsWritten, 4) == M.Identity(4)
    ensures M.MatMul(IoCcxAsWritten, IoCcxAsWritten, 8) == M.Identity(8)
  {
    IoLiteralsArePermutations();
    var p: seq<nat> := [0, 3, 2, 1];
    var q: seq<nat> := [0, 1, 2, 7, 4, 5, 6, 3];
    assert M.IsInvolution(p) && M.IsInvolution(q);
    M.InvolutionPermutationMatrix(p);
    M.InvolutionPermutationMatrix(q);
    M.PhasedPermSquare(p, M.Ones(4));
    M.PhasedPermSquare(q, M.Ones(8));
  }
}
