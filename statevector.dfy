/**
 * The simulator's mutable state: 2^n exact complex amplitudes in an array,
 * basis index i standing for the computational state whose qubit q is bit q
 * of i. Measurement draws from a random source in Java; here the draw r is a
 * parameter, meant to lie in [0, 1) like `Random.nextDouble()`.
 */
module StateVectors {
  import opened Wrappers
  import opened ComplexNumbers
  import opened RealMath
  import opened Bits
  import M = GateMatrices

  // ---------------------------------------------------------------- specification

  /** |a_i|² for every index. */
  function Probabilities(a: seq<Complex>): seq<real>
  {
    seq(|a|, i requires 0 <= i < |a| => AbsSquared(a[i]))
  }

  /** The sum of a sequence, accumulated left to right from 0. */
  function Sum(s: seq<real>): real
  {
    if |s| == 0 then 0.0 else Sum(s[..|s| - 1]) + s[|s| - 1]
  }

  /** Every entry divided by s. */
  function Normalized(p: seq<real>, s: real): seq<real>
    requires s != 0.0
  {
    seq(|p|, i requires 0 <= i < |p| => p[i] / s)
  }

  /** The first index j >= i whose cumulative sum p[0] + … + p[j] exceeds r; |p| if there is none. */
  function ChooseFrom(p: seq<real>, r: real, i: nat): nat
    decreases |p| - i
  {
    if i >= |p| then |p| else if r < Sum(p[..i + 1]) then i else ChooseFrom(p, r, i + 1)
  }

  /** The index a cumulative scan of p picks for the draw r. */
  function Choose(p: seq<real>, r: real): nat
  {
    ChooseFrom(p, r, 0)
  }

  /** The outcome string of a basis index: character q is bit q, least significant first. */
  function BitString(index: nat, n: nat): string
  {
    seq(n, q requires 0 <= q < n => if Bit(index, q) == 1 then '1' else '0')
  }

  /** Σ |a_i|² over the indices i whose bit q is b, accumulated in index order. */
  function BitProb(a: seq<Complex>, q: nat, b: nat): real
  {
    if |a| == 0 then 0.0
    else BitProb(a[..|a| - 1], q, b) + (if Bit(|a| - 1, q) == b then AbsSquared(a[|a| - 1]) else 0.0)
  }

  /** The collapse of `measureOne`: amplitudes agreeing with b on bit q are scaled by k, the others cleared. */
  function Collapse(a: seq<Complex>, q: nat, b: nat, k: real): seq<Complex>
  {
    seq(|a|, i requires 0 <= i < |a| => if Bit(i, q) == b then Scale(a[i], k) else Zero)
  }

  /**
   * The outcome of `measureOne` for normalised probabilities p0, p1 and draw r,
   * with the probability of that outcome: 0 when r < p0, else 1, with the
   * degenerate-probability fallback to the other outcome.
   */
  function SampleOutcome(p0: real, p1: real, r: real): Result<(nat, real)>
  {
    var result: nat := if r < p0 then 0 else 1;
    var pRes := if result == 0 then p0 else p1;
    if pRes == 0.0 then
      var flipped: nat := 1 - result;
      var pFlip := if flipped == 0 then p0 else p1;
      if pFlip == 0.0 then Err(IllegalState) else Ok((flipped, pFlip))
    else
      Ok((result, pRes))
  }

  /** What `measureOne(q)` decides for amplitudes a and draw r, before the collapse. */
  function OneOutcome(a: seq<Complex>, q: nat, r: real): Result<(nat, real)>
  {
    var p0 := BitProb(a, q, 0);
    var p1 := BitProb(a, q, 1);
    var total := p0 + p1;
    if total == 0.0 then Err(IllegalState) else SampleOutcome(p0 / total, p1 / total, r)
  }

  // ---------------------------------------------------------------- the class

  class StateVector {
    const numQubits: nat
    const amplitudes: array<Complex>

    /** At least one qubit and exactly 2^numQubits amplitudes. */
    predicate Valid()
    {
      numQubits > 0 && amplitudes.Length == Pow2(numQubits)
    }

    /** `new StateVector(n)` for n > 0: the basis state |0…0⟩ in a fresh array. */
    constructor Init(n: nat)
      requires n > 0
      ensures numQubits == n && Valid() && fresh(amplitudes)
      ensures amplitudes[..] == M.Basis(Pow2(n), 0)
    {
      var dim := Pow2(n);
      assert dim == 2 * Pow2(n - 1);
      var a := new Complex[dim];
      a[0] := One;
      var i := 1;
      while i < dim
        invariant 1 <= i <= dim
        invariant a[0] == One
        invariant forall j :: 1 <= j < i ==> a[j] == Zero
      {
        a[i] := Zero;
        i := i + 1;
      }
      numQubits := n;
      amplitudes := a;
      assert a[..] == M.Basis(dim, 0);
    }

    function GetNumQubits(): nat
    {
      numQubits
    }

    /** `dimension()`: the array length, which is 2^numQubits. */
    function Dimension(): (d: nat)
      requires Valid()
      ensures d == Pow2(numQubits) && d >= 2
    {
      assert Pow2(numQubits) == 2 * Pow2(numQubits - 1);
      amplitudes.Length
    }

    /** `getAmplitudes()` hands out the array itself, for the gates to update in place. */
    function GetAmplitudes(): (a: array<Complex>)
      ensures a == amplitudes
    {
      amplitudes
    }

    /** `copy()`: the same qubit count and amplitudes, in a new object with a new array. */
    method Copy() returns (sv: StateVector)
      requires Valid()
      ensures fresh(sv) && fresh(sv.amplitudes) && sv.Valid()
      ensures sv.numQubits == numQubits && sv.amplitudes[..] == amplitudes[..]
    {
      sv := new StateVector.Init(numQubits);
      forall i | 0 <= i < amplitudes.Length {
        sv.amplitudes[i] := amplitudes[i];
      }
    }

    /**
     * `measureAll()` with draw r: IllegalState on a zero norm, leaving the
     * state alone; otherwise the index a cumulative scan of the normalised
     * probabilities picks becomes the only amplitude, ONE, and its bit string
     * is returned.
     */
    method MeasureAll(r: real) returns (res: Result<string>)
      requires Valid()
      modifies amplitudes
      ensures Sum(Probabilities(old(amplitudes[..]))) == 0.0 ==>
        res == Err(IllegalState) && amplitudes[..] == old(amplitudes[..])
      ensures Sum(Probabilities(old(amplitudes[..]))) != 0.0 ==>
        var c := Choose(Normalized(Probabilities(old(amplitudes[..])), Sum(Probabilities(old(amplitudes[..])))), r);
        res == Ok(BitString(c, numQubits)) && amplitudes[..] == M.Basis(amplitudes.Length, c)
    {
      ghost var a := amplitudes[..];
      var probs, sum := ProbabilitiesOf(amplitudes);
      if sum == 0.0 {
        res := Err(IllegalState);
        return;
      }
      NormalizeInPlace(probs, sum);
      assert probs[..] == Normalized(Probabilities(a), sum);
      var chosen := ScanCumulative(probs, r);
      CollapseTo(amplitudes, chosen);
      var s := IndexToBitString(chosen, numQubits);
      res := Ok(s);
    }

    /**
     * `measureOne(qubit)` with draw r and the library's 1/√x: IllegalArgument
     * for a qubit outside [0, n) and IllegalState when no outcome can be
     * normalised, both leaving the state alone; otherwise the sampled outcome,
     * with the state collapsed onto it and rescaled by 1/√p.
     */
    method MeasureOne(num: Numerics, qubit: int, r: real) returns (res: Result<nat>)
      requires Valid()
      modifies amplitudes
      ensures !(0 <= qubit < numQubits) ==>
        res == Err(IllegalArgument) && amplitudes[..] == old(amplitudes[..])
      ensures 0 <= qubit < numQubits && OneOutcome(old(amplitudes[..]), qubit, r).Err? ==>
        res == Err(IllegalState) && amplitudes[..] == old(amplitudes[..])
      ensures 0 <= qubit < numQubits && OneOutcome(old(amplitudes[..]), qubit, r).Ok? ==>
        var (b, pRes) := OneOutcome(old(amplitudes[..]), qubit, r).value;
        res == Ok(b) && amplitudes[..] == Collapse(old(amplitudes[..]), qubit, b, num.invSqrt(pRes))
    {
      if qubit < 0 || qubit >= numQubits {
        res := Err(IllegalArgument);
        return;
      }
      ghost var a := amplitudes[..];
      var p0, p1 := QubitMarginals(amplitudes, qubit);
      var total := p0 + p1;
      if total == 0.0 {
        res := Err(IllegalState);
        return;
      }
      p0 := p0 / total;
      p1 := p1 / total;

      var result: nat := if r < p0 then 0 else 1;
      var pRes := if result == 0 then p0 else p1;
      if pRes == 0.0 {
        result := 1 - result;
        pRes := if result == 0 then p0 else p1;
        if pRes == 0.0 {
          res := Err(IllegalState);
          return;
        }
      }
      assert OneOutcome(a, qubit, r) == Ok((result, pRes));

      var norm := num.invSqrt(pRes);
      CollapseOnto(amplitudes, qubit, result, norm);
      res := Ok(result);
    }
  }

  /** The first loop of `measureOne`: the weights of bit q being 0 and being 1. */
  method QubitMarginals(amps: array<Complex>, q: nat) returns (p0: real, p1: real)
    ensures p0 == BitProb(amps[..], q, 0) && p1 == BitProb(amps[..], q, 1)
  {
    ghost var a := amps[..];
    var dim := amps.Length;
    p0, p1 := 0.0, 0.0;
    var i := 0;
    while i < dim
      invariant 0 <= i <= dim
      invariant p0 == BitProb(a[..i], q, 0) && p1 == BitProb(a[..i], q, 1)
    {
      var prob := AbsSquared(amps[i]);
      if Bit(i, q) == 0 {
        p0 := p0 + prob;
      } else {
        p1 := p1 + prob;
      }
      assert a[..i + 1][..i] == a[..i];
      i := i + 1;
    }
    assert a[..dim] == a;
  }

  /** The last loop of `measureOne`: amplitudes whose bit q is b are scaled by k, the others cleared. */
  method CollapseOnto(amps: array<Complex>, q: nat, b: nat, k: real)
    modifies amps
    ensures amps[..] == Collapse(old(amps[..]), q, b, k)
  {
    ghost var a := amps[..];
    var dim := amps.Length;
    var i := 0;
    while i < dim
      invariant 0 <= i <= dim
      invariant forall j :: 0 <= j < i ==> amps[j] == Collapse(a, q, b, k)[j]
      invariant forall j :: i <= j < dim ==> amps[j] == a[j]
    {
      var bitIs1 := Bit(i, q) != 0;
      if (b == 0 && !bitIs1) || (b == 1 && bitIs1) {
        amps[i] := Scale(amps[i], k);
      } else {
        amps[i] := Zero;
      }
      i := i + 1;
    }
    assert amps[..] == Collapse(a, q, b, k);
  }

  /** The first loop of `measureAll`: |a_i|² into a fresh array, and their sum. */
  method ProbabilitiesOf(a: array<Complex>) returns (probs: array<real>, sum: real)
    ensures fresh(probs) && probs[..] == Probabilities(a[..]) && sum == Sum(probs[..])
  {
    ghost var p := Probabilities(a[..]);
    probs := new real[a.Length];
    sum := 0.0;
    var i := 0;
    while i < a.Length
      invariant 0 <= i <= a.Length
      invariant probs[..i] == p[..i]
      invariant sum == Sum(p[..i])
    {
      probs[i] := AbsSquared(a[i]);
      sum := sum + probs[i];
      assert p[..i + 1][..i] == p[..i];
      i := i + 1;
    }
    assert p[..a.Length] == p;
    assert probs[..a.Length] == probs[..];
  }

  /** The normalising loop of `measureAll`: every entry divided by the sum. */
  method NormalizeInPlace(probs: array<real>, sum: real)
    requires sum != 0.0
    modifies probs
    ensures probs[..] == Normalized(old(probs[..]), sum)
  {
    var i := 0;
    while i < probs.Length
      invariant 0 <= i <= probs.Length
      invariant forall j :: 0 <= j < i ==> probs[j] == old(probs[j]) / sum
      invariant forall j :: i <= j < probs.Length ==> probs[j] == old(probs[j])
    {
      probs[i] := probs[i] / sum;
      i := i + 1;
    }
  }

  /** The sampling loop of `measureAll`: the first index whose cumulative sum exceeds r, or the length. */
  method ScanCumulative(probs: array<real>, r: real) returns (chosen: nat)
    ensures chosen == Choose(probs[..], r)
  {
    ghost var p := probs[..];
    var cumulative := 0.0;
    chosen := 0;
    while chosen < probs.Length
      invariant 0 <= chosen <= probs.Length
      invariant cumulative == Sum(p[..chosen])
      invariant ChooseFrom(p, r, chosen) == Choose(p, r)
    {
      cumulative := cumulative + probs[chosen];
      assert p[..chosen + 1][..chosen] == p[..chosen];
      if r < cumulative {
        assert ChooseFrom(p, r, chosen) == chosen;
        return;
      }
      chosen := chosen + 1;
    }
  }

  /** The collapsing loop of `measureAll`: ONE at index k, ZERO everywhere else. */
  method CollapseTo(a: array<Complex>, k: nat)
    modifies a
    ensures a[..] == M.Basis(a.Length, k)
  {
    var i := 0;
    while i < a.Length
      invariant 0 <= i <= a.Length
      invariant forall j :: 0 <= j < i ==> a[j] == if j == k then One else Zero
    {
      a[i] := if i == k then One else Zero;
      i := i + 1;
    }
  }

  /** `new StateVector(n)` as a call that can fail: IllegalArgument unless n > 0. */
  method Create(n: int) returns (r: Result<StateVector>)
    ensures r.Err? <==> n <= 0
    ensures r.Err? ==> r.error == IllegalArgument
    ensures r.Ok? ==> fresh(r.value) && fresh(r.value.amplitudes) && r.value.Valid()
    ensures r.Ok? ==> r.value.numQubits == n && r.value.amplitudes[..] == M.Basis(Pow2(n), 0)
  {
    if n <= 0 {
      return Err(IllegalArgument);
    }
    var sv := new StateVector.Init(n);
    return Ok(sv);
  }

  /** `indexToBitString`: one character per qubit, bit q of the index at position q. */
  method IndexToBitString(index: nat, n: nat) returns (s: string)
    ensures s == BitString(index, n)
  {
    s := "";
    var q := 0;
    while q < n
      invariant 0 <= q <= n
      invariant s == BitString(index, q)
    {
      var bit := Bit(index, q);
      s := s + (if bit == 1 then "1" else "0");
      q := q + 1;
    }
  }

  // ---------------------------------------------------------------- lemmas

  /** Normalising divides the sum. */
  lemma {:induction false} NormalizedSum(p: seq<real>, s: real)
    requires s != 0.0
    ensures Sum(Normalized(p, s)) == Sum(p) / s
    decreases |p|
  {
    if |p| > 0 {
      var n := |p| - 1;
      assert Normalized(p, s)[..n] == Normalized(p[..n], s);
      NormalizedSum(p[..n], s);
      assert Sum(p[..n]) / s + p[n] / s == (Sum(p[..n]) + p[n]) / s;
    }
  }

  /** The scan passed index j: the cumulative sum up to j is at most r. */
  predicate Passed(p: seq<real>, r: real, j: nat)
  {
    j < |p| && Sum(p[..j + 1]) <= r
  }

  /** What the scan from i found: it passed every index before the chosen one, whose cumulative sum exceeds r. */
  lemma {:induction false} ChooseFromFacts(p: seq<real>, r: real, i: nat)
    requires i <= |p|
    ensures i <= ChooseFrom(p, r, i) <= |p|
    ensures ChooseFrom(p, r, i) < |p| ==> r < Sum(p[..ChooseFrom(p, r, i) + 1])
    ensures forall j :: i <= j < ChooseFrom(p, r, i) ==> Passed(p, r, j)
    decreases |p| - i
  {
    if i < |p| && !(r < Sum(p[..i + 1])) {
      ChooseFromFacts(p, r, i + 1);
    }
  }

  lemma {:induction false} ChooseFromBelow(p: seq<real>, r: real, i: nat)
    requires i < |p| && r < Sum(p)
    ensures ChooseFrom(p, r, i) < |p|
    decreases |p| - i
  {
    if i == |p| - 1 {
      assert p[..i + 1] == p;
    } else if !(r < Sum(p[..i + 1])) {
      ChooseFromBelow(p, r, i + 1);
    }
  }

  /** A non-empty sequence summing above r makes the scan stop inside it. */
  lemma ChooseInRange(p: seq<real>, r: real)
    requires |p| > 0 && r < Sum(p)
    ensures Choose(p, r) < |p|
  {
    ChooseFromBelow(p, r, 0);
  }

  /** With r >= 0 the chosen entry is strictly positive: the scan never stops on a zero. */
  lemma ChosenIsPositive(p: seq<real>, r: real)
    requires 0.0 <= r && Choose(p, r) < |p|
    ensures p[Choose(p, r)] > 0.0
  {
    var c := Choose(p, r);
    ChooseFromFacts(p, r, 0);
    assert p[..c + 1][..c] == p[..c];
    if c > 0 {
      assert Passed(p, r, c - 1);
    }
  }

  /**
   * `measureAll` on a state of non-zero norm with a draw r in [0, 1) picks an
   * index inside the vector, and one whose amplitude is not ZERO.
   */
  lemma MeasureAllChoosesOutcome(a: seq<Complex>, r: real)
    requires |a| > 0 && Sum(Probabilities(a)) != 0.0 && 0.0 <= r < 1.0
    ensures Choose(Normalized(Probabilities(a), Sum(Probabilities(a))), r) < |a|
    ensures a[Choose(Normalized(Probabilities(a), Sum(Probabilities(a))), r)] != Zero
  {
    var p := Probabilities(a);
    var s := Sum(p);
    var np := Normalized(p, s);
    NormalizedSum(p, s);
    SelfQuotient(s);
    ChooseInRange(np, r);
    ChosenIsPositive(np, r);
    var c := Choose(np, r);
    assert np[c] == p[c] / s;
    PositiveQuotient(p[c], s);
  }

  lemma SelfQuotient(s: real)
    requires s != 0.0
    ensures s / s == 1.0
  {
  }

  lemma PositiveQuotient(x: real, s: real)
    requires s != 0.0 && x / s > 0.0
    ensures x != 0.0
  {
  }

  /** The probabilities of the basis state |c⟩: 1 at c, 0 elsewhere. */
  lemma BasisProbabilities(d: nat, c: nat)
    ensures Probabilities(M.Basis(d, c)) == seq(d, i => if i == c then 1.0 else 0.0)
  {
    assert AbsSquared(One) == 1.0;
  }

  /** The cumulative sums of a unit vector at c are 0 up to index c and 1 from there on. */
  lemma {:induction false} UnitPrefixSum(p: seq<real>, c: nat, j: nat)
    requires c < |p| && j <= |p|
    requires forall i :: 0 <= i < |p| ==> p[i] == if i == c then 1.0 else 0.0
    ensures Sum(p[..j]) == if j > c then 1.0 else 0.0
    decreases j
  {
    if j > 0 {
      assert p[..j][..j - 1] == p[..j - 1];
      UnitPrefixSum(p, c, j - 1);
    }
  }

  /**
   * A basis state, such as the one `measureAll` leaves behind or the fresh
   * |0…0⟩, has norm 1 and is measured as itself for every draw in [0, 1).
   */
  lemma BasisMeasuresItself(d: nat, c: nat, r: real)
    requires c < d && 0.0 <= r < 1.0
    ensures Sum(Probabilities(M.Basis(d, c))) == 1.0
    ensures Choose(Normalized(Probabilities(M.Basis(d, c)), 1.0), r) == c
  {
    var p := Probabilities(M.Basis(d, c));
    BasisNorm(d, c);
    NormalizedByOne(p);
    UnitChoose(p, c, r, 0);
  }

  /** The basis state |c⟩ has probability 1 at c and 0 elsewhere, summing to 1. */
  lemma BasisNorm(d: nat, c: nat)
    requires c < d
    ensures |Probabilities(M.Basis(d, c))| == d
    ensures forall j :: 0 <= j < d ==> Probabilities(M.Basis(d, c))[j] == if j == c then 1.0 else 0.0
    ensures Sum(Probabilities(M.Basis(d, c))) == 1.0
  {
    BasisProbabilities(d, c);
    var p := Probabilities(M.Basis(d, c));
    UnitPrefixSum(p, c, d);
    assert p[..d] == p;
  }

  lemma NormalizedByOne(p: seq<real>)
    ensures Normalized(p, 1.0) == p
  {
  }

  /** Scanning a unit vector at c from any index up to c stops exactly at c. */
  lemma {:induction false} UnitChoose(p: seq<real>, c: nat, r: real, i: nat)
    requires c < |p| && i <= c && 0.0 <= r < 1.0
    requires forall j :: 0 <= j < |p| ==> p[j] == if j == c then 1.0 else 0.0
    ensures ChooseFrom(p, r, i) == c
    decreases c - i
  {
    UnitPrefixSum(p, c, i + 1);
    if i < c {
      UnitChoose(p, c, r, i + 1);
    }
  }

  /** Distinct indices below 2^n have distinct bit strings. */
  lemma BitStringInjective(i: nat, j: nat, n: nat)
    requires i < Pow2(n) && j < Pow2(n) && BitString(i, n) == BitString(j, n)
    ensures i == j
  {
    forall q | 0 <= q < n
      ensures Bit(i, q) == Bit(j, q)
    {
      assert BitString(i, n)[q] == BitString(j, n)[q];
    }
    BitsDetermine(i, j, n);
  }

  /** The two bit classes split the norm: p0 + p1 is Σ |a_i|². */
  lemma {:induction false} BitProbTotal(a: seq<Complex>, q: nat)
    ensures BitProb(a, q, 0) + BitProb(a, q, 1) == Sum(Probabilities(a))
    decreases |a|
  {
    if |a| > 0 {
      var n := |a| - 1;
      assert Probabilities(a)[..n] == Probabilities(a[..n]);
      BitProbTotal(a[..n], q);
    }
  }

  /** Two non-negative-free shares of a non-zero total add up to 1 once divided by it. */
  lemma SharesOfTotal(x: real, y: real, t: real)
    requires t == x + y && t != 0.0
    ensures x / t + y / t == 1.0
  {
  }

  /** With shares summing to 1 and a draw in [0, 1), the sample is 0 exactly when r < p0, with positive probability. */
  lemma SampleOutcomeNormalised(p0: real, p1: real, r: real)
    requires p0 + p1 == 1.0 && 0.0 <= r < 1.0
    ensures SampleOutcome(p0, p1, r) == Ok((if r < p0 then 0 else 1, if r < p0 then p0 else p1))
    ensures SampleOutcome(p0, p1, r).value.1 > 0.0
  {
  }

  /**
   * With exact arithmetic and a draw r in [0, 1), `measureOne` on a state of
   * non-zero norm never reaches its degenerate branches: it returns 0 exactly
   * when r < p0, and the outcome it returns has positive probability.
   */
  lemma MeasureOneOutcome(a: seq<Complex>, q: nat, r: real)
    requires Sum(Probabilities(a)) != 0.0 && 0.0 <= r < 1.0
    ensures OneOutcome(a, q, r).Ok?
    ensures OneOutcome(a, q, r).value.0 == (if r < BitProb(a, q, 0) / Sum(Probabilities(a)) then 0 else 1)
    ensures OneOutcome(a, q, r).value.1 > 0.0
  {
    BitProbTotal(a, q);
    var p0, p1 := BitProb(a, q, 0), BitProb(a, q, 1);
    var total := p0 + p1;
    SharesOfTotal(p0, p1, total);
    SampleOutcomeNormalised(p0 / total, p1 / total, r);
  }

  /** After the collapse onto b, the other outcome has probability 0. */
  lemma {:induction false} CollapseClearsOther(a: seq<Complex>, q: nat, b: nat, k: real)
    requires b < 2
    ensures BitProb(Collapse(a, q, b, k), q, 1 - b) == 0.0
    decreases |a|
  {
    if |a| > 0 {
      var n := |a| - 1;
      assert Collapse(a, q, b, k)[..n] == Collapse(a[..n], q, b, k);
      CollapseClearsOther(a[..n], q, b, k);
    }
  }

  /** A state whose qubit q is certainly b is measured as b, with probability 1. */
  lemma OneOutcomeCertain(a: seq<Complex>, q: nat, b: nat, r: real)
    requires b < 2 && 0.0 <= r < 1.0
    requires BitProb(a, q, 1 - b) == 0.0 && Sum(Probabilities(a)) != 0.0
    ensures OneOutcome(a, q, r) == Ok((b, 1.0))
  {
    BitProbTotal(a, q);
    var pb := BitProb(a, q, b);
    SelfQuotient(pb);
    if b == 0 {
      assert BitProb(a, q, 1) == 0.0;
      assert pb + 0.0 == pb;
      SampleOutcomeNormalised(1.0, 0.0 / pb, r);
    } else {
      assert BitProb(a, q, 0) == 0.0;
      assert 0.0 + pb == pb;
      SampleOutcomeNormalised(0.0 / pb, 1.0, r);
    }
  }

  /** Measuring the same qubit again after a collapse onto b yields b with certainty. */
  lemma RemeasureAgrees(a: seq<Complex>, q: nat, b: nat, k: real, r: real)
    requires b < 2 && 0.0 <= r < 1.0
    requires Sum(Probabilities(Collapse(a, q, b, k))) != 0.0
    ensures OneOutcome(Collapse(a, q, b, k), q, r) == Ok((b, 1.0))
  {
    CollapseClearsOther(a, q, b, k);
    OneOutcomeCertain(Collapse(a, q, b, k), q, b, r);
  }
}
