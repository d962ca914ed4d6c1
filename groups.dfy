/**
 * The amplitude groups a k-qubit gate acts on. For target qubits (q0, q1),
 * the group of a basis index g is the four indices that agree with g outside
 * bits q0 and q1; member c of the group has bit q0 = c / 2 and bit q1 = c % 2,
 * so the local index follows ARGUMENT order whatever the bit positions are.
 * The three-qubit group is the same with local index (b0 << 2) | (b1 << 1) | b2.
 * A single-qubit group is {With(g, t, 0), With(g, t, 1)}.
 */
module AmplitudeGroups {
  import opened Bits

  // ---------------------------------------------------------------- two qubits

  /** Member c of the group of g for targets (q0, q1). */
  function Member2(g: nat, q0: nat, q1: nat, c: nat): nat
    requires c < 4
  {
    With(With(g, q0, c / 2), q1, c % 2)
  }

  /** The local index of g: (bit q0 << 1) | bit q1. */
  function Local2(g: nat, q0: nat, q1: nat): (k: nat)
    ensures k < 4
  {
    2 * Bit(g, q0) + Bit(g, q1)
  }

  /** The group member with both target bits clear, which the Java loop visits. */
  function Base2(g: nat, q0: nat, q1: nat): nat
  {
    Member2(g, q0, q1, 0)
  }

  /** Groups are closed: taking member k of the group of any member gives member k. */
  lemma Member2Member2(g: nat, q0: nat, q1: nat, j: nat, k: nat)
    requires q0 != q1 && j < 4 && k < 4
    ensures Member2(Member2(g, q0, q1, j), q0, q1, k) == Member2(g, q0, q1, k)
  {
    var x := With(g, q0, j / 2);
    WithCommutes(x, q1, j % 2, q0, k / 2);
    WithWith(g, q0, j / 2, k / 2);
    WithWith(With(g, q0, k / 2), q1, j % 2, k % 2);
  }

  /** g is the member of its own group at its local index. */
  lemma Member2Self(g: nat, q0: nat, q1: nat)
    requires q0 != q1
    ensures Member2(g, q0, q1, Local2(g, q0, q1)) == g
  {
    WithSame(g, q0);
    WithSame(g, q1);
  }

  /** Member 2x + y sets bit q0 to x and bit q1 to y. */
  lemma Member2Bits(g: nat, q0: nat, q1: nat, x: nat, y: nat)
    requires x < 2 && y < 2
    ensures Member2(g, q0, q1, 2 * x + y) == With(With(g, q0, x), q1, y)
  {
    assert (2 * x + y) / 2 == x && (2 * x + y) % 2 == y;
  }

  /** Member c sits at local index c. */
  lemma Local2Member2(g: nat, q0: nat, q1: nat, c: nat)
    requires q0 != q1 && c < 4
    ensures Local2(Member2(g, q0, q1, c), q0, q1) == c
  {
    BitWith(With(g, q0, c / 2), q1, c % 2, q0);
    BitWith(g, q0, c / 2, q0);
    BitWith(With(g, q0, c / 2), q1, c % 2, q1);
  }

  lemma Member2Bound(g: nat, q0: nat, q1: nat, c: nat, n: nat)
    requires c < 4 && g < Pow2(n) && q0 < n && q1 < n
    ensures Member2(g, q0, q1, c) < Pow2(n)
  {
    WithBound(g, q0, c / 2, n);
    WithBound(With(g, q0, c / 2), q1, c % 2, n);
  }

  /** Clearing bits never increases an index, so the base is the smallest member. */
  lemma Base2Below(g: nat, q0: nat, q1: nat)
    ensures Base2(g, q0, q1) <= g
  {
    WithArith(g, q0, 0);
    WithArith(With(g, q0, 0), q1, 0);
  }

  /**
   * The groups partition the indices: every index g lies in the group of the
   * base Base2(g), at local index Local2(g), and in the group of no other base.
   */
  lemma Groups2Partition(g: nat, q0: nat, q1: nat, b: nat, c: nat)
    requires q0 != q1 && c < 4
    ensures Member2(Base2(g, q0, q1), q0, q1, Local2(g, q0, q1)) == g
    ensures Base2(Base2(g, q0, q1), q0, q1) == Base2(g, q0, q1)
    ensures Base2(b, q0, q1) == b && Member2(b, q0, q1, c) == g ==>
      b == Base2(g, q0, q1) && c == Local2(g, q0, q1)
  {
    Member2Member2(g, q0, q1, 0, Local2(g, q0, q1));
    Member2Self(g, q0, q1);
    Member2Member2(g, q0, q1, 0, 0);
    Member2Member2(b, q0, q1, c, 0);
    Local2Member2(b, q0, q1, c);
  }

  // ---------------------------------------------------------------- three qubits

  /** Member c of the group of g for targets (q0, q1, q2): bits (c >> 2) & 1, (c >> 1) & 1, c & 1. */
  function Member3(g: nat, q0: nat, q1: nat, q2: nat, c: nat): nat
    requires c < 8
  {
    With(With(With(g, q0, (c / 4) % 2), q1, (c / 2) % 2), q2, c % 2)
  }

  /** The local index (b0 << 2) | (b1 << 1) | b2 of g. */
  function Local3(g: nat, q0: nat, q1: nat, q2: nat): (k: nat)
    ensures k < 8
  {
    4 * Bit(g, q0) + 2 * Bit(g, q1) + Bit(g, q2)
  }

  /** `g & ~maskAll`: g with the three target bits cleared. */
  function Base3(g: nat, q0: nat, q1: nat, q2: nat): nat
  {
    Member3(g, q0, q1, q2, 0)
  }

  /** Setting bit q0 of an index in which bits q1, q2 were set afterwards. */
  lemma WithPast2(x: nat, q0: nat, q1: nat, q2: nat, a: nat, b: nat, c: nat)
    requires q0 != q1 && q0 != q2 && a < 2 && b < 2 && c < 2
    ensures With(With(With(x, q1, a), q2, b), q0, c) == With(With(With(x, q0, c), q1, a), q2, b)
  {
    WithCommutes(With(x, q1, a), q2, b, q0, c);
    WithCommutes(x, q1, a, q0, c);
  }

  lemma Member3Member3(g: nat, q0: nat, q1: nat, q2: nat, j: nat, k: nat)
    requires q0 != q1 && q0 != q2 && q1 != q2 && j < 8 && k < 8
    ensures Member3(Member3(g, q0, q1, q2, j), q0, q1, q2, k) == Member3(g, q0, q1, q2, k)
  {
    var j0, j1, j2 := (j / 4) % 2, (j / 2) % 2, j % 2;
    var k0, k1, k2 := (k / 4) % 2, (k / 2) % 2, k % 2;
    var y := With(g, q0, j0);
    // move the second write to q0 inward and merge it with the first
    WithPast2(y, q0, q1, q2, j1, j2, k0);
    WithWith(g, q0, j0, k0);
    var z := With(g, q0, k0);
    // then the second write to q1
    WithCommutes(With(z, q1, j1), q2, j2, q1, k1);
    WithWith(z, q1, j1, k1);
    // then the second write to q2
    WithWith(With(z, q1, k1), q2, j2, k2);
  }

  /** Member 4x + 2y + z sets bit q0 to x, bit q1 to y and bit q2 to z. */
  lemma Member3Bits(g: nat, q0: nat, q1: nat, q2: nat, x: nat, y: nat, z: nat)
    requires x < 2 && y < 2 && z < 2
    ensures Member3(g, q0, q1, q2, 4 * x + 2 * y + z) == With(With(With(g, q0, x), q1, y), q2, z)
  {
    LocalDigits(x, y, z);
  }

  /** The three bits of the local index 4x + 2y + z are x, y and z. */
  lemma LocalDigits(x: nat, y: nat, z: nat)
    requires x < 2 && y < 2 && z < 2
    ensures ((4 * x + 2 * y + z) / 4) % 2 == x
    ensures ((4 * x + 2 * y + z) / 2) % 2 == y
    ensures (4 * x + 2 * y + z) % 2 == z
  {
    var c := 4 * x + 2 * y + z;
    if c == 0 { } else if c == 1 { } else if c == 2 { } else if c == 3 { }
    else if c == 4 { } else if c == 5 { } else if c == 6 { } else { assert c == 7; }
  }

  lemma Member3Self(g: nat, q0: nat, q1: nat, q2: nat)
    requires q0 != q1 && q0 != q2 && q1 != q2
    ensures Member3(g, q0, q1, q2, Local3(g, q0, q1, q2)) == g
  {
    var k := Local3(g, q0, q1, q2);
    assert (k / 4) % 2 == Bit(g, q0) && (k / 2) % 2 == Bit(g, q1) && k % 2 == Bit(g, q2);
    WithSame(g, q0);
    WithSame(g, q1);
    WithSame(g, q2);
  }

  lemma Local3Member3(g: nat, q0: nat, q1: nat, q2: nat, c: nat)
    requires q0 != q1 && q0 != q2 && q1 != q2 && c < 8
    ensures Local3(Member3(g, q0, q1, q2, c), q0, q1, q2) == c
  {
    var c0, c1, c2 := (c / 4) % 2, (c / 2) % 2, c % 2;
    var x := With(g, q0, c0);
    var y := With(x, q1, c1);
    BitWith(g, q0, c0, q0);
    BitWith(x, q1, c1, q0);
    BitWith(y, q2, c2, q0);
    BitWith(x, q1, c1, q1);
    BitWith(y, q2, c2, q1);
    BitWith(y, q2, c2, q2);
  }

  lemma Member3Bound(g: nat, q0: nat, q1: nat, q2: nat, c: nat, n: nat)
    requires c < 8 && g < Pow2(n) && q0 < n && q1 < n && q2 < n
    ensures Member3(g, q0, q1, q2, c) < Pow2(n)
  {
    WithBound(g, q0, (c / 4) % 2, n);
    WithBound(With(g, q0, (c / 4) % 2), q1, (c / 2) % 2, n);
    WithBound(With(With(g, q0, (c / 4) % 2), q1, (c / 2) % 2), q2, c % 2, n);
  }

  /** The three-qubit groups partition the indices in the same way. */
  lemma Groups3Partition(g: nat, q0: nat, q1: nat, q2: nat, b: nat, c: nat)
    requires q0 != q1 && q0 != q2 && q1 != q2 && c < 8
    ensures Member3(Base3(g, q0, q1, q2), q0, q1, q2, Local3(g, q0, q1, q2)) == g
    ensures Base3(b, q0, q1, q2) == b && Member3(b, q0, q1, q2, c) == g ==>
      b == Base3(g, q0, q1, q2) && c == Local3(g, q0, q1, q2)
  {
    Member3Member3(g, q0, q1, q2, 0, Local3(g, q0, q1, q2));
    Member3Self(g, q0, q1, q2);
    Member3Member3(b, q0, q1, q2, c, 0);
    Local3Member3(b, q0, q1, q2, c);
  }

  // ---------------------------------------------------------------- one qubit

  /** With(i, t, 1) is i's partner for an i whose bit t is clear, and both have base i. */
  lemma Pair1(i: nat, t: nat, g: nat)
    requires Bit(i, t) == 0
    ensures With(i, t, 0) == i && Bit(With(i, t, 1), t) == 1 && With(With(i, t, 1), t, 0) == i
    ensures With(g, t, 0) == i ==> g == i || g == With(i, t, 1)
  {
    WithSame(i, t);
    BitWith(i, t, 1, t);
    WithWith(i, t, 1, 0);
    WithSame(g, t);
    WithWith(g, t, 0, Bit(g, t));
  }

  lemma Base1Below(g: nat, t: nat)
    ensures With(g, t, 0) <= g
  {
    WithArith(g, t, 0);
  }
}
