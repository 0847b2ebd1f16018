/**
 * The labelled points of `setToCommonState`, checked against the gate library: the labels name
 * exactly the basis states and the images of |0⟩ under the gates that the labels abbreviate.
 */
module CommonStates {
  import opened Options
  import opened Trig
  import opened ComplexNumbers
  import opened QuantumOperations
  import opened QuantumStateContext

  /** X takes |0⟩ to |1⟩. */
  lemma PauliXKet0()
    ensures PauliX(Ket0) == Ket1
  {
  }

  /** "zero" and "|0⟩" give |0⟩ itself. */
  lemma NamedZeroIsKet0(m: MathLib)
    requires Lawful(m)
    ensures NamedAmplitudes(m, "zero") == NamedAmplitudes(m, "|0⟩") == Some(Ket0)
  {
    ZeroAngles(m);
    NorthPoleAmplitudes(m);
  }

  /** "one" gives |1⟩ (= X|0⟩, `PauliXKet0`). */
  lemma NamedOneIsKet1(m: MathLib)
    requires Lawful(m)
    ensures NamedAmplitudes(m, "one") == Some(Ket1)
  {
    OneAngles(m);
    SouthPoleAmplitudes(m);
  }

  /** θ = π, φ = 0 gives |1⟩, since cos(π/2) = 0 and sin(π/2) = 1. */
  lemma SouthPoleAmplitudes(m: MathLib)
    requires Lawful(m)
    ensures SphericalToAmplitudes(m, m.pi, 0.0) == Ket1
  {
    var half := m.pi / 2.0;
    SphericalToAmplitudesValue(m, m.pi, 0.0);
    assert m.cos(half) == 0.0 && m.sin(half) == 1.0;
    assert SphericalToAmplitudes(m, m.pi, 0.0).alpha == Complex(0.0, 0.0);
    assert SphericalToAmplitudes(m, m.pi, 0.0).beta == Complex(1.0 * 1.0, 1.0 * 0.0);
  }

  /** "plus" gives |+⟩ = H|0⟩. */
  lemma NamedPlusIsH(m: MathLib)
    requires Lawful(m)
    ensures NamedAmplitudes(m, "plus") == Some(Hadamard(m, Ket0))
  {
    PlusAngles(m);
    PlusPoint(m);
    HadamardKet0(m);
  }

  /** "minus" gives |−⟩ = H|1⟩. */
  lemma NamedMinusIsH1(m: MathLib)
    requires Lawful(m)
    ensures NamedAmplitudes(m, "minus") == Some(Hadamard(m, Ket1))
  {
    MinusAngles(m);
    MinusPoint(m);
    HadamardKet1(m);
  }

  /** "plusi" gives |+i⟩ = S·H|0⟩. */
  lemma NamedPlusIIsSH(m: MathLib)
    requires Lawful(m)
    ensures NamedAmplitudes(m, "plusi") == Some(SGate(Hadamard(m, Ket0)))
  {
    PlusIAngles(m);
    PlusIPoint(m);
    HadamardKet0(m);
    SGateOfRealPair(InvSqrt2(m));
  }

  /** "minusi" gives |−i⟩ = Z·S·H|0⟩. */
  lemma NamedMinusIIsZSH(m: MathLib)
    requires Lawful(m)
    ensures NamedAmplitudes(m, "minusi") == Some(PauliZ(SGate(Hadamard(m, Ket0))))
  {
    MinusIAngles(m);
    MinusIPoint(m);
    MinusIGates(m);
  }

  /** Z·S·H|0⟩ = (f, −i·f). */
  lemma MinusIGates(m: MathLib)
    requires Lawful(m)
    ensures PauliZ(SGate(Hadamard(m, Ket0))) == Amplitudes(Complex(InvSqrt2(m), 0.0), Complex(0.0, -InvSqrt2(m)))
  {
    HadamardKet0(m);
    ZSOfRealPair(InvSqrt2(m));
  }

  lemma ZSOfRealPair(f: real)
    ensures PauliZ(SGate(Amplitudes(Complex(f, 0.0), Complex(f, 0.0)))) == Amplitudes(Complex(f, 0.0), Complex(0.0, -f))
  {
  }

  /** Each ket label names the same point as its word label: the poles of the z axis, */
  lemma KetAliasesZ(m: MathLib)
    requires Lawful(m)
    ensures CommonStateAngles(m, "|0⟩") == CommonStateAngles(m, "zero")
    ensures CommonStateAngles(m, "|1⟩") == CommonStateAngles(m, "one")
  {
  }

  /** the poles of the x axis, */
  lemma KetAliasesX(m: MathLib)
    requires Lawful(m)
    ensures CommonStateAngles(m, "|+⟩") == CommonStateAngles(m, "plus")
    ensures CommonStateAngles(m, "|-⟩") == CommonStateAngles(m, "minus")
  {
  }

  /** and the poles of the y axis. */
  lemma KetAliasesY(m: MathLib)
    requires Lawful(m)
    ensures CommonStateAngles(m, "|+i⟩") == CommonStateAngles(m, "plusi")
    ensures CommonStateAngles(m, "|-i⟩") == CommonStateAngles(m, "minusi")
  {
  }

  // The labels' angles, each looked up once.

  lemma ZeroAngles(m: MathLib)
    requires Lawful(m)
    ensures NamedAmplitudes(m, "zero") == NamedAmplitudes(m, "|0⟩") == Some(SphericalToAmplitudes(m, 0.0, 0.0))
  {
    assert CommonStateAngles(m, "zero") == CommonStateAngles(m, "|0⟩") == Some(Spherical(0.0, 0.0));
  }

  lemma OneAngles(m: MathLib)
    requires Lawful(m)
    ensures NamedAmplitudes(m, "one") == Some(SphericalToAmplitudes(m, m.pi, 0.0))
  {
    assert CommonStateAngles(m, "one") == Some(Spherical(m.pi, 0.0));
  }

  lemma MinusAngles(m: MathLib)
    requires Lawful(m)
    ensures NamedAmplitudes(m, "minus") == Some(SphericalToAmplitudes(m, m.pi / 2.0, m.pi))
  {
    assert CommonStateAngles(m, "minus") == Some(Spherical(m.pi / 2.0, m.pi));
  }

  lemma PlusIAngles(m: MathLib)
    requires Lawful(m)
    ensures NamedAmplitudes(m, "plusi") == Some(SphericalToAmplitudes(m, m.pi / 2.0, m.pi / 2.0))
  {
    assert CommonStateAngles(m, "plusi") == Some(Spherical(m.pi / 2.0, m.pi / 2.0));
  }

  lemma PlusAngles(m: MathLib)
    requires Lawful(m)
    ensures NamedAmplitudes(m, "plus") == Some(SphericalToAmplitudes(m, m.pi / 2.0, 0.0))
  {
    assert CommonStateAngles(m, "plus") == Some(Spherical(m.pi / 2.0, 0.0));
  }

  lemma MinusIAngles(m: MathLib)
    requires Lawful(m)
    ensures NamedAmplitudes(m, "minusi") == Some(SphericalToAmplitudes(m, m.pi / 2.0, 3.0 * m.pi / 2.0))
  {
    assert CommonStateAngles(m, "minusi") == Some(Spherical(m.pi / 2.0, 3.0 * m.pi / 2.0));
  }

  /** (θ, φ) = (π/2, 3π/2) is the pair (f, −i·f). */
  lemma MinusIPoint(m: MathLib)
    requires Lawful(m)
    ensures SphericalToAmplitudes(m, m.pi / 2.0, 3.0 * m.pi / 2.0) == Amplitudes(Complex(InvSqrt2(m), 0.0), Complex(0.0, -InvSqrt2(m)))
  {
    EquatorAmplitude(m, 3.0 * m.pi / 2.0, 0.0, -1.0);
    ScaleUnits(InvSqrt2(m));
  }

  /** (θ, φ) = (π/2, 0) is the pair (f, f), f = 1/√2. */
  lemma PlusPoint(m: MathLib)
    requires Lawful(m)
    ensures SphericalToAmplitudes(m, m.pi / 2.0, 0.0) == Amplitudes(Complex(InvSqrt2(m), 0.0), Complex(InvSqrt2(m), 0.0))
  {
    EquatorAmplitude(m, 0.0, 1.0, 0.0);
    ScaleUnits(InvSqrt2(m));
  }

  /** (θ, φ) = (π/2, π) is the pair (f, −f). */
  lemma MinusPoint(m: MathLib)
    requires Lawful(m)
    ensures SphericalToAmplitudes(m, m.pi / 2.0, m.pi) == Amplitudes(Complex(InvSqrt2(m), 0.0), Complex(-InvSqrt2(m), 0.0))
  {
    EquatorAmplitude(m, m.pi, -1.0, 0.0);
    ScaleUnits(InvSqrt2(m));
  }

  /** (θ, φ) = (π/2, π/2) is the pair (f, i·f). */
  lemma PlusIPoint(m: MathLib)
    requires Lawful(m)
    ensures SphericalToAmplitudes(m, m.pi / 2.0, m.pi / 2.0) == Amplitudes(Complex(InvSqrt2(m), 0.0), Complex(0.0, InvSqrt2(m)))
  {
    EquatorAmplitude(m, m.pi / 2.0, 0.0, 1.0);
    ScaleUnits(InvSqrt2(m));
  }

  /**
   * On the equator (θ = π/2) both amplitudes have modulus cos(π/4) = 1/√2: the pair is
   * (f, f·cos φ + i·f·sin φ) with f the positive square root of one half.
   */
  lemma EquatorAmplitude(m: MathLib, phi: real, u: real, v: real)
    requires Lawful(m) && u == m.cos(phi) && v == m.sin(phi)
    ensures SphericalToAmplitudes(m, m.pi / 2.0, phi)
         == Amplitudes(Complex(InvSqrt2(m), 0.0), Complex(InvSqrt2(m) * u, InvSqrt2(m) * v))
  {
    var f := InvSqrt2(m);
    var c := QuarterTurnCos(m);
    SameHalfRoot(c, f);
    assert m.pi / 2.0 / 2.0 == m.pi / 4.0;
    SphericalToAmplitudesValue(m, m.pi / 2.0, phi);
  }

  lemma ScaleUnits(f: real)
    ensures f * 1.0 == f && f * 0.0 == 0.0 && f * -1.0 == -f
  {
  }

  /** S on the real pair (f, f) gives (f, i·f). */
  lemma SGateOfRealPair(f: real)
    ensures SGate(Amplitudes(Complex(f, 0.0), Complex(f, 0.0))) == Amplitudes(Complex(f, 0.0), Complex(0.0, f))
  {
  }

  /** H|0⟩ = (f, f) with f = 1/√2. */
  lemma HadamardKet0(m: MathLib)
    requires Lawful(m)
    ensures Hadamard(m, Ket0) == Amplitudes(Complex(InvSqrt2(m), 0.0), Complex(InvSqrt2(m), 0.0))
  {
    HadamardIsHalfSum(m, Ket0);
    HalfSumKet0(InvSqrt2(m));
  }

  /** H|1⟩ = (f, −f) with f = 1/√2. */
  lemma HadamardKet1(m: MathLib)
    requires Lawful(m)
    ensures Hadamard(m, Ket1) == Amplitudes(Complex(InvSqrt2(m), 0.0), Complex(-InvSqrt2(m), 0.0))
  {
    HadamardIsHalfSum(m, Ket1);
    HalfSumKet1(InvSqrt2(m));
  }

  /** The half sum and difference of |0⟩, for any factor. */
  lemma HalfSumKet0(f: real)
    ensures HalfSum(f, Ket0) == Amplitudes(Complex(f, 0.0), Complex(f, 0.0))
  {
    assert f * (1.0 + 0.0) == f && f * (1.0 - 0.0) == f;
    assert Ket0 == Amplitudes(Complex(1.0, 0.0), Complex(0.0, 0.0));
    HalfSumOfReals(f, 1.0, 0.0, f, f);
  }

  /** The half sum and difference of |1⟩, for any factor. */
  lemma HalfSumKet1(f: real)
    ensures HalfSum(f, Ket1) == Amplitudes(Complex(f, 0.0), Complex(-f, 0.0))
  {
    assert f * (0.0 + 1.0) == f && f * (0.0 - 1.0) == -f;
    assert Ket1 == Amplitudes(Complex(0.0, 0.0), Complex(1.0, 0.0));
    HalfSumOfReals(f, 0.0, 1.0, f, -f);
  }

  /** Two positive numbers whose squares are both one half are equal. */
  lemma SameHalfRoot(x: real, y: real)
    requires x > 0.0 && y > 0.0 && x * x == 0.5 && y * y == 0.5
    ensures x == y
  {
    assert (x - y) * (x + y) == 0.0;
  }
}
