/**
 * The gate library and the representation conversions of the utilities module: pure transforms
 * of an amplitude pair (α, β), each building a new pair, and a name-based dispatcher.
 */
module QuantumOperations {
  import opened Options
  import opened Trig
  import opened ComplexNumbers

  /** The state α|0⟩ + β|1⟩ as its two amplitudes. */
  datatype Amplitudes = Amplitudes(alpha: Complex, beta: Complex)

  /** A point given by its spherical angles (θ, φ). */
  datatype Spherical = Spherical(theta: real, phi: real)

  /** The x and y components of the Bloch vector. */
  datatype BlochXY = BlochXY(x: real, y: real)

  /** |α|² + |β|²: the total probability of the pair. */
  function Norm2(p: Amplitudes): (r: real)
    ensures r >= 0.0
  {
    NormSq(p.alpha) + NormSq(p.beta)
  }

  /** Both amplitudes multiplied by the same complex factor. */
  function ScalePair(k: Complex, p: Amplitudes): Amplitudes {
    Amplitudes(Mul(k, p.alpha), Mul(k, p.beta))
  }

  // ---------------------------------------------------------------------------------------------
  // Fixed gates
  // ---------------------------------------------------------------------------------------------

  /** Pauli-X, the bit flip: α and β trade places. */
  function PauliX(p: Amplitudes): Amplitudes {
    Amplitudes(p.beta, p.alpha)
  }

  /** Pauli-Y: (α, β) becomes (−i·β, i·α). */
  function PauliY(p: Amplitudes): Amplitudes {
    Amplitudes(Neg(TimesI(p.beta)), TimesI(p.alpha))
  }

  /** Pauli-Z, the phase flip: α is kept and β is negated. */
  function PauliZ(p: Amplitudes): Amplitudes {
    Amplitudes(p.alpha, Neg(p.beta))
  }

  /** Hadamard: ((α + β)/√2, (α − β)/√2). */
  function Hadamard(m: MathLib, p: Amplitudes): Amplitudes
    requires Lawful(m)
  {
    HalfSum(InvSqrt2(m), p)
  }

  /** The pair (f·(α + β), f·(α − β)); with f = 1/√2 it is the Hadamard image. */
  function HalfSum(f: real, p: Amplitudes): Amplitudes {
    Amplitudes(Scale(f, Add(p.alpha, p.beta)), Scale(f, Sub(p.alpha, p.beta)))
  }

  /** The half sum of two real amplitudes a, b is the real pair (f·(a + b), f·(a − b)). */
  lemma HalfSumOfReals(f: real, a: real, b: real, x: real, y: real)
    requires x == f * (a + b) && y == f * (a - b)
    ensures HalfSum(f, Amplitudes(Complex(a, 0.0), Complex(b, 0.0))) == Amplitudes(Complex(x, 0.0), Complex(y, 0.0))
  {
  }

  /** H is the half sum with the factor 1/√2. */
  lemma HadamardIsHalfSum(m: MathLib, p: Amplitudes)
    requires Lawful(m)
    ensures Hadamard(m, p) == HalfSum(InvSqrt2(m), p)
  {
  }

  /** With f² = 1/2 the half sum keeps the total probability. */
  lemma HalfSumNorm(f: real, p: Amplitudes)
    requires f * f == 0.5
    ensures Norm2(HalfSum(f, p)) == Norm2(p)
  {
    var r := HalfSum(f, p);
    var a, b, c, d := p.alpha.re, p.alpha.im, p.beta.re, p.beta.im;
    calc {
      Norm2(r);
      f * (a + c) * (f * (a + c)) + f * (b + d) * (f * (b + d))
        + f * (a - c) * (f * (a - c)) + f * (b - d) * (f * (b - d));
      (f * f) * (2.0 * (a * a + b * b + c * c + d * d));
      Norm2(p);
    }
  }

  /** The S (phase) gate: β is multiplied by i. */
  function SGate(p: Amplitudes): Amplitudes {
    Amplitudes(p.alpha, TimesI(p.beta))
  }

  /** e^(iπ/4) as `complex(Math.cos(Math.PI / 4), Math.sin(Math.PI / 4))`. */
  function TPhase(m: MathLib): (t: Complex)
    requires Lawful(m)
    ensures t.re == t.im && t.re * t.re == 0.5
    ensures NormSq(t) == 1.0
  {
    Complex(QuarterTurnCos(m), m.sin(m.pi / 4.0))
  }

  /** The T gate: β is multiplied by e^(iπ/4). */
  function TGate(m: MathLib, p: Amplitudes): Amplitudes
    requires Lawful(m)
  {
    Amplitudes(p.alpha, Mul(TPhase(m), p.beta))
  }

  // ---------------------------------------------------------------------------------------------
  // Rotations
  // ---------------------------------------------------------------------------------------------

  /** Rx(angle): with c, s the cosine and sine of angle/2, (c·α − i·s·β, −i·s·α + c·β). */
  function RotateX(m: MathLib, p: Amplitudes, angle: real): Amplitudes
    requires Lawful(m)
  {
    var c := m.cos(angle / 2.0);
    var s := m.sin(angle / 2.0);
    Amplitudes(
      Add(Scale(c, p.alpha), Neg(TimesI(Scale(s, p.beta)))),
      Add(Neg(TimesI(Scale(s, p.alpha))), Scale(c, p.beta)))
  }

  /** The squared lengths of the Rx-rotated pair, component by component. */
  lemma RotateXNorm(c: real, s: real, p: Amplitudes)
    requires c * c + s * s == 1.0
    ensures
      var a, b, e, d := p.alpha.re, p.alpha.im, p.beta.re, p.beta.im;
      Norm2(Amplitudes(Complex(c * a + s * d, c * b - s * e), Complex(c * e + s * b, c * d - s * a))) == Norm2(p)
  {
    var a, b, e, d := p.alpha.re, p.alpha.im, p.beta.re, p.beta.im;
    PlaneRotation(c, -s, a, d, c * a + s * d, c * d - s * a);
    PlaneRotation(c, -s, e, b, c * e + s * b, c * b - s * e);
  }

  /** c·z − i·s·w, and the same sum in the other order, component by component. */
  lemma MixedPart(c: real, s: real, z: Complex, w: Complex)
    ensures Add(Scale(c, z), Neg(TimesI(Scale(s, w)))) == Complex(c * z.re + s * w.im, c * z.im - s * w.re)
    ensures Add(Neg(TimesI(Scale(s, w))), Scale(c, z)) == Complex(c * z.re + s * w.im, c * z.im - s * w.re)
  {
  }

  /** A plane rotation by the angle whose cosine and sine are c and s keeps the squared length of (x, y). */
  lemma PlaneRotation(c: real, s: real, x: real, y: real, x': real, y': real)
    requires c * c + s * s == 1.0
    requires x' == c * x - s * y && y' == s * x + c * y
    ensures x' * x' + y' * y' == x * x + y * y
  {
    calc {
      x' * x' + y' * y';
      (c * x - s * y) * (c * x - s * y) + (s * x + c * y) * (s * x + c * y);
      (c * c + s * s) * (x * x + y * y);
    }
  }

  /** Ry(angle): with c, s the cosine and sine of angle/2, (c·α − s·β, s·α + c·β). */
  function RotateY(m: MathLib, p: Amplitudes, angle: real): Amplitudes
    requires Lawful(m)
  {
    var c := m.cos(angle / 2.0);
    var s := m.sin(angle / 2.0);
    Amplitudes(
      Sub(Scale(c, p.alpha), Scale(s, p.beta)),
      Add(Scale(s, p.alpha), Scale(c, p.beta)))
  }

  /** The squared lengths of the rotated pair, component by component. */
  lemma RotateYNorm(c: real, s: real, p: Amplitudes)
    requires c * c + s * s == 1.0
    ensures
      var a, b, e, d := p.alpha.re, p.alpha.im, p.beta.re, p.beta.im;
      Norm2(Amplitudes(Complex(c * a - s * e, c * b - s * d), Complex(s * a + c * e, s * b + c * d))) == Norm2(p)
  {
    var a, b, e, d := p.alpha.re, p.alpha.im, p.beta.re, p.beta.im;
    PlaneRotation(c, s, a, e, c * a - s * e, s * a + c * e);
    PlaneRotation(c, s, b, d, c * b - s * d, s * b + c * d);
  }

  /** c·z − s·w and s·z + c·w, component by component. */
  lemma RealPart(c: real, s: real, z: Complex, w: Complex)
    ensures Sub(Scale(c, z), Scale(s, w)) == Complex(c * z.re - s * w.re, c * z.im - s * w.im)
    ensures Add(Scale(s, z), Scale(c, w)) == Complex(s * z.re + c * w.re, s * z.im + c * w.im)
  {
  }

  /** Rz(angle): α is multiplied by e^(+i·angle/2) and β by e^(−i·angle/2). */
  function RotateZ(m: MathLib, p: Amplitudes, angle: real): Amplitudes
    requires Lawful(m)
  {
    var phase := Complex(m.cos(angle / 2.0), m.sin(angle / 2.0));
    var phaseConj := Complex(m.cos(angle / 2.0), -m.sin(angle / 2.0));
    Amplitudes(Mul(phase, p.alpha), Mul(phaseConj, p.beta))
  }

  /** (k·z)·z̄ = k·|z|². */
  lemma PhaseTimesConj(k: Complex, z: Complex)
    ensures Mul(Mul(k, z), Conj(z)) == Scale(NormSq(z), k)
  {
    ConjugateProductParts(k.re, k.im, z.re, z.im);
  }

  /** The two components of (k·z)·z̄ for k = a + bi and z = c + di. */
  lemma ConjugateProductParts(a: real, b: real, c: real, d: real)
    ensures (a * c - b * d) * c - (a * d + b * c) * -d == (c * c + d * d) * a
    ensures (a * c - b * d) * -d + (a * d + b * c) * c == (c * c + d * d) * b
  {
  }

  // ---------------------------------------------------------------------------------------------
  // Every gate keeps the total probability
  // ---------------------------------------------------------------------------------------------

  /** X trades the two probabilities. */
  lemma PauliXPreservesNorm(p: Amplitudes)
    ensures NormSq(PauliX(p).alpha) == NormSq(p.beta) && NormSq(PauliX(p).beta) == NormSq(p.alpha)
    ensures Norm2(PauliX(p)) == Norm2(p)
  {
  }

  /** Y trades the two probabilities. */
  lemma PauliYPreservesNorm(p: Amplitudes)
    ensures NormSq(PauliY(p).alpha) == NormSq(p.beta) && NormSq(PauliY(p).beta) == NormSq(p.alpha)
    ensures Norm2(PauliY(p)) == Norm2(p)
  {
  }

  /** Z keeps α and the modulus of β. */
  lemma PauliZPreservesNorm(p: Amplitudes)
    ensures PauliZ(p).alpha == p.alpha && NormSq(PauliZ(p).beta) == NormSq(p.beta)
    ensures Norm2(PauliZ(p)) == Norm2(p)
  {
  }

  /** H keeps the total probability, since (1/√2)² = 1/2. */
  lemma HadamardPreservesNorm(m: MathLib, p: Amplitudes)
    requires Lawful(m)
    ensures Norm2(Hadamard(m, p)) == Norm2(p)
  {
    HalfSumNorm(InvSqrt2(m), p);
  }

  /** S keeps α and the modulus of β. */
  lemma SGatePreservesNorm(p: Amplitudes)
    ensures SGate(p).alpha == p.alpha && NormSq(SGate(p).beta) == NormSq(p.beta)
    ensures Norm2(SGate(p)) == Norm2(p)
  {
  }

  /** T keeps α and the modulus of β, since |e^(iπ/4)| = 1. */
  lemma TGatePreservesNorm(m: MathLib, p: Amplitudes)
    requires Lawful(m)
    ensures TGate(m, p).alpha == p.alpha && NormSq(TGate(m, p).beta) == NormSq(p.beta)
    ensures Norm2(TGate(m, p)) == Norm2(p)
  {
    NormSqMul(TPhase(m), p.beta);
  }

  /** Rx keeps the total probability, since cos² + sin² = 1. */
  lemma RotateXPreservesNorm(m: MathLib, p: Amplitudes, angle: real)
    requires Lawful(m)
    ensures Norm2(RotateX(m, p, angle)) == Norm2(p)
  {
    var c, s := m.cos(angle / 2.0), m.sin(angle / 2.0);
    Pythagoras(m, angle / 2.0);
    RotateXNorm(c, s, p);
    MixedPart(c, s, p.alpha, p.beta);
    MixedPart(c, s, p.beta, p.alpha);
  }

  /** Ry keeps the total probability, since cos² + sin² = 1. */
  lemma RotateYPreservesNorm(m: MathLib, p: Amplitudes, angle: real)
    requires Lawful(m)
    ensures Norm2(RotateY(m, p, angle)) == Norm2(p)
  {
    var c, s := m.cos(angle / 2.0), m.sin(angle / 2.0);
    Pythagoras(m, angle / 2.0);
    RotateYNorm(c, s, p);
    RealPart(c, s, p.alpha, p.beta);
  }

  /**
   * Rz keeps the modulus of each amplitude, and turns α by +angle/2 and β by −angle/2:
   * Rz(α)·ᾱ = |α|²·e^(i·angle/2) and Rz(β)·β̄ = |β|²·e^(−i·angle/2).
   */
  lemma RotateZPreservesModuli(m: MathLib, p: Amplitudes, angle: real)
    requires Lawful(m)
    ensures NormSq(RotateZ(m, p, angle).alpha) == NormSq(p.alpha)
    ensures NormSq(RotateZ(m, p, angle).beta) == NormSq(p.beta)
    ensures Norm2(RotateZ(m, p, angle)) == Norm2(p)
    ensures Mul(RotateZ(m, p, angle).alpha, Conj(p.alpha))
         == Scale(NormSq(p.alpha), Complex(m.cos(angle / 2.0), m.sin(angle / 2.0)))
    ensures Mul(RotateZ(m, p, angle).beta, Conj(p.beta))
         == Scale(NormSq(p.beta), Complex(m.cos(angle / 2.0), -m.sin(angle / 2.0)))
  {
    var phase := Complex(m.cos(angle / 2.0), m.sin(angle / 2.0));
    var phaseConj := Complex(m.cos(angle / 2.0), -m.sin(angle / 2.0));
    Pythagoras(m, angle / 2.0);
    NormSqMul(phase, p.alpha);
    NormSqMul(phaseConj, p.beta);
    PhaseTimesConj(phase, p.alpha);
    PhaseTimesConj(phaseConj, p.beta);
  }

  // ---------------------------------------------------------------------------------------------
  // The dispatcher
  // ---------------------------------------------------------------------------------------------

  /** The gate names `applyGate` knows. */
  const GateNames: set<string> := {"X", "Y", "Z", "H", "S", "T", "Rx", "Ry", "Rz"}

  /**
   * `params.angle || Math.PI / 4`: an absent angle and an angle of 0 both fall back to π/4,
   * because JavaScript's `||` treats 0 as false.
   */
  function RotationAngle(m: MathLib, angle: Option<real>): (a: real)
    ensures angle == None || angle == Some(0.0) ==> a == m.pi / 4.0
    ensures angle.Some? && angle.value != 0.0 ==> a == angle.value
  {
    if angle.Some? && angle.value != 0.0 then angle.value else m.pi / 4.0
  }

  /**
   * `applyGate(gateName, alpha, beta, params)`: the named gate applied to the pair, or `None`
   * (the source's `null`) for a name outside `GateNames`. Every known gate keeps the total
   * probability.
   */
  function ApplyGate(m: MathLib, gateName: string, p: Amplitudes, angle: Option<real>): (r: Option<Amplitudes>)
    requires Lawful(m)
    ensures r.None? <==> gateName !in GateNames
  {
    if gateName == "X" then Some(PauliX(p))
    else if gateName == "Y" then Some(PauliY(p))
    else if gateName == "Z" then Some(PauliZ(p))
    else if gateName == "H" then Some(Hadamard(m, p))
    else if gateName == "S" then Some(SGate(p))
    else if gateName == "T" then Some(TGate(m, p))
    else if gateName == "Rx" then Some(RotateX(m, p, RotationAngle(m, angle)))
    else if gateName == "Ry" then Some(RotateY(m, p, RotationAngle(m, angle)))
    else if gateName == "Rz" then Some(RotateZ(m, p, RotationAngle(m, angle)))
    else None
  }

  /** Every gate the dispatcher knows keeps the total probability. */
  lemma ApplyGatePreservesNorm(m: MathLib, gateName: string, p: Amplitudes, angle: Option<real>)
    requires Lawful(m)
    ensures ApplyGate(m, gateName, p, angle).Some? ==> Norm2(ApplyGate(m, gateName, p, angle).value) == Norm2(p)
  {
    var a := RotationAngle(m, angle);
    if gateName == "X" {
      PauliXPreservesNorm(p);
    } else if gateName == "Y" {
      PauliYPreservesNorm(p);
    } else if gateName == "Z" {
      PauliZPreservesNorm(p);
    } else if gateName == "H" {
      HadamardPreservesNorm(m, p);
    } else if gateName == "S" {
      SGatePreservesNorm(p);
    } else if gateName == "T" {
      TGatePreservesNorm(m, p);
    } else if gateName == "Rx" {
      RotateXPreservesNorm(m, p, a);
    } else if gateName == "Ry" {
      RotateYPreservesNorm(m, p, a);
    } else if gateName == "Rz" {
      RotateZPreservesModuli(m, p, a);
    }
  }

  // ---------------------------------------------------------------------------------------------
  // Gate identities
  // ---------------------------------------------------------------------------------------------

  lemma PauliXInvolution(p: Amplitudes)
    ensures PauliX(PauliX(p)) == p
  {
  }

  lemma PauliYInvolution(p: Amplitudes)
    ensures PauliY(PauliY(p)) == p
  {
  }

  lemma PauliZInvolution(p: Amplitudes)
    ensures PauliZ(PauliZ(p)) == p
  {
  }

  /** H·H = I: the Hadamard gate undoes itself. */
  lemma {:induction false} HadamardInvolution(m: MathLib, p: Amplitudes)
    requires Lawful(m)
    ensures Hadamard(m, Hadamard(m, p)) == p
  {
    var f := InvSqrt2(m);
    assert Hadamard(m, p) == HalfSum(f, p);
    HalfSumInvolution(f, p);
    assert Hadamard(m, HalfSum(f, p)) == HalfSum(f, HalfSum(f, p));
  }

  lemma {:induction false} HalfSumInvolution(f: real, p: Amplitudes)
    requires f * f == 0.5
    ensures HalfSum(f, HalfSum(f, p)) == p
  {
    var g := HalfSum(f, HalfSum(f, p));
    HalfSumDiff(f, p.alpha.re, p.beta.re);
    HalfSumDiff(f, p.alpha.im, p.beta.im);
    assert g.alpha == p.alpha;
    assert g.beta == p.beta;
  }

  /** With f² = 1/2: f·(f(u+v) + f(u−v)) = u and f·(f(u+v) − f(u−v)) = v. */
  lemma HalfSumDiff(f: real, u: real, v: real)
    requires f * f == 0.5
    ensures f * (f * (u + v) + f * (u - v)) == u
    ensures f * (f * (u + v) - f * (u - v)) == v
  {
    assert f * (f * (u + v) + f * (u - v)) == 2.0 * (f * f) * u;
    assert f * (f * (u + v) - f * (u - v)) == 2.0 * (f * f) * v;
  }

  /** S·S = Z: two quarter turns of phase make the phase flip. */
  lemma SSquaredIsZ(p: Amplitudes)
    ensures SGate(SGate(p)) == PauliZ(p)
  {
  }

  /** T·T = S: two eighth turns of phase make a quarter turn. */
  lemma TSquaredIsS(m: MathLib, p: Amplitudes)
    requires Lawful(m)
    ensures TGate(m, TGate(m, p)) == SGate(p)
  {
    var t := TPhase(m);
    MulAssoc(t, t, p.beta);
    assert Mul(t, t) == Complex(t.re * t.re - t.im * t.im, 2.0 * (t.re * t.re)) == Complex(0.0, 1.0);
  }

  /** A rotation by 0 is the identity (the dispatcher never passes 0, see `RotationAngle`). */
  lemma RotateXByZero(m: MathLib, p: Amplitudes)
    requires Lawful(m)
    ensures RotateX(m, p, 0.0) == p
  {
    assert m.cos(0.0 / 2.0) == 1.0 && m.sin(0.0 / 2.0) == 0.0;
    ScaleByUnitAndZero(p.alpha);
    ScaleByUnitAndZero(p.beta);
    AddZero(p.alpha);
    AddZero(p.beta);
  }

  lemma ScaleByUnitAndZero(z: Complex)
    ensures Scale(1.0, z) == z
    ensures Neg(TimesI(Scale(0.0, z))) == Complex(0.0, 0.0)
  {
  }

  lemma AddZero(z: Complex)
    ensures Add(z, Complex(0.0, 0.0)) == z && Add(Complex(0.0, 0.0), z) == z
  {
  }

  lemma RotateYByZero(m: MathLib, p: Amplitudes)
    requires Lawful(m)
    ensures RotateY(m, p, 0.0) == p
  {
    assert m.cos(0.0 / 2.0) == 1.0 && m.sin(0.0 / 2.0) == 0.0;
  }

  lemma RotateZByZero(m: MathLib, p: Amplitudes)
    requires Lawful(m)
    ensures RotateZ(m, p, 0.0) == p
  {
    assert m.cos(0.0 / 2.0) == 1.0 && m.sin(0.0 / 2.0) == 0.0;
  }

  // ---------------------------------------------------------------------------------------------
  // Conversions
  // ---------------------------------------------------------------------------------------------

  /** |z| as `Math.sqrt(z.re*z.re + z.im*z.im)`: the non-negative root of |z|². */
  function Modulus(m: MathLib, z: Complex): (r: real)
    requires Lawful(m)
    ensures r >= 0.0 && r * r == NormSq(z)
  {
    SqrtLaw(m, NormSq(z));
    m.sqrt(NormSq(z))
  }

  /** A modulus is at most 1 exactly when its square is. */
  lemma ModulusAtMostOne(m: MathLib, z: Complex)
    requires Lawful(m) && NormSq(z) <= 1.0
    ensures Modulus(m, z) <= 1.0
  {
    var r := Modulus(m, z);
    if r > 1.0 {
      assert false;
    }
  }

  /**
   * `sphericalToAmplitudes(theta, phi)`: α = cos(θ/2) with no imaginary part and
   * β = sin(θ/2)·(cos φ + i·sin φ), a normalised pair.
   */
  function SphericalToAmplitudes(m: MathLib, theta: real, phi: real): Amplitudes
    requires Lawful(m)
  {
    var s := m.sin(theta / 2.0);
    Amplitudes(Complex(m.cos(theta / 2.0), 0.0), Complex(s * m.cos(phi), s * m.sin(phi)))
  }

  /** Every pair `SphericalToAmplitudes` builds is normalised, with a real α. */
  lemma SphericalToAmplitudesNormalized(m: MathLib, theta: real, phi: real)
    requires Lawful(m)
    ensures SphericalToAmplitudes(m, theta, phi).alpha.im == 0.0
    ensures Norm2(SphericalToAmplitudes(m, theta, phi)) == 1.0
  {
    var c, s := m.cos(theta / 2.0), m.sin(theta / 2.0);
    Pythagoras(m, theta / 2.0);
    Pythagoras(m, phi);
    PolarNorm(c, s, m.cos(phi), m.sin(phi));
  }

  /** The components of the pair `SphericalToAmplitudes` builds. */
  lemma SphericalToAmplitudesValue(m: MathLib, theta: real, phi: real)
    requires Lawful(m)
    ensures SphericalToAmplitudes(m, theta, phi).alpha == Complex(m.cos(theta / 2.0), 0.0)
    ensures SphericalToAmplitudes(m, theta, phi).beta
         == Complex(m.sin(theta / 2.0) * m.cos(phi), m.sin(theta / 2.0) * m.sin(phi))
  {
  }

  /** c² + (s·u)² + (s·v)² = 1 when c² + s² = 1 and u² + v² = 1. */
  lemma PolarNorm(c: real, s: real, u: real, v: real)
    requires c * c + s * s == 1.0 && u * u + v * v == 1.0
    ensures c * c + 0.0 * 0.0 + ((s * u) * (s * u) + (s * v) * (s * v)) == 1.0
  {
    calc {
      c * c + 0.0 * 0.0 + ((s * u) * (s * u) + (s * v) * (s * v));
      c * c + (s * s) * (u * u + v * v);
      c * c + s * s;
    }
  }

  /**
   * `blochToAmplitudes(x, y, z)`: the angles of the vector (θ = acos(z/r), φ = atan2(y, x) brought
   * into [0, 2π)) turned into amplitudes, giving a normalised pair with real α. The source divides
   * by the vector's length, so the zero vector is excluded.
   */
  function BlochToAmplitudes(m: MathLib, x: real, y: real, z: real): (r: Amplitudes)
    requires Lawful(m) && x * x + y * y + z * z != 0.0
    ensures r.alpha.im == 0.0
    ensures Norm2(r) == 1.0
    ensures exists theta, phi :: 0.0 <= phi < 2.0 * m.pi && r == SphericalToAmplitudes(m, theta, phi)
  {
    SqrtLaw(m, x * x + y * y + z * z);
    var len := m.sqrt(x * x + y * y + z * z);
    var theta := m.acos(z / len);
    var phi := WrapAngle(m, m.atan2(y, x));
    SphericalToAmplitudesNormalized(m, theta, phi);
    SphericalToAmplitudes(m, theta, phi)
  }

  /**
   * The x and y of `amplitudesToBloch(alpha, beta)`: x = 2·Re(ᾱβ), y = 2·Im(ᾱβ). Their squares add
   * up to 4·|α|²·|β|².
   */
  function AmplitudesToBloch(p: Amplitudes): (v: BlochXY)
    ensures v.x * v.x + v.y * v.y == 4.0 * (NormSq(p.alpha) * NormSq(p.beta))
  {
    var a, b, c, d := p.alpha.re, p.alpha.im, p.beta.re, p.beta.im;
    var v := BlochXY(2.0 * (a * c + b * d), 2.0 * (a * d - b * c));
    calc {
      v.x * v.x + v.y * v.y;
      4.0 * ((a * c + b * d) * (a * c + b * d) + (a * d - b * c) * (a * d - b * c));
      4.0 * ((a * a + b * b) * (c * c + d * d));
    }
    v
  }

  /** For a normalised pair the (x, y) part of the Bloch vector lies in the unit disc. */
  lemma BlochXYInUnitDisc(p: Amplitudes)
    requires Norm2(p) == 1.0
    ensures AmplitudesToBloch(p).x * AmplitudesToBloch(p).x + AmplitudesToBloch(p).y * AmplitudesToBloch(p).y <= 1.0
  {
    var u, w := NormSq(p.alpha), NormSq(p.beta);
    assert (u - w) * (u - w) >= 0.0;
    calc {
      4.0 * (u * w);
      (u + w) * (u + w) - (u - w) * (u - w);
    <=
      (u + w) * (u + w);
      1.0;
    }
  }

  /** Z turns the Bloch vector half way round the z axis: x and y change sign. */
  lemma PauliZTurnsBlochXY(p: Amplitudes)
    ensures AmplitudesToBloch(PauliZ(p)) == BlochXY(-AmplitudesToBloch(p).x, -AmplitudesToBloch(p).y)
  {
  }

  /** X turns the Bloch vector half way round the x axis: x is kept and y changes sign. */
  lemma PauliXTurnsBlochXY(p: Amplitudes)
    ensures AmplitudesToBloch(PauliX(p)) == BlochXY(AmplitudesToBloch(p).x, -AmplitudesToBloch(p).y)
  {
  }

  /**
   * The angle rule shared by `amplitudesToSpherical` and the amplitude setters of the state holder,
   * which differ only in `eps`: θ = 2·acos(|α|); φ = atan2(β.im, β.re) brought into [0, 2π), or 0
   * when |β| ≤ eps.
   */
  function PolarAngles(m: MathLib, p: Amplitudes, eps: real): (r: Spherical)
    requires Lawful(m)
    ensures 0.0 <= r.phi < 2.0 * m.pi
    ensures Modulus(m, p.beta) <= eps ==> r.phi == 0.0
    ensures Modulus(m, p.beta) > eps ==> r.phi == WrapAngle(m, m.atan2(p.beta.im, p.beta.re))
    ensures r.theta == 2.0 * m.acos(Modulus(m, p.alpha))
    ensures NormSq(p.alpha) <= 1.0 ==> 0.0 <= r.theta <= m.pi
  {
    var alphaAbs := Modulus(m, p.alpha);
    var betaAbs := Modulus(m, p.beta);
    var theta := 2.0 * m.acos(alphaAbs);
    var phi := if betaAbs > eps then WrapAngle(m, m.atan2(p.beta.im, p.beta.re)) else 0.0;
    if NormSq(p.alpha) <= 1.0 then ModulusAtMostOne(m, p.alpha); Spherical(theta, phi)
    else Spherical(theta, phi)
  }

  /** The angles depend on α only through |α|. */
  lemma PolarAnglesOfSameModuli(m: MathLib, p: Amplitudes, q: Amplitudes, eps: real)
    requires Lawful(m) && NormSq(p.alpha) == NormSq(q.alpha) && p.beta == q.beta
    ensures PolarAngles(m, p, eps) == PolarAngles(m, q, eps)
  {
    assert Modulus(m, p.alpha) == Modulus(m, q.alpha);
  }

  /**
   * `amplitudesToSpherical(alpha, beta)`: θ = 2·acos(|α|), in [0, π] when |α| ≤ 1; φ is the phase
   * of β brought into [0, 2π), or 0 when |β| ≤ 1e-5.
   */
  function AmplitudesToSpherical(m: MathLib, p: Amplitudes): (r: Spherical)
    requires Lawful(m)
    ensures 0.0 <= r.phi < 2.0 * m.pi
    ensures Modulus(m, p.beta) <= 0.00001 ==> r.phi == 0.0
    ensures Modulus(m, p.beta) > 0.00001 ==> r.phi == WrapAngle(m, m.atan2(p.beta.im, p.beta.re))
    ensures r.theta == 2.0 * m.acos(Modulus(m, p.alpha))
    ensures NormSq(p.alpha) <= 1.0 ==> 0.0 <= r.theta <= m.pi
  {
    PolarAngles(m, p, 0.00001)
  }
}
