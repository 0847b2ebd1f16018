/**
 * The state holder of the application: one record with the qubit (angles, amplitudes, Bloch
 * vector), the history of applied gates and the display settings. Every entry point replaces the
 * record with a new one, and the derived values are recomputed from θ and φ as that record is
 * committed. The read-only queries (probabilities, formatting) are functions of the record.
 */
module QuantumStateContext {
  import opened Options
  import opened Trig
  import opened ComplexNumbers
  import opened QuantumOperations

  /** The Bloch vector (x, y, z). */
  datatype BlochVector = BlochVector(x: real, y: real, z: real)

  function LengthSq(v: BlochVector): real {
    v.x * v.x + v.y * v.y + v.z * v.z
  }

  /**
   * The held record. The display flags (`showAxes`, `showGrid`, …) are the entries of `display`,
   * keyed by their names.
   */
  datatype QubitState = QubitState(
    theta: real,
    phi: real,
    alpha: Complex,
    beta: Complex,
    blochVector: BlochVector,
    gateHistory: seq<string>,
    display: map<string, bool>,
    sphereOpacity: real)

  /** The amplitudes of a record as a pair. */
  function Pair(s: QubitState): Amplitudes {
    Amplitudes(s.alpha, s.beta)
  }

  /** |0⟩: α = 1, β = 0. */
  const Ket0 := Amplitudes(Complex(1.0, 0.0), Complex(0.0, 0.0))

  /** |1⟩: α = 0, β = 1. */
  const Ket1 := Amplitudes(Complex(0.0, 0.0), Complex(1.0, 0.0))


  /** The display flags of the initial record. */
  const DefaultDisplay: map<string, bool> := map[
    "showAxes" := true,
    "showGrid" := true,
    "showEquator" := true,
    "showMeridians" := true,
    "showLabels" := true,
    "showAngleArcs" := true,
    "showVectorComponents" := false,
    "showWireframe" := true]

  /** `initialState`: |0⟩ at the north pole, no history, default flags, opacity 0.25. */
  const InitialState := QubitState(
    0.0, 0.0, Ket0.alpha, Ket0.beta, BlochVector(0.0, 0.0, 1.0), [], DefaultDisplay, 0.25)

  // ---------------------------------------------------------------------------------------------
  // The derived recompute
  // ---------------------------------------------------------------------------------------------

  /** The Bloch vector of the angles: (sin θ·cos φ, sin θ·sin φ, cos θ), a unit vector. */
  function BlochOf(m: MathLib, theta: real, phi: real): (v: BlochVector)
    requires Lawful(m)
    ensures LengthSq(v) == 1.0
  {
    Pythagoras(m, theta);
    Pythagoras(m, phi);
    PolarNorm(m.cos(theta), m.sin(theta), m.cos(phi), m.sin(phi));
    BlochVector(m.sin(theta) * m.cos(phi), m.sin(theta) * m.sin(phi), m.cos(theta))
  }

  /**
   * `updateDerivedValues`: the amplitudes and the Bloch vector recomputed from θ and φ, every
   * other field kept. The amplitudes are those of `sphericalToAmplitudes`; both they and the
   * Bloch vector are normalised, and the result is consistent.
   */
  function Derive(m: MathLib, s: QubitState): (r: QubitState)
    requires Lawful(m)
    ensures Consistent(m, r)
    ensures Norm2(Pair(r)) == 1.0 && r.alpha.im == 0.0
    ensures LengthSq(r.blochVector) == 1.0
    ensures r.theta == s.theta && r.phi == s.phi
    ensures r.gateHistory == s.gateHistory && r.display == s.display && r.sphereOpacity == s.sphereOpacity
  {
    SphericalToAmplitudesNormalized(m, s.theta, s.phi);
    var amplitudes := SphericalToAmplitudes(m, s.theta, s.phi);
    s.(alpha := amplitudes.alpha, beta := amplitudes.beta, blochVector := BlochOf(m, s.theta, s.phi))
  }

  /** A record whose amplitudes and Bloch vector are the ones its angles give. */
  ghost predicate Consistent(m: MathLib, s: QubitState)
    requires Lawful(m)
  {
    Pair(s) == SphericalToAmplitudes(m, s.theta, s.phi) && s.blochVector == BlochOf(m, s.theta, s.phi)
  }

  /** The initial record is consistent: |0⟩ and (0, 0, 1) are the amplitudes and vector of θ = φ = 0. */
  lemma InitialStateIsConsistent(m: MathLib)
    requires Lawful(m)
    ensures Consistent(m, InitialState)
  {
    NorthPoleAmplitudes(m);
    NorthPoleVector(m);
  }

  /** θ = φ = 0 gives the amplitudes of |0⟩. */
  lemma NorthPoleAmplitudes(m: MathLib)
    requires Lawful(m)
    ensures SphericalToAmplitudes(m, 0.0, 0.0) == Ket0
  {
    assert 0.0 / 2.0 == 0.0;
  }

  /** θ = φ = 0 gives the vector (0, 0, 1). */
  lemma NorthPoleVector(m: MathLib)
    requires Lawful(m)
    ensures BlochOf(m, 0.0, 0.0) == BlochVector(0.0, 0.0, 1.0)
  {
  }

  // ---------------------------------------------------------------------------------------------
  // Normalisation and the angles of the amplitude setters
  // ---------------------------------------------------------------------------------------------

  /** Both amplitudes multiplied by the real number k. */
  function ScaleBy(k: real, p: Amplitudes): Amplitudes {
    Amplitudes(Scale(k, p.alpha), Scale(k, p.beta))
  }

  /** `normFactor`, √(|α|² + |β|²): a positive number whose square is the total probability. */
  function NormFactor(m: MathLib, p: Amplitudes): (n: real)
    requires Lawful(m) && Norm2(p) > 0.0
    ensures n > 0.0 && n * n == Norm2(p)
  {
    SqrtPositive(m, Norm2(p));
    SqrtLaw(m, Norm2(p));
    m.sqrt(Norm2(p))
  }

  /** Every component divided by n. */
  function DivideBy(n: real, p: Amplitudes): Amplitudes
    requires n != 0.0
  {
    Amplitudes(Complex(p.alpha.re / n, p.alpha.im / n), Complex(p.beta.re / n, p.beta.im / n))
  }

  /**
   * The normalised pair of the amplitude setters: every component divided by the norm. The result
   * has total probability 1, and scaling it back by the norm gives the input.
   */
  function NormalizeAmplitudes(m: MathLib, p: Amplitudes): (r: Amplitudes)
    requires Lawful(m) && Norm2(p) > 0.0
    ensures Norm2(r) == 1.0
    ensures ScaleBy(NormFactor(m, p), r) == p
  {
    var n := NormFactor(m, p);
    DivideByNorm(n, p);
    DivideBy(n, p)
  }

  /** Dividing by a norm n with n² = |α|² + |β|² leaves total probability 1 and is undone by n. */
  lemma DivideByNorm(n: real, p: Amplitudes)
    requires n > 0.0 && n * n == Norm2(p) && Norm2(p) > 0.0
    ensures Norm2(DivideBy(n, p)) == 1.0
    ensures ScaleBy(n, DivideBy(n, p)) == p
  {
    ScaleByUndoesDivideBy(n, p);
    UnitNormBeforeScaling(n, DivideBy(n, p), p);
  }

  /** If n·r = p and n² = |p|², then r has total probability 1. */
  lemma UnitNormBeforeScaling(n: real, r: Amplitudes, p: Amplitudes)
    requires n > 0.0 && ScaleBy(n, r) == p && n * n == Norm2(p) && Norm2(p) > 0.0
    ensures Norm2(r) == 1.0
  {
    Norm2ScaleBy(n, r);
    CancelFactor(n * n, Norm2(r), Norm2(p));
  }

  lemma ScaleByUndoesDivideBy(n: real, p: Amplitudes)
    requires n != 0.0
    ensures ScaleBy(n, DivideBy(n, p)) == p
  {
    var r := DivideBy(n, p);
    TimesQuotient(n, p.alpha.re);
    TimesQuotient(n, p.alpha.im);
    TimesQuotient(n, p.beta.re);
    TimesQuotient(n, p.beta.im);
    assert Scale(n, r.alpha) == p.alpha;
    assert Scale(n, r.beta) == p.beta;
  }

  lemma TimesQuotient(n: real, x: real)
    requires n != 0.0
    ensures n * (x / n) == x
  {
  }

  /** Scaling both amplitudes by k scales the total probability by k². */
  lemma Norm2ScaleBy(k: real, p: Amplitudes)
    ensures Norm2(ScaleBy(k, p)) == (k * k) * Norm2(p)
  {
    NormSqScale(k, p.alpha);
    NormSqScale(k, p.beta);
  }

  lemma NormSqScale(k: real, z: Complex)
    ensures NormSq(Scale(k, z)) == (k * k) * NormSq(z)
  {
  }

  /** With N = Y > 0 and N·X = Y, X is 1. */
  lemma CancelFactor(n: real, x: real, y: real)
    requires n == y && y > 0.0 && n * x == y
    ensures x == 1.0
  {
    Substitute(n, x, y);
    UnitFactor(n, x);
  }

  lemma Substitute(n: real, x: real, y: real)
    requires n == y && n * x == y
    ensures n * x == n
  {
  }

  lemma UnitFactor(n: real, x: real)
    requires n > 0.0 && n * x == n
    ensures x == 1.0
  {
    assert n * (x - 1.0) == 0.0;
  }

  /** Division by a non-zero number has one answer: R·n = L gives L / n = R. */
  lemma DivUnique(l: real, r: real, n: real)
    requires n != 0.0 && r * n == l
    ensures l / n == r
  {
  }

  /** The `r1 > 0.0001` threshold below which the setters take φ = 0. */
  const AmplitudeEpsilon: real := 0.0001

  /**
   * The angles the amplitude setters compute, AS WRITTEN: θ = 2·acos(|α'|) and φ the phase of β'
   * alone (0 when |β'| ≤ 1e-4), where (α', β') is the normalised pair. The phase of α' is ignored;
   * see `AmplitudeAnglesMergeStates`.
   */
  function AmplitudeAngles(m: MathLib, p: Amplitudes): (r: Spherical)
    requires Lawful(m) && Norm2(p) > 0.0
    ensures 0.0 <= r.theta <= m.pi && 0.0 <= r.phi < 2.0 * m.pi
    ensures Modulus(m, NormalizeAmplitudes(m, p).beta) <= AmplitudeEpsilon ==> r.phi == 0.0
    ensures Modulus(m, NormalizeAmplitudes(m, p).beta) > AmplitudeEpsilon ==>
      r.phi == WrapAngle(m, m.atan2(NormalizeAmplitudes(m, p).beta.im, NormalizeAmplitudes(m, p).beta.re))
  {
    PolarAngles(m, NormalizeAmplitudes(m, p), AmplitudeEpsilon)
  }

  /** ᾱ·β: the phase of β relative to α, which no global phase changes. */
  function RelativePhase(p: Amplitudes): Complex {
    Mul(Conj(p.alpha), p.beta)
  }

  /**
   * The corrected angle rule: θ as before, and φ the phase of ᾱ'·β' (0 when |β'| ≤ 1e-4), so that
   * the angles describe the state |ψ⟩ = cos(θ/2)|0⟩ + e^(iφ)·sin(θ/2)|1⟩ up to a global phase.
   */
  function RelativePhaseAngles(m: MathLib, p: Amplitudes): (r: Spherical)
    requires Lawful(m) && Norm2(p) > 0.0
    ensures 0.0 <= r.theta <= m.pi && 0.0 <= r.phi < 2.0 * m.pi
    ensures r.theta == AmplitudeAngles(m, p).theta
    ensures Modulus(m, NormalizeAmplitudes(m, p).beta) <= AmplitudeEpsilon ==> r.phi == 0.0
    ensures Modulus(m, NormalizeAmplitudes(m, p).beta) > AmplitudeEpsilon ==>
      r.phi == WrapAngle(m, m.atan2(RelativePhase(NormalizeAmplitudes(m, p)).im, RelativePhase(NormalizeAmplitudes(m, p)).re))
  {
    var q := NormalizeAmplitudes(m, p);
    var w := RelativePhase(q);
    var angles := PolarAngles(m, q, AmplitudeEpsilon);
    var phi := if Modulus(m, q.beta) > AmplitudeEpsilon then WrapAngle(m, m.atan2(w.im, w.re)) else 0.0;
    Spherical(angles.theta, phi)
  }

  /** (k·α)‾·(k·β) = |k|²·ᾱβ. */
  lemma RelativePhaseOfScaled(k: Complex, p: Amplitudes)
    ensures RelativePhase(ScalePair(k, p)) == Scale(NormSq(k), RelativePhase(p))
  {
    var s := ScalePair(k, p);
    assert s.alpha == Mul(k, p.alpha) && s.beta == Mul(k, p.beta);
    ConjugateOfScaled(k, p.alpha, p.beta);
  }

  /** Normalising commutes with a global phase of modulus 1. */
  lemma NormalizeScaled(m: MathLib, k: Complex, p: Amplitudes)
    requires Lawful(m) && Norm2(p) > 0.0 && NormSq(k) == 1.0
    ensures Norm2(ScalePair(k, p)) == Norm2(p)
    ensures NormalizeAmplitudes(m, ScalePair(k, p)) == ScalePair(k, NormalizeAmplitudes(m, p))
  {
    NormSqMul(k, p.alpha);
    NormSqMul(k, p.beta);
    var n := NormFactor(m, p);
    assert NormFactor(m, ScalePair(k, p)) == n;
    NormalizeIsDivide(m, p);
    NormalizeIsDivide(m, ScalePair(k, p));
    DivideScaled(k, p, n);
  }

  /** The normalised pair is the pair divided by its norm. */
  lemma NormalizeIsDivide(m: MathLib, p: Amplitudes)
    requires Lawful(m) && Norm2(p) > 0.0
    ensures NormalizeAmplitudes(m, p) == DivideBy(NormFactor(m, p), p)
  {
  }

  /** Dividing by n commutes with multiplying by k. */
  lemma DivideScaled(k: Complex, p: Amplitudes, n: real)
    requires n != 0.0
    ensures DivideBy(n, ScalePair(k, p)) == ScalePair(k, DivideBy(n, p))
  {
    var q := DivideBy(n, p);
    ScaleByUndoesDivideBy(n, p);
    ScaleCommutes(n, k, q);
    ScaleByUnique(n, ScalePair(k, q), ScalePair(k, p));
  }

  /** A real factor n and a complex factor k can be applied in either order. */
  lemma ScaleCommutes(n: real, k: Complex, q: Amplitudes)
    ensures ScaleBy(n, ScalePair(k, q)) == ScalePair(k, ScaleBy(n, q))
  {
    RealFactorCommutes(n, k, q.alpha);
    RealFactorCommutes(n, k, q.beta);
  }

  /** Multiplying by a real n and by a complex k commute. */
  lemma RealFactorCommutes(n: real, k: Complex, z: Complex)
    ensures Scale(n, Mul(k, z)) == Mul(k, Scale(n, z))
  {
    ScaleCommutesParts(n, k.re, k.im, z.re, z.im);
  }

  lemma ScaleCommutesParts(n: real, x: real, y: real, a: real, b: real)
    ensures n * (x * a - y * b) == x * (n * a) - y * (n * b)
    ensures n * (x * b + y * a) == x * (n * b) + y * (n * a)
  {
  }

  /** The only pair that n scales to s is s / n. */
  lemma ScaleByUnique(n: real, q: Amplitudes, s: Amplitudes)
    requires n != 0.0 && ScaleBy(n, q) == s
    ensures q == DivideBy(n, s)
  {
    DivUnique(s.alpha.re, q.alpha.re, n);
    DivUnique(s.alpha.im, q.alpha.im, n);
    DivUnique(s.beta.re, q.beta.re, n);
    DivUnique(s.beta.im, q.beta.im, n);
  }

  /**
   * The property the corrected rule has: multiplying both amplitudes by the same phase e^(iγ)
   * (any k with |k| = 1) does not change the angles.
   */
  lemma {:induction false} RelativePhaseAnglesIgnoreGlobalPhase(m: MathLib, k: Complex, p: Amplitudes)
    requires Lawful(m) && Norm2(p) > 0.0 && NormSq(k) == 1.0
    ensures Norm2(ScalePair(k, p)) > 0.0
    ensures RelativePhaseAngles(m, ScalePair(k, p)) == RelativePhaseAngles(m, p)
  {
    NormalizeScaled(m, k, p);
    var q := NormalizeAmplitudes(m, p);
    var kq := ScalePair(k, q);
    NormSqMul(k, q.alpha);
    NormSqMul(k, q.beta);
    assert Modulus(m, kq.alpha) == Modulus(m, q.alpha);
    assert Modulus(m, kq.beta) == Modulus(m, q.beta);
    RelativePhaseOfScaled(k, q);
    assert Scale(1.0, RelativePhase(q)) == RelativePhase(q);
  }

  /** |+⟩ = (1/√2, 1/√2). */
  function PlusPair(m: MathLib): Amplitudes
    requires Lawful(m)
  {
    Amplitudes(Complex(InvSqrt2(m), 0.0), Complex(InvSqrt2(m), 0.0))
  }

  /** |+i⟩ = (1/√2, i/√2). */
  function PlusIPair(m: MathLib): Amplitudes
    requires Lawful(m)
  {
    Amplitudes(Complex(InvSqrt2(m), 0.0), Complex(0.0, InvSqrt2(m)))
  }

  /** (i/√2, 1/√2) = i·|−i⟩: |−i⟩ = (1/√2, −i/√2) times the global phase i. */
  function PhasedMinusIPair(m: MathLib): Amplitudes
    requires Lawful(m)
  {
    Amplitudes(Complex(0.0, InvSqrt2(m)), Complex(InvSqrt2(m), 0.0))
  }

  /** Pauli-X takes |+i⟩ to i·|−i⟩. */
  lemma PauliXOfPlusI(m: MathLib)
    requires Lawful(m)
    ensures PauliX(PlusIPair(m)) == PhasedMinusIPair(m)
  {
  }

  /**
   * The rule as written gives |+⟩ and i·|−i⟩ the same angles, although no global phase turns one
   * into the other: the pair X produces from |+i⟩ is displayed as |+⟩ instead of |−i⟩.
   */
  lemma AmplitudeAnglesMergeStates(m: MathLib)
    requires Lawful(m)
    ensures Norm2(PlusPair(m)) > 0.0 && Norm2(PhasedMinusIPair(m)) > 0.0
    ensures AmplitudeAngles(m, PhasedMinusIPair(m)) == AmplitudeAngles(m, PlusPair(m))
    ensures forall k :: ScalePair(k, PlusPair(m)) != PhasedMinusIPair(m)
  {
    var h := InvSqrt2(m);
    ExampleNorms(m);
    UnitPairIsNormalized(m, PlusPair(m));
    UnitPairIsNormalized(m, PhasedMinusIPair(m));
    UnitPhaseModulus(h);
    PolarAnglesOfSameModuli(m, PlusPair(m), PhasedMinusIPair(m), AmplitudeEpsilon);
    forall k ensures ScalePair(k, PlusPair(m)) != PhasedMinusIPair(m) {
      var s := ScalePair(k, PlusPair(m));
      assert s.alpha == s.beta;
    }
  }

  /** Both examples have total probability 1. */
  lemma ExampleNorms(m: MathLib)
    requires Lawful(m)
    ensures Norm2(PlusPair(m)) == 1.0 && Norm2(PhasedMinusIPair(m)) == 1.0
  {
    var h := InvSqrt2(m);
    assert NormSq(Complex(h, 0.0)) == 0.5;
    assert NormSq(Complex(0.0, h)) == 0.5;
  }

  /** Normalising a pair of total probability 1 changes nothing. */
  lemma UnitPairIsNormalized(m: MathLib, p: Amplitudes)
    requires Lawful(m) && Norm2(p) == 1.0
    ensures NormalizeAmplitudes(m, p) == p
  {
    var n := NormFactor(m, p);
    UnitRoot(n);
    NormalizeIsDivide(m, p);
  }

  /** The positive square root of 1 is 1. */
  lemma UnitRoot(n: real)
    requires n > 0.0 && n * n == 1.0
    ensures n == 1.0
  {
    assert (n - 1.0) * (n + 1.0) == 0.0;
  }

  /** h and i·h have the same modulus. */
  lemma UnitPhaseModulus(h: real)
    ensures NormSq(Complex(h, 0.0)) == NormSq(Complex(0.0, h))
  {
  }

  /** The corrected rule tells the two apart: φ = 0 for |+⟩ and φ = 3π/2, the φ of |−i⟩, for i·|−i⟩. */
  lemma RelativePhaseAnglesSeparateStates(m: MathLib)
    requires Lawful(m)
    ensures Norm2(PlusPair(m)) > 0.0 && Norm2(PhasedMinusIPair(m)) > 0.0
    ensures RelativePhaseAngles(m, PlusPair(m)).phi == 0.0
    ensures RelativePhaseAngles(m, PhasedMinusIPair(m)).phi == 3.0 * m.pi / 2.0
    ensures AmplitudeAngles(m, PhasedMinusIPair(m)).phi == 0.0
  {
    var h := InvSqrt2(m);
    ExampleNorms(m);
    UnitPairIsNormalized(m, PlusPair(m));
    UnitPairIsNormalized(m, PhasedMinusIPair(m));
    HalfModulus(m, Complex(h, 0.0));
    RelativePhaseExamples(h);
    assert m.atan2(0.0, 0.5) == 0.0;
    assert m.atan2(-0.5, 0.0) == -m.pi / 2.0;
    assert m.atan2(0.0, h) == 0.0;
  }

  /** ᾱβ for the two examples. */
  lemma RelativePhaseExamples(h: real)
    requires h * h == 0.5
    ensures RelativePhase(Amplitudes(Complex(h, 0.0), Complex(h, 0.0))) == Complex(0.5, 0.0)
    ensures RelativePhase(Amplitudes(Complex(0.0, h), Complex(h, 0.0))) == Complex(0.0, -0.5)
  {
  }

  /** A complex number with |z|² = 1/2 lies above the setters' threshold. */
  lemma HalfModulus(m: MathLib, z: Complex)
    requires Lawful(m) && NormSq(z) == 0.5
    ensures Modulus(m, z) > AmplitudeEpsilon
  {
    var r := Modulus(m, z);
    if r <= AmplitudeEpsilon {
      SmallSquare(r);
      assert false;
    }
  }

  lemma SmallSquare(r: real)
    requires 0.0 <= r <= 0.0001
    ensures r * r <= 0.00000001
  {
    assert r * r <= 0.0001 * r;
  }

  // ---------------------------------------------------------------------------------------------
  // The records the entry points commit
  // ---------------------------------------------------------------------------------------------

  /** `gateName ? [...prev.gateHistory, gateName] : prev.gateHistory`; the empty name is falsy. */
  function LogGate(history: seq<string>, gateName: string): (r: seq<string>)
    ensures gateName != "" ==> r == history + [gateName]
    ensures gateName == "" ==> r == history
  {
    if gateName != "" then history + [gateName] else history
  }

  /**
   * The record committed by the amplitude setters: the angles of `AmplitudeAngles` (the rule as
   * the setters write it), the gate name logged when it is not empty, the derived values
   * recomputed, nothing else changed.
   */
  function AmplitudeCommit(m: MathLib, s: QubitState, p: Amplitudes, gateName: string): (r: QubitState)
    requires Lawful(m) && Norm2(p) > 0.0
    ensures Consistent(m, r)
    ensures Norm2(Pair(r)) == 1.0 && LengthSq(r.blochVector) == 1.0
    ensures 0.0 <= r.theta <= m.pi && 0.0 <= r.phi < 2.0 * m.pi
    ensures r.theta == AmplitudeAngles(m, p).theta && r.phi == AmplitudeAngles(m, p).phi
    ensures |r.gateHistory| == |s.gateHistory| + (if gateName == "" then 0 else 1)
    ensures r.gateHistory[..|s.gateHistory|] == s.gateHistory
    ensures gateName != "" ==> r.gateHistory[|s.gateHistory|] == gateName
    ensures r.display == s.display && r.sphereOpacity == s.sphereOpacity
  {
    var angles := AmplitudeAngles(m, p);
    Derive(m, s.(theta := angles.theta, phi := angles.phi, gateHistory := LogGate(s.gateHistory, gateName)))
  }

  /**
   * What the setters do with the pair X·|+i⟩ = i·|−i⟩: they commit the very record they commit for
   * |+⟩, with φ = 0.
   */
  lemma CommitMergesStates(m: MathLib, s: QubitState, gateName: string)
    requires Lawful(m)
    ensures Norm2(PlusPair(m)) > 0.0 && Norm2(PhasedMinusIPair(m)) > 0.0
    ensures AmplitudeCommit(m, s, PhasedMinusIPair(m), gateName) == AmplitudeCommit(m, s, PlusPair(m), gateName)
    ensures AmplitudeCommit(m, s, PhasedMinusIPair(m), gateName).phi == 0.0
  {
    AmplitudeAnglesMergeStates(m);
    RelativePhaseAnglesSeparateStates(m);
  }

  /**
   * `setToCommonState`: each label and its ket alias name a fixed (θ, φ); an unknown label names
   * nothing. Every named point lies in θ ∈ [0, π], φ ∈ [0, 2π).
   */
  function CommonStateAngles(m: MathLib, stateName: string): (r: Option<Spherical>)
    requires Lawful(m)
    ensures r.Some? <==> stateName in CommonStateNames
    ensures r.Some? ==> 0.0 <= r.value.theta <= m.pi && 0.0 <= r.value.phi < 2.0 * m.pi
  {
    if stateName == "|0⟩" || stateName == "zero" then Some(Spherical(0.0, 0.0))
    else if stateName == "|1⟩" || stateName == "one" then Some(Spherical(m.pi, 0.0))
    else if stateName == "|+⟩" || stateName == "plus" then Some(Spherical(m.pi / 2.0, 0.0))
    else if stateName == "|-⟩" || stateName == "minus" then Some(Spherical(m.pi / 2.0, m.pi))
    else if stateName == "|+i⟩" || stateName == "plusi" then Some(Spherical(m.pi / 2.0, m.pi / 2.0))
    else if stateName == "|-i⟩" || stateName == "minusi" then Some(Spherical(m.pi / 2.0, 3.0 * m.pi / 2.0))
    else None
  }

  /** The labels `setToCommonState` knows. */
  const CommonStateNames: set<string> := {
    "|0⟩", "zero", "|1⟩", "one", "|+⟩", "plus", "|-⟩", "minus", "|+i⟩", "plusi", "|-i⟩", "minusi"}

  /** The amplitudes of a named state, as the derived recompute produces them. */
  function NamedAmplitudes(m: MathLib, stateName: string): Option<Amplitudes>
    requires Lawful(m)
  {
    var angles := CommonStateAngles(m, stateName);
    if angles.Some? then Some(SphericalToAmplitudes(m, angles.value.theta, angles.value.phi)) else None
  }


  // ---------------------------------------------------------------------------------------------
  // Display flags
  // ---------------------------------------------------------------------------------------------

  /** The record fields other than the display flags; the toggle is modelled for flag names only. */
  const RecordFieldNames: set<string> := {
    "theta", "phi", "alpha", "beta", "blochVector", "gateHistory", "sphereOpacity"}

  /**
   * `[optionName]: !prev[optionName]`: the named flag is negated, a flag not yet present
   * (JavaScript `!undefined`) becomes true, and every other flag is kept.
   */
  function Toggled(flags: map<string, bool>, name: string): (r: map<string, bool>)
    ensures r.Keys == flags.Keys + {name}
    ensures r[name] == !(name in flags && flags[name])
    ensures forall k :: k in flags && k != name ==> r[k] == flags[k]
  {
    flags[name := !(name in flags && flags[name])]
  }

  /** Toggling a present flag twice restores the flags. */
  lemma ToggleTwice(flags: map<string, bool>, name: string)
    requires name in flags
    ensures Toggled(Toggled(flags, name), name) == flags
  {
    assert Toggled(Toggled(flags, name), name)[name] == flags[name];
  }

  // ---------------------------------------------------------------------------------------------
  // Queries
  // ---------------------------------------------------------------------------------------------

  /** Rounding to the nearest integer, halves away from zero. */
  function RoundHalfAway(y: real): (k: int)
    ensures -0.5 <= k as real - y <= 0.5
    ensures y >= 0.0 ==> k >= 0
  {
    if y >= 0.0 then (y + 0.5).Floor else -((-y + 0.5).Floor)
  }

  /** `round(x, 4)`: the nearest multiple of 1/10000 (halves away from zero). */
  function Round4(x: real): (r: real)
    ensures -0.00005 <= r - x <= 0.00005
    ensures x >= 0.0 ==> r >= 0.0
  {
    (RoundHalfAway(x * 10000.0) as real) / 10000.0
  }

  /** A rounded value smaller than 1/10000 in size is 0, because rounded values are multiples of it. */
  lemma Round4Small(x: real)
    ensures -0.0001 < Round4(x) < 0.0001 <==> Round4(x) == 0.0
  {
    var k := RoundHalfAway(x * 10000.0);
    assert Round4(x) * 10000.0 == k as real;
  }

  datatype Probabilities = Probabilities(prob0: real, prob1: real)

  /**
   * `getMeasurementProbabilities`: |α|² and |β|², each rounded to four decimals. For a normalised
   * record they are within rounding of the exact probabilities and add up to 1 within 1e-4.
   */
  function MeasurementProbabilities(s: QubitState): (r: Probabilities)
    ensures 0.0 <= r.prob0 && 0.0 <= r.prob1
    ensures -0.00005 <= r.prob0 - NormSq(s.alpha) <= 0.00005
    ensures -0.00005 <= r.prob1 - NormSq(s.beta) <= 0.00005
    ensures Norm2(Pair(s)) == 1.0 ==> -0.0001 <= r.prob0 + r.prob1 - 1.0 <= 0.0001
  {
    Probabilities(Round4(NormSq(s.alpha)), Round4(NormSq(s.beta)))
  }

  /** How `formatComplex` lays out a number, from its rounded parts. */
  datatype ComplexLayout = RealOnly(re: real) | ImagOnly(im: real) | Both(re: real, im: real)

  function Abs(x: real): real {
    if x < 0.0 then -x else x
  }

  /**
   * The branches of `formatComplex`: only the real part when the rounded imaginary part is below
   * 1e-4 in size, only the imaginary part when the rounded real part is, both otherwise. Since
   * rounded values are multiples of 1e-4, "below 1e-4" means "rounds to 0".
   */
  function Layout(z: Complex): (l: ComplexLayout)
    ensures l.RealOnly? <==> Round4(z.im) == 0.0
    ensures l.ImagOnly? <==> Round4(z.im) != 0.0 && Round4(z.re) == 0.0
    ensures l.RealOnly? ==> l.re == Round4(z.re)
    ensures l.ImagOnly? ==> l.im == Round4(z.im)
    ensures l.Both? ==> l.re == Round4(z.re) && l.im == Round4(z.im)
  {
    Round4Small(z.im);
    Round4Small(z.re);
    var re := Round4(z.re);
    var im := Round4(z.im);
    if Abs(im) < 0.0001 then RealOnly(re)
    else if Abs(re) < 0.0001 then ImagOnly(im)
    else Both(re, im)
  }

  /**
   * `formatComplex(num)`, with `show` standing for JavaScript's number-to-string conversion:
   * `${re}`, `${im}i`, or `${re}${im >= 0 ? '+' : ''}${im}i`. A number whose imaginary part rounds
   * to 0 prints as its rounded real part; one whose real part alone rounds to 0 prints as its
   * rounded imaginary part and "i"; any other prints both, with "+" between them exactly when the
   * imaginary part is not negative.
   */
  function FormatComplex(show: real -> string, z: Complex): (r: string)
    ensures Round4(z.im) == 0.0 ==> r == show(Round4(z.re))
    ensures Round4(z.im) != 0.0 ==>
      |r| > |show(Round4(z.im))| && r[|r| - |show(Round4(z.im))| - 1..] == show(Round4(z.im)) + "i"
    ensures Round4(z.im) != 0.0 && Round4(z.re) == 0.0 ==> r == show(Round4(z.im)) + "i"
    ensures Round4(z.im) != 0.0 && Round4(z.re) != 0.0 ==>
      r == show(Round4(z.re)) + (if Round4(z.im) >= 0.0 then "+" else "") + show(Round4(z.im)) + "i"
  {
    match Layout(z)
    case RealOnly(re) => show(re)
    case ImagOnly(im) => show(im) + "i"
    case Both(re, im) => show(re) + (if im >= 0.0 then "+" else "") + show(im) + "i"
  }

  /**
   * `getStateVectorNotation`: "<α>|0⟩ + <β>|1⟩" with both amplitudes formatted; the text starts
   * with α's and ends with β's followed by "|1⟩".
   */
  function StateVectorNotation(show: real -> string, s: QubitState): (r: string)
    ensures |r| == |FormatComplex(show, s.alpha)| + |FormatComplex(show, s.beta)| + 9
    ensures r[..|FormatComplex(show, s.alpha)|] == FormatComplex(show, s.alpha)
    ensures r[|r| - |FormatComplex(show, s.beta)| - 3..] == FormatComplex(show, s.beta) + "|1⟩"
  {
    FormatComplex(show, s.alpha) + "|0⟩ + " + FormatComplex(show, s.beta) + "|1⟩"
  }

  /** The initial record reads "1|0⟩ + 0|1⟩" (with `show` supplying the digits). */
  lemma InitialNotation(show: real -> string)
    ensures StateVectorNotation(show, InitialState) == show(1.0) + "|0⟩ + " + show(0.0) + "|1⟩"
  {
    assert RoundHalfAway(10000.0) == 10000;
    assert RoundHalfAway(0.0) == 0;
    assert Round4(1.0) == 1.0;
    assert Round4(0.0) == 0.0;
  }

  // ---------------------------------------------------------------------------------------------
  // The holder
  // ---------------------------------------------------------------------------------------------

  /**
   * `QuantumStateProvider`: the held record and its entry points. Each entry point replaces the
   * record and then recomputes the derived values, so the record is always consistent (`Valid`).
   */
  class QuantumStateProvider {
    const m: MathLib
    var state: QubitState

    ghost predicate Valid()
      reads this
    {
      Lawful(m) && Consistent(m, state)
    }

    /** The provider as mounted: the record is `initialState`. */
    constructor (m: MathLib)
      ensures this.m == m && state == InitialState
    {
      this.m := m;
      state := InitialState;
    }

    /** `updateDerivedValues`, run as each new record is committed. */
    method UpdateDerivedValues()
      requires Lawful(m)
      modifies this
      ensures state == Derive(m, old(state)) && Valid()
    {
      var theta, phi := state.theta, state.phi;
      var x := m.sin(theta) * m.cos(phi);
      var y := m.sin(theta) * m.sin(phi);
      var z := m.cos(theta);
      var alphaRe := m.cos(theta / 2.0);
      var betaRe := m.sin(theta / 2.0) * m.cos(phi);
      var betaIm := m.sin(theta / 2.0) * m.sin(phi);
      ghost var target := Derive(m, state);
      assert target.blochVector == BlochVector(x, y, z);
      assert target.alpha == Complex(alphaRe, 0.0) && target.beta == Complex(betaRe, betaIm);
      state := state.(blochVector := BlochVector(x, y, z), alpha := Complex(alphaRe, 0.0), beta := Complex(betaRe, betaIm));
    }

    /** `setStateFromSpherical`: θ and φ stored exactly as given (no wrapping), the rest kept. */
    method SetStateFromSpherical(newTheta: real, newPhi: real)
      requires Valid()
      modifies this
      ensures Valid()
      ensures state == Derive(m, old(state).(theta := newTheta, phi := newPhi))
      ensures state.theta == newTheta && state.phi == newPhi
      ensures state.gateHistory == old(state.gateHistory) && state.display == old(state.display)
      ensures state.sphereOpacity == old(state.sphereOpacity)
    {
      state := state.(theta := newTheta, phi := newPhi);
      UpdateDerivedValues();
    }

    /**
     * `setStateFromAmplitudes`: the pair normalised, the angles taken from it, the history kept.
     * The source divides by the norm without a guard, so the zero pair is excluded.
     */
    method SetStateFromAmplitudes(newAlpha: Complex, newBeta: Complex)
      requires Valid() && Norm2(Amplitudes(newAlpha, newBeta)) > 0.0
      modifies this
      ensures Valid()
      ensures state == AmplitudeCommit(m, old(state), Amplitudes(newAlpha, newBeta), "")
      ensures state.gateHistory == old(state.gateHistory)
    {
      var normalized := NormalizeAmplitudes(m, Amplitudes(newAlpha, newBeta));
      var angles := AmplitudeAngles(m, Amplitudes(newAlpha, newBeta));
      state := state.(theta := angles.theta, phi := angles.phi, alpha := normalized.alpha, beta := normalized.beta);
      UpdateDerivedValues();
    }

    /**
     * `setStateFromAmplitudesWithAnimation`: as `SetStateFromAmplitudes`, and a non-empty gate name
     * is appended to the history, earlier entries untouched.
     */
    method SetStateFromAmplitudesWithAnimation(newAlpha: Complex, newBeta: Complex, gateName: string)
      requires Valid() && Norm2(Amplitudes(newAlpha, newBeta)) > 0.0
      modifies this
      ensures Valid()
      ensures state == AmplitudeCommit(m, old(state), Amplitudes(newAlpha, newBeta), gateName)
      ensures state.gateHistory == if gateName != "" then old(state.gateHistory) + [gateName] else old(state.gateHistory)
    {
      var normalized := NormalizeAmplitudes(m, Amplitudes(newAlpha, newBeta));
      var angles := AmplitudeAngles(m, Amplitudes(newAlpha, newBeta));
      state := state.(
        theta := angles.theta,
        phi := angles.phi,
        alpha := normalized.alpha,
        beta := normalized.beta,
        gateHistory := LogGate(state.gateHistory, gateName));
      UpdateDerivedValues();
    }

    /** `resetState`: the whole initial record, history and display settings included. */
    method ResetState()
      requires Valid()
      modifies this
      ensures Valid() && state == InitialState
    {
      state := InitialState;
      InitialStateIsConsistent(m);
    }

    /** `setToCommonState`: a known label moves to its fixed angles; an unknown one changes nothing. */
    method SetToCommonState(stateName: string)
      requires Valid()
      modifies this
      ensures Valid()
      ensures stateName !in CommonStateNames ==> state == old(state)
      ensures stateName in CommonStateNames ==>
        state == Derive(m, old(state).(
          theta := CommonStateAngles(m, stateName).value.theta,
          phi := CommonStateAngles(m, stateName).value.phi))
    {
      var target := CommonStateAngles(m, stateName);
      if target.Some? {
        SetStateFromSpherical(target.value.theta, target.value.phi);
      }
    }

    /** `toggleDisplayOption`, for the names of display flags. */
    method ToggleDisplayOption(optionName: string)
      requires Valid() && optionName !in RecordFieldNames
      modifies this
      ensures Valid()
      ensures state == old(state).(display := Toggled(old(state.display), optionName))
    {
      state := state.(display := Toggled(state.display, optionName));
    }

    /** `setSphereOpacity`: the value stored as given, nothing else changed. */
    method SetSphereOpacity(opacity: real)
      requires Valid()
      modifies this
      ensures Valid()
      ensures state == old(state).(sphereOpacity := opacity)
    {
      state := state.(sphereOpacity := opacity);
    }
  }

  /** A provider mounted with a lawful `Math`: its initial record is consistent. */
  method NewQuantumStateProvider(m: MathLib) returns (p: QuantumStateProvider)
    requires Lawful(m)
    ensures fresh(p) && p.m == m && p.state == InitialState && p.Valid()
  {
    p := new QuantumStateProvider(m);
    InitialStateIsConsistent(m);
  }
}
