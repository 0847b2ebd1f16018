/**
 * The control panel's own gate table (`applyQuantumGate`), which works on the raw real and
 * imaginary parts of the held amplitudes and hands the result to the state holder with the gate's
 * name, and the panel's angle-unit helpers.
 *
 * The panel's table is a second implementation of the gates beside the gate library: it adds
 * S† and T†, and its Y is the library's Y times −1.
 */
module ControlPanel {
  import opened Options
  import opened Trig
  import opened ComplexNumbers
  import opened QuantumOperations
  import opened QuantumStateContext

  // ---------------------------------------------------------------------------------------------
  // The gate table of `applyQuantumGate`
  // ---------------------------------------------------------------------------------------------

  /** The names `applyQuantumGate` handles; any other name is ignored. */
  const PanelGateNames: set<string> := {"X", "Y", "Z", "H", "S", "S_dag", "T", "T_dag"}

  /** Case 'X': the components of α and β trade places. */
  function PanelX(p: Amplitudes): Amplitudes {
    Amplitudes(Complex(p.beta.re, p.beta.im), Complex(p.alpha.re, p.alpha.im))
  }

  /** Case 'Y': (i·β, −i·α) on the components. */
  function PanelY(p: Amplitudes): Amplitudes {
    Amplitudes(Complex(-p.beta.im, p.beta.re), Complex(p.alpha.im, -p.alpha.re))
  }

  /** Case 'Z': β negated. */
  function PanelZ(p: Amplitudes): Amplitudes {
    Amplitudes(Complex(p.alpha.re, p.alpha.im), Complex(-p.beta.re, -p.beta.im))
  }

  /** Case 'H', with `factor = 1 / Math.sqrt(2)`. */
  function PanelH(m: MathLib, p: Amplitudes): Amplitudes
    requires Lawful(m)
  {
    var factor := InvSqrt2(m);
    Amplitudes(
      Complex(factor * (p.alpha.re + p.beta.re), factor * (p.alpha.im + p.beta.im)),
      Complex(factor * (p.alpha.re - p.beta.re), factor * (p.alpha.im - p.beta.im)))
  }

  /** Case 'S': β multiplied by i. */
  function PanelS(p: Amplitudes): Amplitudes {
    Amplitudes(Complex(p.alpha.re, p.alpha.im), Complex(-p.beta.im, p.beta.re))
  }

  /** Case 'S_dag': β multiplied by −i. */
  function PanelSDag(p: Amplitudes): Amplitudes {
    Amplitudes(Complex(p.alpha.re, p.alpha.im), Complex(p.beta.im, -p.beta.re))
  }

  /** Case 'T', with `cosT = Math.cos(Math.PI/4)` and `sinT = Math.sin(Math.PI/4)`. */
  function PanelT(m: MathLib, p: Amplitudes): Amplitudes {
    var cosT, sinT := m.cos(m.pi / 4.0), m.sin(m.pi / 4.0);
    Amplitudes(
      Complex(p.alpha.re, p.alpha.im),
      Complex(p.beta.re * cosT - p.beta.im * sinT, p.beta.re * sinT + p.beta.im * cosT))
  }

  /** Case 'T_dag', with the same cosine and sine of π/4. */
  function PanelTDag(m: MathLib, p: Amplitudes): Amplitudes {
    var cosT, sinT := m.cos(m.pi / 4.0), m.sin(m.pi / 4.0);
    Amplitudes(
      Complex(p.alpha.re, p.alpha.im),
      Complex(p.beta.re * cosT + p.beta.im * sinT, p.beta.im * cosT - p.beta.re * sinT))
  }

  /** The `switch (gateName)` of `applyQuantumGate`: the new pair, or nothing for the default case. */
  function PanelGate(m: MathLib, gateName: string, p: Amplitudes): (r: Option<Amplitudes>)
    requires Lawful(m)
    ensures r.Some? <==> gateName in PanelGateNames
  {
    if gateName == "X" then Some(PanelX(p))
    else if gateName == "Y" then Some(PanelY(p))
    else if gateName == "Z" then Some(PanelZ(p))
    else if gateName == "H" then Some(PanelH(m, p))
    else if gateName == "S" then Some(PanelS(p))
    else if gateName == "S_dag" then Some(PanelSDag(p))
    else if gateName == "T" then Some(PanelT(m, p))
    else if gateName == "T_dag" then Some(PanelTDag(m, p))
    else None
  }

  // ---------------------------------------------------------------------------------------------
  // The panel's gates against the gate library
  // ---------------------------------------------------------------------------------------------

  /** The pair with both amplitudes negated (a global phase of −1). */
  function Negated(p: Amplitudes): Amplitudes {
    Amplitudes(Neg(p.alpha), Neg(p.beta))
  }

  /** The panel's X, Z and S are the library's gates. */
  lemma PanelAgreesWithLibrary(p: Amplitudes)
    ensures PanelX(p) == PauliX(p)
    ensures PanelZ(p) == PauliZ(p)
    ensures PanelS(p) == SGate(p)
  {
  }

  /** The panel's H is the library's: the same factor 1/√2. */
  lemma PanelHIsHadamard(m: MathLib, p: Amplitudes)
    requires Lawful(m)
    ensures PanelH(m, p) == Hadamard(m, p)
  {
    HadamardIsHalfSum(m, p);
  }

  /** The panel's T is the library's: β times cos(π/4) + i·sin(π/4). */
  lemma PanelTIsTGate(m: MathLib, p: Amplitudes)
    requires Lawful(m)
    ensures PanelT(m, p) == TGate(m, p)
  {
    var t := TPhase(m);
    assert t == Complex(m.cos(m.pi / 4.0), m.sin(m.pi / 4.0));
    assert TGate(m, p).beta == Mul(t, p.beta);
  }

  /** The panel's Y is the library's Y with a global phase of −1. */
  lemma PanelYIsNegatedPauliY(p: Amplitudes)
    ensures PanelY(p) == Negated(PauliY(p))
  {
  }

  /** The pair with both amplitudes zero, the only pair a global phase of −1 leaves unchanged. */
  const ZeroPair := Amplitudes(Complex(0.0, 0.0), Complex(0.0, 0.0))

  /** The global phase makes a difference to the pair: the two Y gates agree only on the zero pair. */
  lemma PanelYDiffersFromPauliY(p: Amplitudes)
    ensures PanelY(p) == PauliY(p) <==> p == ZeroPair
  {
    if PanelY(p) == PauliY(p) {
      PanelYIsNegatedPauliY(p);
      OnlyZeroIsOwnNegation(PauliY(p));
      PauliYInvolution(p);
      PauliYOfZero();
    } else if p == ZeroPair {
      PauliYOfZero();
      PanelYOfZero();
    }
  }

  /** −q = q only for the zero pair. */
  lemma OnlyZeroIsOwnNegation(q: Amplitudes)
    ensures Negated(q) == q ==> q == ZeroPair
  {
  }

  lemma PauliYOfZero()
    ensures PauliY(ZeroPair) == ZeroPair
  {
    var zero := Complex(0.0, 0.0);
    assert TimesI(zero) == zero;
    assert Neg(zero) == zero;
  }

  lemma PanelYOfZero()
    ensures PanelY(ZeroPair) == ZeroPair
  {
  }

  /** The panel handles S† and T†, which the library's dispatcher rejects. */
  lemma PanelHandlesMoreGates(m: MathLib, p: Amplitudes, angle: Option<real>)
    requires Lawful(m)
    ensures PanelGate(m, "S_dag", p).Some? && ApplyGate(m, "S_dag", p, angle).None?
    ensures PanelGate(m, "T_dag", p).Some? && ApplyGate(m, "T_dag", p, angle).None?
  {
  }

  /** On every pair but the zero pair, the panel's Y and the dispatcher's Y give different pairs. */
  lemma PanelYDivergesFromDispatcher(m: MathLib, p: Amplitudes, angle: Option<real>)
    requires Lawful(m)
    ensures PanelGate(m, "Y", p) == ApplyGate(m, "Y", p, angle) <==> p == ZeroPair
  {
    assert ApplyGate(m, "Y", p, angle) == Some(PauliY(p));
    assert PanelGate(m, "Y", p) == Some(PanelY(p));
    PanelYDiffersFromPauliY(p);
  }

  // ---------------------------------------------------------------------------------------------
  // Identities of the panel's table
  // ---------------------------------------------------------------------------------------------

  /** X, Y, Z and H applied twice give the pair back. */
  lemma PanelInvolutions(m: MathLib, p: Amplitudes)
    requires Lawful(m)
    ensures PanelX(PanelX(p)) == p
    ensures PanelY(PanelY(p)) == p
    ensures PanelZ(PanelZ(p)) == p
    ensures PanelH(m, PanelH(m, p)) == p
  {
    PanelHIsHadamard(m, p);
    PanelHIsHadamard(m, Hadamard(m, p));
    HadamardInvolution(m, p);
  }

  /** S† undoes S and S undoes S†; S twice is Z. */
  lemma PanelSInverse(p: Amplitudes)
    ensures PanelSDag(PanelS(p)) == p && PanelS(PanelSDag(p)) == p
    ensures PanelS(PanelS(p)) == PanelZ(p)
  {
  }

  /** T† undoes T and T undoes T†, since cos²(π/4) + sin²(π/4) = 1. */
  lemma PanelTInverse(m: MathLib, p: Amplitudes)
    requires Lawful(m)
    ensures PanelTDag(m, PanelT(m, p)) == p && PanelT(m, PanelTDag(m, p)) == p
  {
    var c, s := m.cos(m.pi / 4.0), m.sin(m.pi / 4.0);
    Pythagoras(m, m.pi / 4.0);
    var (x, y) := (p.beta.re, p.beta.im);
    UnitRotationUndone(c, s, x, y);
    UnitRotationUndone(c, -s, x, y);
  }

  /** Rotating (x, y) by the unit vector (c, s) and then by (c, −s) gives (x, y) back. */
  lemma UnitRotationUndone(c: real, s: real, x: real, y: real)
    requires c * c + s * s == 1.0
    ensures (x * c - y * s) * c + (x * s + y * c) * s == x
    ensures (x * s + y * c) * c - (x * c - y * s) * s == y
  {
    assert (x * c - y * s) * c + (x * s + y * c) * s == x * (c * c + s * s);
    assert (x * s + y * c) * c - (x * c - y * s) * s == y * (c * c + s * s);
  }

  /** T twice is S. */
  lemma PanelTSquaredIsS(m: MathLib, p: Amplitudes)
    requires Lawful(m)
    ensures PanelT(m, PanelT(m, p)) == PanelS(p)
  {
    PanelTIsTGate(m, p);
    PanelTIsTGate(m, TGate(m, p));
    TSquaredIsS(m, p);
    PanelAgreesWithLibrary(p);
  }

  /** S, S†, T and T† keep α and |β|. */
  lemma PanelPhaseGatesKeepAlpha(m: MathLib, p: Amplitudes)
    requires Lawful(m)
    ensures PanelS(p).alpha == p.alpha && NormSq(PanelS(p).beta) == NormSq(p.beta)
    ensures PanelSDag(p).alpha == p.alpha && NormSq(PanelSDag(p).beta) == NormSq(p.beta)
    ensures PanelT(m, p).alpha == p.alpha && NormSq(PanelT(m, p).beta) == NormSq(p.beta)
    ensures PanelTDag(m, p).alpha == p.alpha && NormSq(PanelTDag(m, p).beta) == NormSq(p.beta)
  {
    var c, s := m.cos(m.pi / 4.0), m.sin(m.pi / 4.0);
    Pythagoras(m, m.pi / 4.0);
    RotationKeepsLength(c, s, p.beta.re, p.beta.im);
    RotationKeepsLength(c, -s, p.beta.re, p.beta.im);
    assert PanelTDag(m, p).beta == Complex(p.beta.re * c - p.beta.im * -s, p.beta.re * -s + p.beta.im * c);
  }

  /** Rotating by a unit vector keeps the length. */
  lemma RotationKeepsLength(c: real, s: real, x: real, y: real)
    requires c * c + s * s == 1.0
    ensures (x * c - y * s) * (x * c - y * s) + (x * s + y * c) * (x * s + y * c) == x * x + y * y
  {
    assert (x * c - y * s) * (x * c - y * s) + (x * s + y * c) * (x * s + y * c)
        == (x * x + y * y) * (c * c + s * s);
  }

  /** Every gate of the panel keeps |α|² + |β|². */
  lemma PanelGatePreservesNorm(m: MathLib, gateName: string, p: Amplitudes)
    requires Lawful(m) && gateName in PanelGateNames
    ensures Norm2(PanelGate(m, gateName, p).value) == Norm2(p)
  {
    if gateName == "H" {
      PanelHIsHadamard(m, p);
      HadamardPreservesNorm(m, p);
    } else if gateName in {"S", "S_dag", "T", "T_dag"} {
      PanelPhaseGatesKeepAlpha(m, p);
    }
  }

  // ---------------------------------------------------------------------------------------------
  // Angle units
  // ---------------------------------------------------------------------------------------------

  /** `radToDeg`: rad · (180 / π). */
  function RadToDeg(m: MathLib, rad: real): real
    requires m.pi > 0.0
  {
    rad * (180.0 / m.pi)
  }

  /** `degToRad`: deg · (π / 180). */
  function DegToRad(m: MathLib, deg: real): real {
    deg * (m.pi / 180.0)
  }

  /** The two conversions are inverse to each other. */
  lemma DegreesRoundTrip(m: MathLib, x: real)
    requires m.pi > 0.0
    ensures DegToRad(m, RadToDeg(m, x)) == x
    ensures RadToDeg(m, DegToRad(m, x)) == x
  {
    var k := 180.0 / m.pi;
    assert k * m.pi == 180.0;
    ReciprocalFactors(x, k, m.pi);
  }

  lemma ReciprocalFactors(x: real, k: real, q: real)
    requires k * q == 180.0
    ensures x * k * (q / 180.0) == x
    ensures x * (q / 180.0) * k == x
  {
    assert x * k * (q / 180.0) == x * (k * q) / 180.0;
    assert x * (q / 180.0) * k == x * (k * q) / 180.0;
  }

  /** `getSliderMax`: θ runs to π and φ to 2π, or 180 and 360 in degree mode. */
  function SliderMax(m: MathLib, angleUnit: string, angle: string): real {
    if angleUnit == "deg" then (if angle == "theta" then 180.0 else 360.0)
    else if angle == "theta" then m.pi else 2.0 * m.pi
  }

  /** The degree-mode maxima are the radian maxima converted; any unit but "deg" means radians. */
  lemma SliderMaxInDegrees(m: MathLib, angleUnit: string, angle: string)
    requires m.pi > 0.0
    ensures SliderMax(m, "deg", angle) == RadToDeg(m, SliderMax(m, "rad", angle))
    ensures angleUnit != "deg" ==> SliderMax(m, angleUnit, angle) == SliderMax(m, "rad", angle)
    ensures SliderMax(m, angleUnit, angle) > 0.0
  {
    var k := 180.0 / m.pi;
    assert k * m.pi == 180.0;
    assert (2.0 * m.pi) * k == 2.0 * (k * m.pi);
  }

  /** The pair with components (aRe + i·aIm, bRe + i·bIm). */
  function PairOf(aRe: real, aIm: real, bRe: real, bIm: real): Amplitudes {
    Amplitudes(Complex(aRe, aIm), Complex(bRe, bIm))
  }

  /** The five cases that only move and negate components, on the extracted components. */
  lemma PanelLinearCases(m: MathLib, aRe: real, aIm: real, bRe: real, bIm: real)
    requires Lawful(m)
    ensures PanelGate(m, "X", PairOf(aRe, aIm, bRe, bIm)) == Some(PairOf(bRe, bIm, aRe, aIm))
    ensures PanelGate(m, "Y", PairOf(aRe, aIm, bRe, bIm)) == Some(PairOf(-bIm, bRe, aIm, -aRe))
    ensures PanelGate(m, "Z", PairOf(aRe, aIm, bRe, bIm)) == Some(PairOf(aRe, aIm, -bRe, -bIm))
    ensures PanelGate(m, "S", PairOf(aRe, aIm, bRe, bIm)) == Some(PairOf(aRe, aIm, -bIm, bRe))
    ensures PanelGate(m, "S_dag", PairOf(aRe, aIm, bRe, bIm)) == Some(PairOf(aRe, aIm, bIm, -bRe))
  {
  }

  /** The H case with `factor` = 1/√2, on the extracted components. */
  lemma PanelHCase(m: MathLib, factor: real, aRe: real, aIm: real, bRe: real, bIm: real)
    requires Lawful(m) && factor == InvSqrt2(m)
    ensures PanelGate(m, "H", PairOf(aRe, aIm, bRe, bIm))
      == Some(PairOf(factor * (aRe + bRe), factor * (aIm + bIm), factor * (aRe - bRe), factor * (aIm - bIm)))
  {
    assert PanelGate(m, "H", PairOf(aRe, aIm, bRe, bIm)) == Some(PanelH(m, PairOf(aRe, aIm, bRe, bIm)));
    var q := PanelH(m, PairOf(aRe, aIm, bRe, bIm));
    assert q.alpha.re == factor * (aRe + bRe) && q.alpha.im == factor * (aIm + bIm);
    assert q.beta.re == factor * (aRe - bRe) && q.beta.im == factor * (aIm - bIm);
  }

  /** The T case with `cosT` and `sinT` the cosine and sine of π/4, on the extracted components. */
  lemma PanelTCase(m: MathLib, cosT: real, sinT: real, aRe: real, aIm: real, bRe: real, bIm: real)
    requires Lawful(m) && cosT == m.cos(m.pi / 4.0) && sinT == m.sin(m.pi / 4.0)
    ensures PanelGate(m, "T", PairOf(aRe, aIm, bRe, bIm))
      == Some(PairOf(aRe, aIm, bRe * cosT - bIm * sinT, bRe * sinT + bIm * cosT))
  {
    assert PanelGate(m, "T", PairOf(aRe, aIm, bRe, bIm)) == Some(PanelT(m, PairOf(aRe, aIm, bRe, bIm)));
    var q := PanelT(m, PairOf(aRe, aIm, bRe, bIm));
    assert q.alpha == Complex(aRe, aIm);
    assert q.beta.re == bRe * cosT - bIm * sinT;
    assert q.beta.im == bRe * sinT + bIm * cosT;
  }

  /** The T† case with `cosTdag` and `sinTdag` the cosine and sine of π/4, on the extracted components. */
  lemma PanelTDagCase(m: MathLib, cosTdag: real, sinTdag: real, aRe: real, aIm: real, bRe: real, bIm: real)
    requires Lawful(m) && cosTdag == m.cos(m.pi / 4.0) && sinTdag == m.sin(m.pi / 4.0)
    ensures PanelGate(m, "T_dag", PairOf(aRe, aIm, bRe, bIm))
      == Some(PairOf(aRe, aIm, bRe * cosTdag + bIm * sinTdag, bIm * cosTdag - bRe * sinTdag))
  {
    assert PanelGate(m, "T_dag", PairOf(aRe, aIm, bRe, bIm)) == Some(PanelTDag(m, PairOf(aRe, aIm, bRe, bIm)));
    var q := PanelTDag(m, PairOf(aRe, aIm, bRe, bIm));
    assert q.alpha == Complex(aRe, aIm);
    assert q.beta.re == bRe * cosTdag + bIm * sinTdag;
    assert q.beta.im == bIm * cosTdag - bRe * sinTdag;
  }

  /**
   * The `switch (gateName)` of `applyQuantumGate` on the four components extracted from the held
   * pair: a known name gives `known` and the components of the panel's gate, any other name gives
   * not `known` (the source returns there).
   */
  method PanelSwitch(m: MathLib, gateName: string, alphaRe: real, alphaIm: real, betaRe: real, betaIm: real)
    returns (known: bool, newAlphaRe: real, newAlphaIm: real, newBetaRe: real, newBetaIm: real)
    requires Lawful(m)
    ensures known <==> gateName in PanelGateNames
    ensures known ==>
      PanelGate(m, gateName, PairOf(alphaRe, alphaIm, betaRe, betaIm))
      == Some(PairOf(newAlphaRe, newAlphaIm, newBetaRe, newBetaIm))
  {
    PanelLinearCases(m, alphaRe, alphaIm, betaRe, betaIm);
    known := true;
    if gateName == "X" {
      newAlphaRe, newAlphaIm, newBetaRe, newBetaIm := betaRe, betaIm, alphaRe, alphaIm;
    } else if gateName == "Y" {
      newAlphaRe, newAlphaIm, newBetaRe, newBetaIm := -betaIm, betaRe, alphaIm, -alphaRe;
    } else if gateName == "Z" {
      newAlphaRe, newAlphaIm, newBetaRe, newBetaIm := alphaRe, alphaIm, -betaRe, -betaIm;
    } else if gateName == "H" {
      var factor := InvSqrt2(m);
      newAlphaRe, newAlphaIm := factor * (alphaRe + betaRe), factor * (alphaIm + betaIm);
      newBetaRe, newBetaIm := factor * (alphaRe - betaRe), factor * (alphaIm - betaIm);
      PanelHCase(m, factor, alphaRe, alphaIm, betaRe, betaIm);
    } else if gateName == "S" {
      newAlphaRe, newAlphaIm, newBetaRe, newBetaIm := alphaRe, alphaIm, -betaIm, betaRe;
    } else if gateName == "S_dag" {
      newAlphaRe, newAlphaIm, newBetaRe, newBetaIm := alphaRe, alphaIm, betaIm, -betaRe;
    } else if gateName == "T" {
      var cosT, sinT := m.cos(m.pi / 4.0), m.sin(m.pi / 4.0);
      newAlphaRe, newAlphaIm := alphaRe, alphaIm;
      newBetaRe, newBetaIm := betaRe * cosT - betaIm * sinT, betaRe * sinT + betaIm * cosT;
      PanelTCase(m, cosT, sinT, alphaRe, alphaIm, betaRe, betaIm);
    } else if gateName == "T_dag" {
      var cosTdag, sinTdag := m.cos(m.pi / 4.0), m.sin(m.pi / 4.0);
      newAlphaRe, newAlphaIm := alphaRe, alphaIm;
      newBetaRe, newBetaIm := betaRe * cosTdag + betaIm * sinTdag, betaIm * cosTdag - betaRe * sinTdag;
      PanelTDagCase(m, cosTdag, sinTdag, alphaRe, alphaIm, betaRe, betaIm);
    } else {
      known, newAlphaRe, newAlphaIm, newBetaRe, newBetaIm := false, alphaRe, alphaIm, betaRe, betaIm;
    }
  }

  // ---------------------------------------------------------------------------------------------
  // The panel
  // ---------------------------------------------------------------------------------------------

  /** The part of the panel component that drives the state holder: its angle unit and its gates. */
  class Panel {
    const context: QuantumStateProvider
    var angleUnit: string

    /** The panel as mounted: angles in radians. */
    constructor (context: QuantumStateProvider)
      ensures this.context == context && angleUnit == "rad"
    {
      this.context := context;
      angleUnit := "rad";
    }

    /** `handleAngleUnitChange`: a null unit (the toggle pressed again) keeps the current one. */
    method HandleAngleUnitChange(newUnit: Option<string>)
      modifies this
      ensures angleUnit == if newUnit.Some? then newUnit.value else old(angleUnit)
    {
      if newUnit.Some? {
        angleUnit := newUnit.value;
      }
    }

    /**
     * `applyQuantumGate`: a known gate's pair is handed to the animated amplitude setter with the
     * gate's name, so the name is logged; an unknown name returns before any setter is called.
     */
    method ApplyQuantumGate(gateName: string)
      requires context.Valid()
      modifies context
      ensures context.Valid()
      ensures gateName !in PanelGateNames ==> context.state == old(context.state)
      ensures gateName in PanelGateNames ==>
        Norm2(PanelGate(context.m, gateName, Pair(old(context.state))).value) == 1.0 &&
        context.state == AmplitudeCommit(context.m, old(context.state),
          PanelGate(context.m, gateName, Pair(old(context.state))).value, gateName)
      ensures gateName in PanelGateNames ==>
        context.state.gateHistory == old(context.state.gateHistory) + [gateName]
    {
      var m := context.m;
      var alpha, beta := context.state.alpha, context.state.beta;
      var known, newAlphaRe, newAlphaIm, newBetaRe, newBetaIm := PanelSwitch(m, gateName, alpha.re, alpha.im, beta.re, beta.im);
      if !known {
        return;
      }
      var p := Pair(context.state);
      assert PairOf(alpha.re, alpha.im, beta.re, beta.im) == p;
      SphericalToAmplitudesNormalized(m, context.state.theta, context.state.phi);
      PanelGatePreservesNorm(m, gateName, p);
      context.SetStateFromAmplitudesWithAnimation(Complex(newAlphaRe, newAlphaIm), Complex(newBetaRe, newBetaIm), gateName);
    }
  }
}
