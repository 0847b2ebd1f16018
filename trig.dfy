/**
 * The parts of JavaScript's `Math` object the qubit engine calls (`Math.PI`, `Math.sin`,
 * `Math.cos`, `Math.acos`, `Math.atan2`, `Math.sqrt`), modelled over the reals.
 *
 * The functions are values of a record, so nothing is assumed of them beyond the laws
 * collected in `Lawful`; every law there holds of the exact mathematical functions.
 */
module Trig {

  datatype MathLib = MathLib(
    pi: real,
    sin: real -> real,
    cos: real -> real,
    acos: real -> real,
    atan2: (real, real) -> real,
    sqrt: real -> real)

  /** The square of a real; the laws below are stated with it so that they are used only where asked for. */
  function Sq(x: real): real {
    x * x
  }

  /**
   * The laws the model relies on. They are bound to one name so that a caller passes them on as a
   * single fact rather than re-establishing each law at every call. The two laws about squares
   * apply only to a term `Sq(...)`, which only `Pythagoras` and `SqrtLaw` write.
   */
  ghost predicate Lawful(m: MathLib) {
    var laws :=
      && m.pi > 0.0
      && (forall x {:trigger Sq(m.sin(x))} :: Sq(m.sin(x)) + Sq(m.cos(x)) == 1.0)
      && m.sin(0.0) == 0.0
      && m.cos(0.0) == 1.0
      && m.cos(m.pi / 4.0) == m.sin(m.pi / 4.0)
      && m.sin(m.pi / 4.0) > 0.0
      && m.cos(m.pi / 2.0) == 0.0
      && m.sin(m.pi / 2.0) == 1.0
      && m.cos(m.pi) == -1.0
      && m.sin(m.pi) == 0.0
      && m.cos(3.0 * m.pi / 2.0) == 0.0
      && m.sin(3.0 * m.pi / 2.0) == -1.0
      && (forall y, x :: -m.pi <= m.atan2(y, x) <= m.pi)
      && (forall x :: 0.0 < x ==> m.atan2(0.0, x) == 0.0)
      && (forall y :: y < 0.0 ==> m.atan2(y, 0.0) == -m.pi / 2.0)
      && (forall x {:trigger Sq(m.sqrt(x))} :: 0.0 <= x ==> 0.0 <= m.sqrt(x) && Sq(m.sqrt(x)) == x)
      && (forall x :: 0.0 <= x <= 1.0 ==> 0.0 <= m.acos(x) <= m.pi / 2.0);
    laws
  }

  lemma Pythagoras(m: MathLib, x: real)
    requires Lawful(m)
    ensures m.sin(x) * m.sin(x) + m.cos(x) * m.cos(x) == 1.0
  {
    assert Sq(m.sin(x)) + Sq(m.cos(x)) == 1.0;
  }

  lemma SqrtLaw(m: MathLib, x: real)
    requires Lawful(m) && 0.0 <= x
    ensures 0.0 <= m.sqrt(x) && m.sqrt(x) * m.sqrt(x) == x
  {
    assert Sq(m.sqrt(x)) == x;
  }

  /** A positive square root of a positive number is not zero, so it may be divided by. */
  lemma SqrtPositive(m: MathLib, x: real)
    requires Lawful(m) && 0.0 < x
    ensures m.sqrt(x) > 0.0
  {
    SqrtLaw(m, x);
  }

  /** `1 / Math.sqrt(2)`, the Hadamard factor: a positive number whose square is one half. */
  function InvSqrt2(m: MathLib): (f: real)
    requires Lawful(m)
    ensures f > 0.0 && f * f == 0.5
  {
    SqrtPositive(m, 2.0);
    SqrtLaw(m, 2.0);
    var s := m.sqrt(2.0);
    assert s * s == 2.0;
    assert (1.0 / s) * (1.0 / s) == 1.0 / (s * s);
    1.0 / s
  }

  /** `Math.cos(Math.PI / 4)`, which equals `Math.sin(Math.PI / 4)`: a positive number whose square is one half. */
  function QuarterTurnCos(m: MathLib): (c: real)
    requires Lawful(m)
    ensures c > 0.0 && c * c == 0.5
    ensures c == m.sin(m.pi / 4.0)
  {
    Pythagoras(m, m.pi / 4.0);
    m.cos(m.pi / 4.0)
  }

  /** The `if (phi < 0) phi += 2 * Math.PI` step: brings an `atan2` result into [0, 2π) without changing the direction. */
  function WrapAngle(m: MathLib, a: real): (r: real)
    ensures r == a || r == a + 2.0 * m.pi
    ensures m.pi > 0.0 && -m.pi <= a <= m.pi ==> 0.0 <= r < 2.0 * m.pi
  {
    if a < 0.0 then a + 2.0 * m.pi else a
  }
}
