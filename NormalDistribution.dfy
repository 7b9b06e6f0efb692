/** The standard normal primitives: the error-function approximation, the
    cumulative distribution function built on it, and the density.

    OptionInstrument and MathUtils each carry a private copy of `erf` and
    `normalCDF`; the two copies are the same expression, so they are modelled
    once here. The approximation uses the five Abramowitz & Stegun 7.1.26
    coefficients but with 0.5 where that formula has p = 0.3275911; the model
    keeps 0.5, as the code does. */
module NormalDistribution {
  import opened Elementary

  const A1: real := 0.254829592
  const A2: real := -0.284496736
  const A3: real := 1.421413741
  const A4: real := -1.453152027
  const A5: real := 1.061405429

  /** The variable of the rational approximation, t = 1/(1 + 0.5|z|). */
  function ScaleT(z: real): (t: real)
    ensures 0.0 < t <= 1.0
    ensures z != 0.0 ==> t < 1.0
  {
    1.0 / (1.0 + 0.5 * Abs(z))
  }

  /** The Horner polynomial t*(a1 + t*(a2 + t*(a3 + t*(a4 + t*a5)))). */
  function Horner(t: real): real {
    t * (A1 + t * (A2 + t * (A3 + t * (A4 + t * A5))))
  }

  /** erf(z), computed for |z| and given the sign of z. */
  function Erf(m: Transcendentals, z: real): real {
    var magnitude := 1.0 - Horner(ScaleT(z)) * m.exp(-z * z);
    if z < 0.0 then -magnitude else magnitude
  }

  /** normalCDF(x) = 0.5 * (1 + erf(x / sqrt 2)). */
  function Cdf(m: Transcendentals, x: real): real
    requires Lawful(m)
  {
    0.5 * (1.0 + Erf(m, x / m.sqrt(2.0)))
  }

  /** normalPDF(x) = exp(-x*x/2) / sqrt(2*pi). */
  function Pdf(m: Transcendentals, x: real): (r: real)
    requires Lawful(m)
    ensures r > 0.0
  {
    m.exp(-0.5 * x * x) / m.sqrt(2.0 * Pi)
  }

  /** erf depends on z only through |z| and z*z, apart from the sign flip, so
      it is odd at every nonzero argument. (At 0 the flip is not taken.) */
  lemma ErfOdd(m: Transcendentals, z: real)
    requires z != 0.0
    ensures Erf(m, -z) == -Erf(m, z)
  {
    assert Abs(-z) == Abs(z);
    assert (-z) * (-z) == z * z;
  }

  /** With t = 1 the polynomial sums the coefficients to 0.999999999, so the
      approximation leaves erf(0) = 1e-9 rather than 0. */
  lemma ErfAtZero(m: Transcendentals)
    requires Lawful(m)
    ensures Erf(m, 0.0) == 0.000000001
  {
    assert ScaleT(0.0) == 1.0;
    assert -0.0 * 0.0 == 0.0;
    assert Horner(1.0) == 0.999999999;
  }

  /** The distribution function is symmetric, Phi(x) + Phi(-x) = 1, at every
      nonzero argument. */
  lemma CdfSymmetric(m: Transcendentals, x: real)
    requires Lawful(m)
    requires x != 0.0
    ensures Cdf(m, x) + Cdf(m, -x) == 1.0
  {
    var s := m.sqrt(2.0);
    assert s > 0.0;
    assert (-x) / s == -(x / s);
    assert x / s != 0.0;
    ErfOdd(m, x / s);
  }

  /** At 0 the symmetry misses by the approximation's erf(0): Phi(0) = 0.5 + 5e-10. */
  lemma CdfAtZero(m: Transcendentals)
    requires Lawful(m)
    ensures Cdf(m, 0.0) == 0.5000000005
  {
    assert 0.0 / m.sqrt(2.0) == 0.0;
    ErfAtZero(m);
  }

  /** Phi(x) + Phi(-x) = 1 holds at 0 only up to the approximation error 1e-9. */
  lemma CdfSymmetricAtZeroMisses(m: Transcendentals)
    requires Lawful(m)
    ensures Cdf(m, 0.0) + Cdf(m, -0.0) == 1.000000001
  {
    CdfAtZero(m);
  }

  /** The density is even. */
  lemma PdfEven(m: Transcendentals, x: real)
    requires Lawful(m)
    ensures Pdf(m, -x) == Pdf(m, x)
  {
    assert -0.5 * (-x) * (-x) == -0.5 * x * x;
  }

  /** phi is normalCDF: it agrees with Cdf at every argument. The pricing
      formulas read the distribution function through such a phi, so that their
      proofs use only the facts about Cdf proved here and not its polynomial. */
  ghost predicate IsCdf(m: Transcendentals, phi: real -> real) {
    Lawful(m) && forall x {:trigger Cdf(m, x)} :: phi(x) == Cdf(m, x)
  }

  /** CdfSymmetric, read through phi. */
  lemma PhiSymmetric(m: Transcendentals, phi: real -> real, x: real)
    requires IsCdf(m, phi)
    requires x != 0.0
    ensures phi(x) + phi(-x) == 1.0
  {
    CdfSymmetric(m, x);
  }
}
