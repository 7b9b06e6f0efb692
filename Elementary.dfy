/** The pieces of java.lang.Math and of Java's exception and floating-point
    behaviour that every pricing module below relies on.

    exp, log and sqrt cannot be defined over Dafny's `real`, so they are kept
    abstract: a value of `Transcendentals` carries three arbitrary functions, and
    `Lawful` lists the only facts about them that any proof in this project uses. */
module Elementary {

  /** Math.exp, Math.log and Math.sqrt, as opaque real functions. */
  datatype Transcendentals = Transcendentals(exp: real -> real, ln: real -> real, sqrt: real -> real)

  /** The laws of exp and sqrt that the pricing proofs need, and nothing more. */
  ghost predicate Lawful(m: Transcendentals) {
    && m.exp(0.0) == 1.0
    && (forall x :: m.exp(x) > 0.0)
    && (forall x :: x >= 0.0 ==> m.sqrt(x) >= 0.0)
    && (forall x :: x > 0.0 ==> m.sqrt(x) > 0.0)
  }

  /** Math.log inverts Math.exp, on all reals one way and on the positive reals
      the other way; only the rate conversions need this. */
  ghost predicate LogInvertsExp(m: Transcendentals) {
    && (forall x {:trigger m.exp(x)} :: m.ln(m.exp(x)) == x)
    && (forall y {:trigger m.ln(y)} :: y > 0.0 ==> m.exp(m.ln(y)) == y)
  }

  /** Math.PI, as the double literal. */
  const Pi: real := 3.141592653589793

  /** Math.abs on doubles. */
  function Abs(x: real): (r: real)
    ensures r >= 0.0
    ensures r == x || r == -x
  {
    if x < 0.0 then -x else x
  }

  /** Math.max on doubles (no NaN in this model). */
  function Max(x: real, y: real): (r: real)
    ensures r >= x && r >= y
    ensures r == x || r == y
  {
    if x >= y then x else y
  }

  /** A Java double result that is either an ordinary number or one of the
      non-finite values (NaN, an infinity) that a division by zero produces. */
  datatype Double = Finite(value: real) | NotFinite

  /** A computation that either returns a value or throws. */
  datatype Result<+T, +E> = Success(value: T) | Failure(error: E)

  const IntMin: int := -0x8000_0000
  const IntMax: int := 0x7fff_ffff

  /** The Java narrowing cast `(int) x` of a double: rounds toward zero and
      saturates at the bounds of a 32-bit int. */
  function JavaIntCast(x: real): (r: int)
    ensures IntMin <= r <= IntMax
    ensures x >= 0.0 ==> 0 <= r && r as real <= x
    ensures x <= 0.0 ==> r <= 0 && x <= r as real
    ensures x >= 0.0 && x < IntMax as real + 1.0 ==> x < r as real + 1.0
    ensures x <= 0.0 && x > IntMin as real - 1.0 ==> r as real - 1.0 < x
  {
    var truncated := if x >= 0.0 then x.Floor else -((-x).Floor);
    if truncated > IntMax then IntMax
    else if truncated < IntMin then IntMin
    else truncated
  }

  /** A 32-bit int survives the cast of its own double value unchanged. */
  lemma JavaIntCastOfInt(n: int)
    requires IntMin <= n <= IntMax
    ensures JavaIntCast(n as real) == n
  {
    if n < 0 {
      assert (-(n as real)).Floor == -n;
    }
  }

  /** Java int arithmetic: the exact result reduced into the 32-bit range
      (two's-complement wrap-around). */
  function JavaIntWrap(x: int): (r: int)
    ensures IntMin <= r <= IntMax
    ensures (r - x) % 0x1_0000_0000 == 0
    ensures IntMin <= x <= IntMax ==> r == x
  {
    (x - IntMin) % 0x1_0000_0000 + IntMin
  }

  /** Cancelling a nonzero factor against the same divisor. */
  lemma DivCancel(a: real, d: real)
    requires d != 0.0
    ensures d * a / d == a
    ensures d * (a / d) == a
  {
  }

  /** A multiple of a nonzero d, divided by d. */
  lemma DivOfMultiple(x: real, d: real, a: real)
    requires d != 0.0 && x == d * a
    ensures x / d == a
  {
  }

  /** Dividing a product divides one of its factors. */
  lemma DivMul(a: real, b: real, d: real)
    requires d != 0.0
    ensures a * b / d == (a / d) * b
  {
  }

  /** An amount scaled by a factor. Written as a function so that equal
      amounts visibly give equal scaled amounts, without the solver having to
      reason about the product. */
  function Scaled(x: real, factor: real): real {
    x * factor
  }

  /** A part over a positive whole is a fraction in [0, 1]. */
  lemma UnitFraction(a: real, d: real)
    requires 0.0 <= a <= d && d > 0.0
    ensures 0.0 <= a / d <= 1.0
  {
  }

  /** Scaling by a fraction in [0, 1] keeps a value between 0 and itself. */
  lemma ScaleWithin(w: real, c: real)
    requires 0.0 <= w <= 1.0
    ensures c >= 0.0 ==> 0.0 <= w * c <= c
    ensures c <= 0.0 ==> c <= w * c <= 0.0
  {
  }
}
