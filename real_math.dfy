/** Real-number stand-ins for the floating-point library calls the pricers
    make. The transcendental functions are not computed: they arrive as a
    record of functions together with the few facts the proofs rely on. */
module RealMath {

  /** `Math.exp`, `Math.log`, `Math.sqrt`, `Math.PI` (and their numpy /
      `math` counterparts). */
  datatype Transcendentals = Transcendentals(
    exp: real -> real,
    ln: real -> real,
    sqrt: real -> real,
    pi: real)

  /** The only facts about the library assumed by the proofs: the
      exponential is positive and at most 1 on non-positive arguments, the
      square root is non-negative on non-negative arguments and positive on
      positive ones, and pi is positive. */
  ghost predicate Sound(m: Transcendentals)
  {
    && m.pi > 0.0
    && (forall x :: m.exp(x) > 0.0)
    && (forall x :: x <= 0.0 ==> m.exp(x) <= 1.0)
    && (forall x :: 0.0 <= x ==> 0.0 <= m.sqrt(x))
    && (forall x :: 0.0 < x ==> 0.0 < m.sqrt(x))
  }

  /** scipy's `norm.cdf` and `norm.pdf`. */
  datatype NormalDist = NormalDist(cdf: real -> real, pdf: real -> real)

  /** Facts about the standard normal distribution used by the proofs: the
      CDF is point-symmetric about (0, 1/2) and the density is positive. */
  ghost predicate Symmetric(n: NormalDist)
  {
    && (forall x :: n.cdf(-x) == 1.0 - n.cdf(x))
    && (forall x :: n.pdf(x) > 0.0)
  }

  /** Python's `round(x, n)`, JavaScript's `toFixed`-style rounding to `n`
      decimal places: left abstract, as binary floating point decides it. */
  type DecimalRounding = (real, nat) -> real

  function Max(a: real, b: real): (r: real)
    ensures r >= a && r >= b && (r == a || r == b)
  {
    if a >= b then a else b
  }

  function Min(a: real, b: real): (r: real)
    ensures r <= a && r <= b && (r == a || r == b)
  {
    if a <= b then a else b
  }

  function Abs(x: real): (r: real)
    ensures r >= 0.0 && (r == x || r == -x)
  {
    if x >= 0.0 then x else -x
  }

  /** JavaScript `Math.round`: the nearest integer, halves rounded towards
      positive infinity (it is `floor(x + 0.5)`). */
  function JsRound(x: real): (r: int)
    ensures x - 0.5 < r as real <= x + 0.5
  {
    (x + 0.5).Floor
  }

  /** Python's `round(x)` with no digits argument: the nearest integer,
      halves rounded to the even neighbour. */
  function PyRound(x: real): (r: int)
    ensures x - 0.5 <= r as real <= x + 0.5
    ensures (r as real == x - 0.5 || r as real == x + 0.5) ==> r % 2 == 0
  {
    var f := x.Floor;
    var frac := x - f as real;
    if frac < 0.5 then f
    else if frac > 0.5 then f + 1
    else if f % 2 == 0 then f
    else f + 1
  }

  /** Python's `round` is monotone. */
  lemma PyRoundMonotone(x: real, y: real)
    requires x <= y
    ensures PyRound(x) <= PyRound(y)
  {
  }

  /** Python's `int(x)` on a float: truncation towards zero. */
  function Trunc(x: real): (r: int)
    ensures x >= 0.0 ==> r as real <= x < r as real + 1.0
    ensures x < 0.0 ==> r as real - 1.0 < x <= r as real
  {
    if x >= 0.0 then x.Floor else -((-x).Floor)
  }

  /** `int()` keeps a whole number unchanged. */
  lemma TruncWhole(x: real)
    requires x == x.Floor as real
    ensures Trunc(x) as real == x
  {
    if x < 0.0 {
      assert -x == (-x.Floor) as real;
    }
  }

  /** `Math.floor` is monotone. */
  lemma FloorMonotone(x: real, y: real)
    requires x <= y
    ensures x.Floor <= y.Floor
  {
  }
}
