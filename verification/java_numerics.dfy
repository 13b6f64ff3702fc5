/** Java's numeric conversions that the viewport arithmetic relies on, written
    out over Dafny's unbounded `int` and exact `real`.

    - `JavaDiv` is `int / int`, which truncates toward zero.
    - `Trunc` and `CastToInt` are the `(int)` cast of a `double`, which
      truncates toward zero and saturates at the 32-bit range.
    - `Double` carries the IEEE 754 specials that a division by a zero scale
      can produce.
    - `FastFloor` is the panel's own floor; `JavaFloor` is `(int) Math.floor`.
    - `Round` is `Math.round`, ties rounding up.
 */
module JavaNumerics {

  const IntMin: int := -0x8000_0000
  const IntMax: int := 0x7FFF_FFFF

  predicate InInt32(n: int) {
    IntMin <= n <= IntMax
  }

  /** Two's-complement wrap-around of a Java `int` result. */
  function Wrap32(n: int): (r: int)
    ensures InInt32(r)
    ensures (r - n) % 0x1_0000_0000 == 0
    ensures InInt32(n) ==> r == n
  {
    (n - IntMin) % 0x1_0000_0000 + IntMin
  }

  function Abs(n: int): nat {
    if n < 0 then -n else n
  }

  /** Java's `a / b` on `int`: the quotient is truncated toward zero, so its
      magnitude is the floor of |a| / |b| and its sign is the product sign. */
  function JavaDiv(a: int, b: int): (q: int)
    requires b != 0
    ensures Abs(q) * Abs(b) <= Abs(a) < (Abs(q) + 1) * Abs(b)
    ensures q < 0 ==> (a < 0) != (b < 0)
    ensures q > 0 ==> (a < 0) == (b < 0)
    ensures 0 <= a && 0 < b ==> q == a / b
  {
    var m := Abs(a) / Abs(b);
    EuclidBounds(Abs(a), Abs(b));
    var q := if (a < 0) != (b < 0) then -m else m;
    assert Abs(q) == m;
    q
  }

  lemma EuclidBounds(n: nat, d: nat)
    requires 0 < d
    ensures 0 <= n / d
    ensures (n / d) * d <= n < (n / d + 1) * d
  {
  }

  /** Truncation toward zero is symmetric: `(-a) / b == -(a / b)` in Java,
      which Euclidean division does not satisfy. */
  lemma JavaDivNegate(a: int, b: int)
    requires b != 0
    ensures JavaDiv(-a, b) == -JavaDiv(a, b)
  {
  }

  /** The `(int)` cast of a finite double before saturation: toward zero. */
  function Trunc(x: real): (r: int)
    ensures 0.0 <= x ==> 0 <= r && r as real <= x < r as real + 1.0
    ensures x < 0.0 ==> r <= 0 && r as real - 1.0 < x <= r as real
  {
    if x >= 0.0 then x.Floor else -((-x).Floor)
  }

  /** A Java `double`: a finite value, held exactly, or an IEEE 754 special. */
  datatype Double = Finite(v: real) | PosInf | NegInf | NaN

  /** `m / s` for an `int` numerator promoted to `double` and a finite,
      non-negative-zero divisor `s`. */
  function Divide(m: int, s: real): (d: Double)
    ensures d.Finite? <==> s != 0.0
    ensures d.Finite? ==> d.v * s == m as real
    ensures d == NaN <==> s == 0.0 && m == 0
    ensures d == PosInf <==> s == 0.0 && m > 0
  {
    if s != 0.0 then Finite(m as real / s)
    else if m > 0 then PosInf
    else if m < 0 then NegInf
    else NaN
  }

  /** Java's `d > 0`: false for NaN. */
  predicate IsPositive(d: Double) {
    match d
    case Finite(x) => x > 0.0
    case PosInf => true
    case NegInf => false
    case NaN => false
  }

  function Saturate(n: int): (r: int)
    ensures InInt32(r)
    ensures InInt32(n) ==> r == n
    ensures n > IntMax ==> r == IntMax
    ensures n < IntMin ==> r == IntMin
  {
    if n > IntMax then IntMax else if n < IntMin then IntMin else n
  }

  /** The `(int)` cast of a `double` (section 5.1.3 of the Java Language
      Specification): NaN becomes 0, everything else is truncated toward
      zero and saturated to the `int` range. */
  function CastToInt(d: Double): (r: int)
    ensures InInt32(r)
    ensures d == NaN ==> r == 0
    ensures d.Finite? && IntMin as real < d.v < IntMax as real + 1.0 ==>
              Abs(r) as real <= (if d.v < 0.0 then -d.v else d.v) < Abs(r) as real + 1.0
              && (r < 0 ==> d.v < 0.0) && (r > 0 ==> d.v > 0.0)
    ensures d == PosInf || (d.Finite? && IntMax as real + 1.0 <= d.v) ==> r == IntMax
    ensures d == NegInf || (d.Finite? && d.v <= IntMin as real) ==> r == IntMin
  {
    match d
    case NaN => 0
    case PosInf => IntMax
    case NegInf => IntMin
    case Finite(x) => Saturate(Trunc(x))
  }

  /** `fastFloor` of the panel: `x > 0 ? (int) x : (int) x - 1`, the second
      subtraction being 32-bit `int` arithmetic.

      On a finite `x` well inside the `int` range it returns the integer just
      below `x` when `x <= 0` (strictly below, even when `x` is whole), and the
      ordinary floor when `x > 0`. */
  function FastFloor(d: Double): (r: int)
    ensures InInt32(r)
    ensures d.Finite? && 0.0 < d.v < IntMax as real + 1.0 ==>
              r as real <= d.v < r as real + 1.0
    ensures d.Finite? && IntMin as real < d.v <= 0.0 ==>
              r as real < d.v <= r as real + 1.0
  {
    if IsPositive(d) then CastToInt(d) else Wrap32(CastToInt(d) - 1)
  }

  /** `(int) Math.floor(x)`: the floor of `x`, cast as above. */
  function JavaFloor(d: Double): (r: int)
    ensures InInt32(r)
    ensures d.Finite? && IntMin as real <= d.v < IntMax as real + 1.0 ==>
              r as real <= d.v < r as real + 1.0
  {
    match d
    case Finite(x) =>
      var f := x.Floor;
      assert Trunc(f as real) == f;
      CastToInt(Finite(f as real))
    case _ => CastToInt(d)
  }

  /** `Math.round(x)` for a finite `x`: the nearest integer, ties upward. */
  function Round(x: real): (r: int)
    ensures r as real - 0.5 <= x < r as real + 0.5
    ensures 0.0 <= x ==> 0 <= r
  {
    (x + 0.5).Floor
  }

  predicate IsWhole(x: real) {
    x.Floor as real == x
  }

  /** `fastFloor` agrees with the true floor exactly off the non-positive
      whole numbers, and is one below it on them. */
  lemma FastFloorVersusFloor(x: real)
    requires IntMin as real < x < IntMax as real + 1.0
    ensures FastFloor(Finite(x)) == JavaFloor(Finite(x)) <==> !(x <= 0.0 && IsWhole(x))
    ensures x <= 0.0 && IsWhole(x) ==> FastFloor(Finite(x)) == x.Floor - 1
  {
  }

  /** The quirk at zero: `fastFloor(0.0)` is -1, not 0. */
  lemma FastFloorOfZero()
    ensures FastFloor(Finite(0.0)) == -1
    ensures JavaFloor(Finite(0.0)) == 0
  {
  }

  /** On the specials the subtraction wraps: `fastFloor` of negative
      infinity is `Integer.MAX_VALUE`. */
  lemma FastFloorOfSpecials()
    ensures FastFloor(PosInf) == IntMax
    ensures FastFloor(NaN) == -1
    ensures FastFloor(NegInf) == IntMax
  {
  }
}
