/**
 * Vector projection and rejection primitives (Mdk.SimpleAutopilot/VectorMath.cs),
 * exact over real triples. The host's square root and arc cosine are not part
 * of this model: they are passed in as functions, and only the facts about
 * them that a result needs are required of them.
 */
module VectorMath {

  datatype Vector3 = Vector3(x: real, y: real, z: real)

  const Zero: Vector3 := Vector3(0.0, 0.0, 0.0)

  function Dot(a: Vector3, b: Vector3): real {
    a.x * b.x + a.y * b.y + a.z * b.z
  }

  function Scale(k: real, v: Vector3): Vector3 {
    Vector3(k * v.x, k * v.y, k * v.z)
  }

  function Add(a: Vector3, b: Vector3): Vector3 {
    Vector3(a.x + b.x, a.y + b.y, a.z + b.z)
  }

  function Sub(a: Vector3, b: Vector3): Vector3 {
    Vector3(a.x - b.x, a.y - b.y, a.z - b.z)
  }

  function Neg(v: Vector3): Vector3 {
    Vector3(-v.x, -v.y, -v.z)
  }

  function Cross(a: Vector3, b: Vector3): Vector3 {
    Vector3(a.y * b.z - a.z * b.y, a.z * b.x - a.x * b.z, a.x * b.y - a.y * b.x)
  }

  function LengthSquared(v: Vector3): real {
    Dot(v, v)
  }

  /** Exactly the zero vector, i.e. of zero length. */
  predicate IsZero(v: Vector3) {
    LengthSquared(v) == 0.0
  }

  /** Exactly unit length. */
  predicate IsUnit(v: Vector3) {
    LengthSquared(v) == 1.0
  }

  /** The product of two reals, kept as one term where it is the argument of the host square root. */
  function Product(p: real, q: real): real {
    p * q
  }

  function Clamp(x: real, lo: real, hi: real): real {
    if x < lo then lo else if x > hi then hi else x
  }

  /** The host square root of a non-zero number is non-zero. */
  ghost predicate NonVanishingRoots(sqrt: real -> real) {
    forall x :: x != 0.0 ==> sqrt(x) != 0.0
  }

  /** The host square root is the non-negative square root. */
  ghost predicate ExactRoots(sqrt: real -> real) {
    forall x :: 0.0 <= x ==> 0.0 <= sqrt(x) && sqrt(x) * sqrt(x) == x
  }

  lemma LengthSquaredNonNegative(v: Vector3)
    ensures LengthSquared(v) >= 0.0
  {
    SumOfSquaresNonNegative(v.x, v.y, v.z);
  }

  lemma SumOfSquaresNonNegative(x: real, y: real, z: real)
    ensures x * x + y * y + z * z >= 0.0
  {
  }

  lemma ProductNonZero(p: real, q: real)
    requires p != 0.0 && q != 0.0
    ensures p * q != 0.0
  {
  }

  /** Cosine of the angle between a and b, clamped into [-1, 1]; 0 for a zero argument. */
  function CosBetween(a: Vector3, b: Vector3, sqrt: real -> real): (r: real)
    requires NonVanishingRoots(sqrt)
    ensures -1.0 <= r <= 1.0
    ensures IsZero(a) || IsZero(b) ==> r == 0.0
  {
    if IsZero(a) || IsZero(b) then 0.0
    else
      ProductNonZero(LengthSquared(a), LengthSquared(b));
      Clamp(Dot(a, b) / sqrt(Product(LengthSquared(a), LengthSquared(b))), -1.0, 1.0)
  }

  /** Angle between a and b in radians; 0 for a zero argument. */
  function AngleBetween(a: Vector3, b: Vector3, sqrt: real -> real, acos: real -> real): (r: real)
    requires NonVanishingRoots(sqrt)
    ensures IsZero(a) || IsZero(b) ==> r == 0.0
    ensures !IsZero(a) && !IsZero(b) ==> r == acos(CosBetween(a, b, sqrt))
  {
    if IsZero(a) || IsZero(b) then 0.0 else acos(CosBetween(a, b, sqrt))
  }

  /** Projection of a onto b: zero for a zero argument, parallel to b always. */
  function Projection(a: Vector3, b: Vector3): (r: Vector3)
    ensures IsZero(a) || IsZero(b) ==> r == Zero
    ensures Cross(r, b) == Zero
  {
    if IsZero(a) || IsZero(b) then Zero
    else if IsUnit(b) then
      ScaledIsParallel(Dot(a, b), b);
      Scale(Dot(a, b), b)
    else
      ScaledIsParallel(Dot(a, b) / LengthSquared(b), b);
      Scale(Dot(a, b) / LengthSquared(b), b)
  }

  /** A multiple of b has no component across b. */
  lemma ScaledIsParallel(k: real, b: Vector3)
    ensures Cross(Scale(k, b), b) == Zero
  {
    assert k * b.y * b.z - k * b.z * b.y == 0.0;
    assert k * b.z * b.x - k * b.x * b.z == 0.0;
    assert k * b.x * b.y - k * b.y * b.x == 0.0;
  }

  /** Rejection of a from b: zero for a zero argument, orthogonal to b always. */
  function Rejection(a: Vector3, b: Vector3): (r: Vector3)
    ensures IsZero(a) || IsZero(b) ==> r == Zero
    ensures Dot(r, b) == 0.0
  {
    if IsZero(a) || IsZero(b) then Zero
    else
      var k := Dot(a, b) / LengthSquared(b);
      assert k * LengthSquared(b) == Dot(a, b);
      Sub(a, Scale(k, b))
  }

  /** Signed length of the projection of a onto b; 0 for a zero argument. */
  function ScalarProjection(a: Vector3, b: Vector3, sqrt: real -> real): (r: real)
    requires NonVanishingRoots(sqrt)
    ensures IsZero(a) || IsZero(b) ==> r == 0.0
    ensures !IsZero(a) && IsUnit(b) ==> r == Dot(a, b)
  {
    if IsZero(a) || IsZero(b) then 0.0
    else if IsUnit(b) then Dot(a, b)
    else Dot(a, b) / sqrt(LengthSquared(b))
  }

  /** For unit b and non-zero a the fast path gives (a . b) b. */
  lemma ProjectionOntoUnit(a: Vector3, b: Vector3)
    requires !IsZero(a) && IsUnit(b)
    ensures Projection(a, b) == Scale(Dot(a, b), b)
  {
  }

  /** The unit fast path agrees with the general formula (a . b / |b|^2) b. */
  lemma ProjectionGeneralFormula(a: Vector3, b: Vector3)
    requires !IsZero(a) && !IsZero(b)
    ensures Projection(a, b) == Scale(Dot(a, b) / LengthSquared(b), b)
  {
    if IsUnit(b) {
      assert Dot(a, b) / LengthSquared(b) == Dot(a, b);
    }
  }

  /** Projection plus rejection recovers the vector for non-zero arguments. */
  lemma ProjectionPlusRejection(a: Vector3, b: Vector3)
    requires !IsZero(a) && !IsZero(b)
    ensures Add(Projection(a, b), Rejection(a, b)) == a
  {
    ProjectionGeneralFormula(a, b);
  }

  lemma SquareRootUnique(s: real, l: real)
    requires 0.0 <= s && 0.0 <= l && s * s == l * l
    ensures s == l
  {
    assert (s - l) * (s + l) == 0.0;
    if s + l != 0.0 {
      assert s - l == 0.0;
    }
  }

  /** The scalar projection times the length of b is a . b, on both non-zero paths. */
  lemma ScalarProjectionTimesLength(a: Vector3, b: Vector3, sqrt: real -> real)
    requires NonVanishingRoots(sqrt) && ExactRoots(sqrt)
    requires !IsZero(a) && !IsZero(b)
    ensures ScalarProjection(a, b, sqrt) * sqrt(LengthSquared(b)) == Dot(a, b)
  {
    if IsUnit(b) {
      var l := sqrt(LengthSquared(b));
      assert 0.0 <= l && l * l == 1.0;
      SquareRootUnique(l, 1.0);
    }
  }

  lemma ProductNonNegative(p: real, q: real)
    requires 0.0 <= p && 0.0 <= q
    ensures 0.0 <= p * q
  {
  }

  /** An exact square root undoes squaring a non-negative number. */
  lemma RootOfSquare(l: real, sqrt: real -> real)
    requires ExactRoots(sqrt) && 0.0 <= l
    ensures sqrt(Product(l, l)) == l
  {
    ProductNonNegative(l, l);
    var s := sqrt(Product(l, l));
    assert 0.0 <= s && s * s == l * l;
    SquareRootUnique(s, l);
  }

  lemma Quotients(l: real)
    requires l != 0.0
    ensures l / l == 1.0 && -l / l == -1.0
  {
  }

  /** Lagrange's identity: |a|²|b|² − (a · b)² = |a × b|². */
  lemma Lagrange(a: Vector3, b: Vector3)
    ensures Product(LengthSquared(a), LengthSquared(b)) - Dot(a, b) * Dot(a, b) == LengthSquared(Cross(a, b))
  {
  }

  lemma PositiveProduct(p: real, q: real)
    requires 0.0 < p && 0.0 < q
    ensures 0.0 < p * q
  {
  }

  /** Squaring is increasing on the positive reals. */
  lemma SquareGrows(x: real, y: real)
    requires 0.0 < y < x
    ensures y * y < x * x
  {
    PositiveProduct(x - y, x + y);
    assert x * x - y * y == (x - y) * (x + y);
  }

  /** A quotient whose numerator's square is at most the denominator's lies in [-1, 1]. */
  lemma BoundedQuotient(d: real, s: real)
    requires s > 0.0 && d * d <= s * s
    ensures -1.0 <= d / s <= 1.0
  {
    var q := d / s;
    assert q * s == d;
    if q > 1.0 {
      PositiveProduct(q - 1.0, s);
      assert (q - 1.0) * s == d - s;
      SquareGrows(d, s);
    }
    if q < -1.0 {
      PositiveProduct(-1.0 - q, s);
      assert (-1.0 - q) * s == -d - s;
      SquareGrows(-d, s);
    }
  }

  /**
   * For non-zero vectors the clamp never bites: the result times |a||b| is
   * exactly a · b, so it is the cosine of the angle between them.
   */
  lemma CosBetweenIsCosine(a: Vector3, b: Vector3, sqrt: real -> real)
    requires NonVanishingRoots(sqrt) && ExactRoots(sqrt) && !IsZero(a) && !IsZero(b)
    ensures CosBetween(a, b, sqrt) * sqrt(Product(LengthSquared(a), LengthSquared(b))) == Dot(a, b)
  {
    var la, lb := LengthSquared(a), LengthSquared(b);
    LengthSquaredNonNegative(a);
    LengthSquaredNonNegative(b);
    ProductNonNegative(la, lb);
    ProductNonZero(la, lb);
    var p := Product(la, lb);
    var s := sqrt(p);
    assert 0.0 <= s && s * s == p;
    assert s != 0.0;
    var d := Dot(a, b);
    Lagrange(a, b);
    LengthSquaredNonNegative(Cross(a, b));
    assert d * d <= s * s;
    BoundedQuotient(d, s);
    assert Clamp(d / s, -1.0, 1.0) == d / s;
  }

  /** A non-zero vector is at angle acos(1) to itself. */
  lemma AngleToSelf(v: Vector3, sqrt: real -> real, acos: real -> real)
    requires NonVanishingRoots(sqrt) && ExactRoots(sqrt) && !IsZero(v)
    ensures CosBetween(v, v, sqrt) == 1.0
    ensures AngleBetween(v, v, sqrt, acos) == acos(1.0)
  {
    var l := LengthSquared(v);
    LengthSquaredNonNegative(v);
    RootOfSquare(l, sqrt);
    Quotients(l);
  }

  /** A non-zero vector is at angle acos(-1) to its opposite. */
  lemma AngleToOpposite(v: Vector3, sqrt: real -> real, acos: real -> real)
    requires NonVanishingRoots(sqrt) && ExactRoots(sqrt) && !IsZero(v)
    ensures CosBetween(v, Neg(v), sqrt) == -1.0
    ensures AngleBetween(v, Neg(v), sqrt, acos) == acos(-1.0)
  {
    var l := LengthSquared(v);
    LengthSquaredNonNegative(v);
    assert LengthSquared(Neg(v)) == l;
    assert Dot(v, Neg(v)) == -l;
    RootOfSquare(l, sqrt);
    Quotients(l);
  }
}
