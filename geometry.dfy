/**
 * Vector geometry of pose landmarks (src/utils.js).
 *
 * The landmark arithmetic (differences, the planar projection, dot products,
 * squares) is written out; the floating-point primitives the source calls
 * (square root, IEEE division, arccosine and arctangent in degrees, rounding
 * to one decimal) are the fields of a `FloatOps` record passed in, so every
 * statement proved here holds whatever those primitives compute, except
 * where a lemma requires `SignSymmetric`.
 */
module Geometry {

  /** A pose landmark in normalised image coordinates; y grows downward. */
  datatype Point = Point(x: real, y: real, z: real)

  /** A difference of two landmarks. */
  datatype Vec = Vec(x: real, y: real, z: real)

  /** A two-element `[dx, dy]` array of the source. */
  datatype Vec2 = Vec2(x: real, y: real)

  /** The floating-point primitives of the source, left abstract. */
  datatype FloatOps = FloatOps(
    sqrt: real -> real,          // Math.sqrt
    div: (real, real) -> real,   // `/` on numbers, defined for a zero divisor as well
    acosDeg: real -> real,       // Math.acos followed by radians-to-degrees
    atanDeg: real -> real,       // Math.atan followed by radians-to-degrees
    round1: real -> real)        // Math.round(a * 10) / 10

  /**
   * Division and arctangent are odd functions: negating an operand negates
   * the result. For division by a negated divisor this is required only of
   * non-zero divisors: IEEE division by zero gives an infinity whose sign the
   * dividend decides, and a zero difference of coordinates stays zero when it
   * is negated. The dividend clause does cover a zero divisor, and so forces
   * 0 / 0 to be 0 where IEEE gives NaN; a mirrored pair of landmarks meets the
   * same 0 / 0 on both sides. The mirror-image lemmas rely on this and on
   * nothing else about the primitives.
   */
  ghost predicate SignSymmetric(f: FloatOps)
  {
    && (forall a, b, c {:trigger f.div(a, b), f.div(c, b)} ::
          a + c == 0.0 ==> f.div(c, b) == -f.div(a, b))
    && (forall a, b, c {:trigger f.div(a, b), f.div(a, c)} ::
          b + c == 0.0 && b != 0.0 ==> f.div(a, c) == -f.div(a, b))
    && (forall a, c {:trigger f.atanDeg(a), f.atanDeg(c)} ::
          a + c == 0.0 ==> f.atanDeg(c) == -f.atanDeg(a))
  }

  function Diff(a: Point, b: Point): Vec
  {
    Vec(a.x - b.x, a.y - b.y, a.z - b.z)
  }

  function Dot(u: Vec, v: Vec): real
  {
    u.x * v.x + u.y * v.y + u.z * v.z
  }

  /** `v` divided componentwise by its magnitude. */
  function Normalize(v: Vec, f: FloatOps): Vec
  {
    var mag := f.sqrt(Dot(v, v));
    Vec(f.div(v.x, mag), f.div(v.y, mag), f.div(v.z, mag))
  }

  /** The two arms of the angle at `c2`, projected onto the image plane (z set to 0). */
  function PlanarArms(c1: Point, c2: Point, c3: Point): (Vec, Vec)
  {
    var v1 := Diff(c1, c2);
    var v2 := Diff(c3, c2);
    (v1.(z := 0.0), v2.(z := 0.0))
  }

  /**
   * angleBetween3DCoords: the angle at `c2` between the directions to `c1`
   * and to `c3`, in degrees rounded to one decimal, measured in the image
   * plane only.
   */
  function Angle3(c1: Point, c2: Point, c3: Point, f: FloatOps): real
  {
    var arms := PlanarArms(c1, c2, c3);
    f.round1(f.acosDeg(Dot(Normalize(arms.0, f), Normalize(arms.1, f))))
  }

  function Dot2(u: Vec2, v: Vec2): real
  {
    u.x * v.x + u.y * v.y
  }

  /** The product of the lengths of two planar vectors. */
  function Magnitudes(u: Vec2, v: Vec2, f: FloatOps): real
  {
    f.sqrt(Dot2(u, u)) * f.sqrt(Dot2(v, v))
  }

  /** angleBetween2DVectors: the angle between two planar vectors, in degrees. */
  function Angle2(u: Vec2, v: Vec2, f: FloatOps): real
  {
    f.acosDeg(f.div(Dot2(u, v), Magnitudes(u, v, f)))
  }

  /** The dot product does not depend on the order of its operands. */
  lemma DotCommutes(u: Vec, v: Vec)
    ensures Dot(u, v) == Dot(v, u)
  {
  }

  /** Swapping the two outer points leaves the angle unchanged. */
  lemma Angle3Symmetric(a: Point, b: Point, c: Point, f: FloatOps)
    ensures Angle3(a, b, c, f) == Angle3(c, b, a, f)
  {
    var arms := PlanarArms(a, b, c);
    DotCommutes(Normalize(arms.0, f), Normalize(arms.1, f));
  }

  /** Depth (z) never influences the angle: points that agree in x and y give the same angle. */
  lemma Angle3IgnoresDepth(a: Point, b: Point, c: Point, a': Point, b': Point, c': Point, f: FloatOps)
    requires a.x == a'.x && a.y == a'.y
    requires b.x == b'.x && b.y == b'.y
    requires c.x == c'.x && c.y == c'.y
    ensures Angle3(a, b, c, f) == Angle3(a', b', c', f)
  {
    assert PlanarArms(a, b, c) == PlanarArms(a', b', c');
  }

  /** The reflection of a landmark about the vertical centre line of the image. */
  function Mirror(p: Point): Point
  {
    Point(1.0 - p.x, p.y, p.z)
  }

  /** A planar vector reflected about the vertical axis. */
  function Flip(v: Vec): Vec
  {
    Vec(-v.x, v.y, v.z)
  }

  lemma NormalizeFlip(v: Vec, f: FloatOps)
    requires SignSymmetric(f)
    ensures Normalize(Flip(v), f) == Flip(Normalize(v, f))
  {
    assert Dot(Flip(v), Flip(v)) == Dot(v, v);
    var mag := f.sqrt(Dot(v, v));
    assert f.div(-v.x, mag) == -f.div(v.x, mag);
  }

  /** Reflecting all three points leaves the angle unchanged. */
  lemma Angle3Mirror(a: Point, b: Point, c: Point, f: FloatOps)
    requires SignSymmetric(f)
    ensures Angle3(Mirror(a), Mirror(b), Mirror(c), f) == Angle3(a, b, c, f)
  {
    var arms := PlanarArms(a, b, c);
    var arms' := PlanarArms(Mirror(a), Mirror(b), Mirror(c));
    assert arms'.0 == Flip(arms.0) && arms'.1 == Flip(arms.1);
    NormalizeFlip(arms.0, f);
    NormalizeFlip(arms.1, f);
    var n0, n1 := Normalize(arms.0, f), Normalize(arms.1, f);
    assert Dot(Flip(n0), Flip(n1)) == Dot(n0, n1);
  }

  /** Reflecting both vectors leaves the planar angle unchanged. */
  lemma Angle2Mirror(u: Vec2, v: Vec2, f: FloatOps)
    ensures Angle2(Vec2(-u.x, u.y), Vec2(-v.x, v.y), f) == Angle2(u, v, f)
  {
    var u', v' := Vec2(-u.x, u.y), Vec2(-v.x, v.y);
    assert Dot2(u', v') == Dot2(u, v);
    assert Dot2(u', u') == Dot2(u, u);
    assert Dot2(v', v') == Dot2(v, v);
    assert Magnitudes(u', v', f) == Magnitudes(u, v, f);
  }
}
