/**
 * The 4x4 matrices of scripts/transforms.js.
 *
 * A matrix's `values` grid is a sequence of four rows of four reals.  The
 * setters `mat4x4Identity`, `mat4x4Translate`, `mat4x4Scale` and
 * `mat4x4ShearXY` overwrite the grid of a caller-owned `Matrix` object, so they
 * are methods on a `Matrix` class; `mat4x4MPer`, `mat4x4Viewport` and the
 * four factors of `mat4x4Perspective` build fresh matrices from their
 * arguments, so they are functions returning a grid.  Multiplying a matrix by
 * a homogeneous point is `Apply`.
 */
module Transforms {
  import opened Vectors

  type Grid = seq<seq<real>>

  /** Four rows of four entries each. */
  predicate Is4x4(g: Grid)
  {
    |g| == 4 && forall i :: 0 <= i < 4 ==> |g[i]| == 4
  }

  /** One row of a matrix times a homogeneous point. */
  function RowTimes(row: seq<real>, v: Vector4): real
    requires |row| == 4
  {
    row[0] * v.x + row[1] * v.y + row[2] * v.z + row[3] * v.w
  }

  /** A 4x4 matrix times a homogeneous point (column vector). */
  function Apply(m: Grid, v: Vector4): Vector4
    requires Is4x4(m)
  {
    Vector4(RowTimes(m[0], v), RowTimes(m[1], v), RowTimes(m[2], v), RowTimes(m[3], v))
  }

  /** A matrix object whose grid the setters overwrite in place. */
  class Matrix {
    var values: Grid
  }

  // ---------------------------------------------------------------------
  // The in-place setters
  // ---------------------------------------------------------------------

  function IdentityValues(): (g: Grid)
    ensures Is4x4(g)
  {
    [[1.0, 0.0, 0.0, 0.0],
     [0.0, 1.0, 0.0, 0.0],
     [0.0, 0.0, 1.0, 0.0],
     [0.0, 0.0, 0.0, 1.0]]
  }

  function TranslateValues(tx: real, ty: real, tz: real): (g: Grid)
    ensures Is4x4(g)
  {
    [[1.0, 0.0, 0.0, tx],
     [0.0, 1.0, 0.0, ty],
     [0.0, 0.0, 1.0, tz],
     [0.0, 0.0, 0.0, 1.0]]
  }

  function ScaleValues(sx: real, sy: real, sz: real): (g: Grid)
    ensures Is4x4(g)
  {
    [[sx, 0.0, 0.0, 0.0],
     [0.0, sy, 0.0, 0.0],
     [0.0, 0.0, sz, 0.0],
     [0.0, 0.0, 0.0, 1.0]]
  }

  function ShearXYValues(shx: real, shy: real): (g: Grid)
    ensures Is4x4(g)
  {
    [[1.0, 0.0, shx, 0.0],
     [0.0, 1.0, shy, 0.0],
     [0.0, 0.0, 1.0, 0.0],
     [0.0, 0.0, 0.0, 1.0]]
  }

  /** `mat4x4Identity`: the whole grid becomes the identity. */
  method Mat4x4Identity(m: Matrix)
    modifies m
    ensures m.values == IdentityValues()
  {
    m.values := IdentityValues();
  }

  /** `mat4x4Translate`: the whole grid becomes a translation by (tx, ty, tz). */
  method Mat4x4Translate(m: Matrix, tx: real, ty: real, tz: real)
    modifies m
    ensures m.values == TranslateValues(tx, ty, tz)
  {
    m.values := TranslateValues(tx, ty, tz);
  }

  /** `mat4x4Scale`: the whole grid becomes a scaling by (sx, sy, sz). */
  method Mat4x4Scale(m: Matrix, sx: real, sy: real, sz: real)
    modifies m
    ensures m.values == ScaleValues(sx, sy, sz)
  {
    m.values := ScaleValues(sx, sy, sz);
  }

  /** `mat4x4ShearXY`: the whole grid becomes a shear of x and y by z. */
  method Mat4x4ShearXY(m: Matrix, shx: real, shy: real)
    modifies m
    ensures m.values == ShearXYValues(shx, shy)
  {
    m.values := ShearXYValues(shx, shy);
  }

  lemma IdentityKeepsPoints(v: Vector4)
    ensures Apply(IdentityValues(), v) == v
  {
  }

  /** A translation moves every point with w = 1 by (tx, ty, tz), and undoing it restores the point. */
  lemma TranslateMovesPoints(tx: real, ty: real, tz: real, v: Vector4)
    requires v.w == 1.0
    ensures Apply(TranslateValues(tx, ty, tz), v) == Vector4(v.x + tx, v.y + ty, v.z + tz, 1.0)
    ensures Apply(TranslateValues(-tx, -ty, -tz), Apply(TranslateValues(tx, ty, tz), v)) == v
  {
  }

  /** A scaling multiplies each coordinate by its factor and keeps w. */
  lemma ScaleScalesPoints(sx: real, sy: real, sz: real, v: Vector4)
    ensures Apply(ScaleValues(sx, sy, sz), v) == Vector4(sx * v.x, sy * v.y, sz * v.z, v.w)
  {
  }

  /** The xy-shear moves x and y in proportion to z and keeps z and w; shearing back undoes it. */
  lemma ShearXYShearsPoints(shx: real, shy: real, v: Vector4)
    ensures Apply(ShearXYValues(shx, shy), v) == Vector4(v.x + shx * v.z, v.y + shy * v.z, v.z, v.w)
    ensures Apply(ShearXYValues(-shx, -shy), Apply(ShearXYValues(shx, shy), v)) == v
  {
  }

  // ---------------------------------------------------------------------
  // mat4x4MPer and mat4x4Viewport
  // ---------------------------------------------------------------------

  /** `mat4x4MPer`: projects the canonical volume onto the plane z = -1 once divided by w. */
  function MPer(): (g: Grid)
    ensures Is4x4(g)
  {
    [[1.0, 0.0, 0.0, 0.0],
     [0.0, 1.0, 0.0, 0.0],
     [0.0, 0.0, 1.0, 0.0],
     [0.0, 0.0, -1.0, 0.0]]
  }

  /** MPer keeps x, y and z and replaces w by -z. */
  lemma MPerProjects(v: Vector4)
    ensures Apply(MPer(), v) == Vector4(v.x, v.y, v.z, -v.z)
  {
  }

  /** `mat4x4Viewport`: maps the square [-1, 1] x [-1, 1] onto a width x height window. */
  function Viewport(width: real, height: real): (g: Grid)
    ensures Is4x4(g)
  {
    [[width / 2.0, 0.0, 0.0, width / 2.0],
     [0.0, height / 2.0, 0.0, height / 2.0],
     [0.0, 0.0, 1.0, 0.0],
     [0.0, 0.0, 0.0, 1.0]]
  }

  /** The corners (-1, -1) and (1, 1) land on (0, 0) and (width, height); z and w are kept. */
  lemma ViewportMapsCorners(width: real, height: real, z: real)
    ensures Apply(Viewport(width, height), Vector4(-1.0, -1.0, z, 1.0)) == Vector4(0.0, 0.0, z, 1.0)
    ensures Apply(Viewport(width, height), Vector4(1.0, 1.0, z, 1.0)) == Vector4(width, height, z, 1.0)
  {
  }

  /** A point of the square [-1, 1] x [-1, 1] (with w = 1) lands inside the window. */
  lemma ViewportKeepsSquareInWindow(width: real, height: real, v: Vector4)
    requires width >= 0.0 && height >= 0.0 && v.w == 1.0
    requires -1.0 <= v.x <= 1.0 && -1.0 <= v.y <= 1.0
    ensures 0.0 <= Apply(Viewport(width, height), v).x <= width
    ensures 0.0 <= Apply(Viewport(width, height), v).y <= height
  {
    var g := Viewport(width, height);
    assert g[0] == [width / 2.0, 0.0, 0.0, width / 2.0];
    assert g[1] == [0.0, height / 2.0, 0.0, height / 2.0];
    HalfScaleBounds(width / 2.0, v.x, Apply(g, v).x);
    HalfScaleBounds(height / 2.0, v.y, Apply(g, v).y);
  }

  lemma HalfScaleBounds(half: real, c: real, r: real)
    requires half >= 0.0 && -1.0 <= c <= 1.0 && r == half * c + half
    ensures 0.0 <= r <= 2.0 * half
  {
    assert r == half * (c + 1.0);
  }

  // ---------------------------------------------------------------------
  // The factors of mat4x4Perspective
  // ---------------------------------------------------------------------

  /** The view basis: u, v and n are the rows of the rotation. */
  datatype ViewBasis = ViewBasis(u: Vector3, v: Vector3, n: Vector3)

  function Scaled(a: Vector3, k: real): Vector3
  {
    Vector3(k * a.x, k * a.y, k * a.z)
  }

  /**
   * The basis of lines 5-10: n along prp - srp, u along vup x n, v = n x u.
   * `normalize` divides by a length, which needs a square root; here it is
   * the multiplication by the reciprocal lengths `kn` and `ku`.
   */
  function BasisOf(prp: Vector3, srp: Vector3, vup: Vector3, kn: real, ku: real): ViewBasis
  {
    var n := Scaled(Subtract(prp, srp), kn);
    var u := Scaled(Cross(vup, n), ku);
    ViewBasis(u, Cross(n, u), n)
  }

  lemma DotScaled(a: Vector3, k: real, b: Vector3)
    ensures Dot(Scaled(a, k), b) == k * Dot(a, b)
  {
  }

  /** The three basis vectors are pairwise orthogonal, whatever the normalising factors. */
  lemma BasisOrthogonal(prp: Vector3, srp: Vector3, vup: Vector3, kn: real, ku: real)
    ensures var b := BasisOf(prp, srp, vup, kn, ku);
            Dot(b.u, b.n) == 0.0 && Dot(b.v, b.n) == 0.0 && Dot(b.v, b.u) == 0.0
  {
    var b := BasisOf(prp, srp, vup, kn, ku);
    var c := Cross(vup, b.n);
    DotScaled(c, ku, b.n);
  }

  /** T of lines 12-18: moves the eye point prp to the origin. */
  function EyeTranslation(prp: Vector3): (g: Grid)
    ensures Is4x4(g)
  {
    [[1.0, 0.0, 0.0, -prp.x],
     [0.0, 1.0, 0.0, -prp.y],
     [0.0, 0.0, 1.0, -prp.z],
     [0.0, 0.0, 0.0, 1.0]]
  }

  /** T is the translation by -prp, so it sends prp to the origin. */
  lemma EyeTranslationCentresEye(prp: Vector3)
    ensures EyeTranslation(prp) == TranslateValues(-prp.x, -prp.y, -prp.z)
    ensures Apply(EyeTranslation(prp), Vector4(prp.x, prp.y, prp.z, 1.0)) == Vector4(0.0, 0.0, 0.0, 1.0)
  {
  }

  /** R of lines 20-26: rows u, v, n. */
  function Rotation(b: ViewBasis): (g: Grid)
    ensures Is4x4(g)
  {
    [[b.u.x, b.u.y, b.u.z, 0.0],
     [b.v.x, b.v.y, b.v.z, 0.0],
     [b.n.x, b.n.y, b.n.z, 0.0],
     [0.0, 0.0, 0.0, 1.0]]
  }

  /** R sends (p, 1) to its coordinates along u, v and n. */
  lemma RotationProjectsOntoBasis(b: ViewBasis, p: Vector3)
    ensures Apply(Rotation(b), Vector4(p.x, p.y, p.z, 1.0)) == Vector4(Dot(b.u, p), Dot(b.v, p), Dot(b.n, p), 1.0)
  {
  }

  predicate Orthonormal(b: ViewBasis)
  {
    Dot(b.u, b.u) == 1.0 && Dot(b.v, b.v) == 1.0 && Dot(b.n, b.n) == 1.0 &&
    Dot(b.u, b.v) == 0.0 && Dot(b.u, b.n) == 0.0 && Dot(b.v, b.n) == 0.0
  }

  function Direction(a: Vector3): Vector4
  {
    Vector4(a.x, a.y, a.z, 0.0)
  }

  /** For an orthonormal basis R turns u, v and n into the x, y and z axes. */
  lemma RotationAlignsBasis(b: ViewBasis)
    requires Orthonormal(b)
    ensures Apply(Rotation(b), Direction(b.u)) == Vector4(1.0, 0.0, 0.0, 0.0)
    ensures Apply(Rotation(b), Direction(b.v)) == Vector4(0.0, 1.0, 0.0, 0.0)
    ensures Apply(Rotation(b), Direction(b.n)) == Vector4(0.0, 0.0, 1.0, 0.0)
  {
    RotationOfDirection(b, b.u);
    RotationOfDirection(b, b.v);
    RotationOfDirection(b, b.n);
    DotCommutes(b.u, b.v);
    DotCommutes(b.u, b.n);
    DotCommutes(b.v, b.n);
  }

  lemma RotationOfDirection(b: ViewBasis, a: Vector3)
    ensures Apply(Rotation(b), Direction(a)) == Vector4(Dot(b.u, a), Dot(b.v, a), Dot(b.n, a), 0.0)
  {
  }

  lemma DotCommutes(a: Vector3, c: Vector3)
    ensures Dot(a, c) == Dot(c, a)
  {
  }

  /** The centre of the window on the near plane, `cw` of lines 28-34. */
  function WindowCentre(clip: seq<real>): Vector3
    requires |clip| == 6
  {
    Vector3((clip[0] + clip[1]) / 2.0, (clip[2] + clip[3]) / 2.0, -1.0 * clip[4])
  }

  /** S of lines 35-44; cw.z = -clip[4] must be nonzero for the shear factors. */
  function CentreShear(clip: seq<real>): (g: Grid)
    requires |clip| == 6 && clip[4] != 0.0
    ensures Is4x4(g)
  {
    var cw := WindowCentre(clip);
    var shx := -cw.x / cw.z;
    var shy := -cw.y / cw.z;
    [[1.0, 0.0, shx, 0.0],
     [0.0, 1.0, shy, 0.0],
     [0.0, 0.0, 1.0, 0.0],
     [0.0, 0.0, 0.0, 1.0]]
  }

  lemma QuotientCancels(a: real, d: real)
    requires d != 0.0
    ensures a + (-a / d) * d == 0.0
  {
  }

  /** S is an xy-shear that moves the window centre onto the z axis, at depth -clip[4]. */
  lemma CentreShearCentresWindow(clip: seq<real>)
    requires |clip| == 6 && clip[4] != 0.0
    ensures var cw := WindowCentre(clip);
            CentreShear(clip) == ShearXYValues(-cw.x / cw.z, -cw.y / cw.z)
    ensures var cw := WindowCentre(clip);
            Apply(CentreShear(clip), Vector4(cw.x, cw.y, cw.z, 1.0)) == Vector4(0.0, 0.0, -clip[4], 1.0)
  {
    var cw := WindowCentre(clip);
    QuotientCancels(cw.x, cw.z);
    QuotientCancels(cw.y, cw.z);
  }

  /** The x scale written at line 48: it multiplies by clip[5]. */
  function XScale(clip: seq<real>): real
    requires |clip| == 6 && clip[1] != clip[0]
  {
    ((2.0 * clip[4]) / (clip[1] - clip[0])) * clip[5]
  }

  /** The y scale written at line 49: its denominator is clip[2] - clip[3]. */
  function YScale(clip: seq<real>): real
    requires |clip| == 6 && clip[2] != clip[3]
  {
    ((2.0 * clip[4]) / (clip[2] - clip[3])) * clip[5]
  }

  /** The near plane's depth after P: -clip[4] / clip[5]. */
  function CanonicalNear(clip: seq<real>): real
    requires |clip| == 6 && clip[5] != 0.0
  {
    -clip[4] / clip[5]
  }

  predicate ScalableClip(clip: seq<real>)
  {
    |clip| == 6 && clip[1] != clip[0] && clip[2] != clip[3] && clip[5] != 0.0
  }

  /** P of lines 46-52. */
  function PerspectiveScale(clip: seq<real>): (g: Grid)
    requires ScalableClip(clip)
    ensures Is4x4(g)
  {
    [[((2.0 * clip[4]) / (clip[1] - clip[0])) * clip[5], 0.0, 0.0, 0.0],
     [0.0, ((2.0 * clip[4]) / (clip[2] - clip[3])) * clip[5], 0.0, 0.0],
     [0.0, 0.0, 1.0 / clip[5], 0.0],
     [0.0, 0.0, 0.0, 1.0]]
  }

  lemma DepthOverBack(z: real, back: real)
    requires back != 0.0
    ensures (1.0 / back) * z == z / back
  {
  }

  /**
   * P is a scaling: x and y by the written factors, z by 1 / clip[5], w kept.
   * The far plane z = -clip[5] goes to z = -1 and the near plane z = -clip[4]
   * to `CanonicalNear(clip)`.
   */
  lemma PerspectiveScaleMapsDepths(clip: seq<real>, v: Vector4)
    requires ScalableClip(clip)
    ensures PerspectiveScale(clip) == ScaleValues(XScale(clip), YScale(clip), 1.0 / clip[5])
    ensures Apply(PerspectiveScale(clip), v) == Vector4(XScale(clip) * v.x, YScale(clip) * v.y, v.z / clip[5], v.w)
    ensures v.z == -clip[5] ==> Apply(PerspectiveScale(clip), v).z == -1.0
    ensures v.z == -clip[4] ==> Apply(PerspectiveScale(clip), v).z == CanonicalNear(clip)
  {
    DepthOverBack(v.z, clip[5]);
  }

  // ---------------------------------------------------------------------
  // The x and y scale of P
  // ---------------------------------------------------------------------

  /** The sheared window's right edge on the near plane, at half the window width. */
  function RightEdge(clip: seq<real>): Vector4
    requires |clip| == 6
  {
    Vector4((clip[1] - clip[0]) / 2.0, 0.0, -clip[4], 1.0)
  }

  /** The sheared window's top edge on the near plane, at half the window height. */
  function TopEdge(clip: seq<real>): Vector4
    requires |clip| == 6
  {
    Vector4(0.0, (clip[3] - clip[2]) / 2.0, -clip[4], 1.0)
  }

  lemma HalfWidthScaled(front: real, span: real, factor: real)
    requires span != 0.0
    ensures ((2.0 * front) / span) * factor * (span / 2.0) == front * factor
  {
  }

  lemma QuotientTimes(a: real, b: real)
    requires b != 0.0
    ensures (a / b) * b == a
  {
  }

  lemma ScaleOrder(a: real, b: real, c: real)
    requires a <= b && c > 0.0
    ensures a * c <= b * c
  {
  }

  lemma FarScaleMissesNear(front: real, back: real)
    requires front > 0.0 && back > 0.0 && back != 1.0
    ensures front * back != front / back
  {
    var q := front / back;
    QuotientTimes(front, back);
    assert q * back == front;
    if q == front * back {
      if back > 1.0 {
        ScaleOrder(1.0, back, front);
        ScaleOrder(front, q, back);
      } else {
        ScaleOrder(back, 1.0, front);
        ScaleOrder(q, front, back);
      }
    }
  }

  /**
   * As written, P multiplies the x scale by clip[5]: for positive near and
   * far distances and a far distance other than 1, the window's right edge
   * on the near plane lands at x = clip[4] * clip[5], which is not on the
   * side plane x = -z of the canonical volume (where -z = clip[4] / clip[5]).
   */
  lemma PerspectiveScaleMissesSidePlane(clip: seq<real>)
    requires ScalableClip(clip) && clip[4] > 0.0 && clip[5] > 0.0 && clip[5] != 1.0
    ensures Apply(PerspectiveScale(clip), RightEdge(clip)).x == clip[4] * clip[5]
    ensures Apply(PerspectiveScale(clip), RightEdge(clip)).z == CanonicalNear(clip)
    ensures Apply(PerspectiveScale(clip), RightEdge(clip)).x != -CanonicalNear(clip)
  {
    PerspectiveScaleMapsDepths(clip, RightEdge(clip));
    HalfWidthScaled(clip[4], clip[1] - clip[0], clip[5]);
    FarScaleMissesNear(clip[4], clip[5]);
  }

  /** The x scale as the canonical volume needs it: divided by clip[5], not multiplied. */
  function CanonicalXScale(clip: seq<real>): real
    requires ScalableClip(clip)
  {
    (2.0 * clip[4]) / (clip[1] - clip[0]) / clip[5]
  }

  /** The y scale likewise; the denominator clip[2] - clip[3] keeps the source's flip of y. */
  function CanonicalYScale(clip: seq<real>): real
    requires ScalableClip(clip)
  {
    (2.0 * clip[4]) / (clip[2] - clip[3]) / clip[5]
  }

  /** P with the corrected x and y scales. */
  function CanonicalScale(clip: seq<real>): (g: Grid)
    requires ScalableClip(clip)
    ensures Is4x4(g)
  {
    ScaleValues(CanonicalXScale(clip), CanonicalYScale(clip), 1.0 / clip[5])
  }

  lemma HalfSpanScaled(front: real, span: real, back: real)
    requires span != 0.0 && back != 0.0
    ensures (2.0 * front) / span / back * (span / 2.0) == front / back
  {
  }

  /**
   * The corrected scale puts the window's right edge on the side plane
   * x = -z and its top edge on y = z (y being flipped), at the near depth.
   */
  lemma CanonicalScaleMeetsSidePlanes(clip: seq<real>)
    requires ScalableClip(clip)
    ensures Apply(CanonicalScale(clip), RightEdge(clip)).z == CanonicalNear(clip)
    ensures Apply(CanonicalScale(clip), RightEdge(clip)).x == -CanonicalNear(clip)
    ensures Apply(CanonicalScale(clip), TopEdge(clip)).y == CanonicalNear(clip)
  {
    ScaleScalesPoints(CanonicalXScale(clip), CanonicalYScale(clip), 1.0 / clip[5], RightEdge(clip));
    ScaleScalesPoints(CanonicalXScale(clip), CanonicalYScale(clip), 1.0 / clip[5], TopEdge(clip));
    HalfSpanScaled(clip[4], clip[1] - clip[0], clip[5]);
    HalfSpanScaled(clip[4], clip[2] - clip[3], clip[5]);
    DepthOverBack(-clip[4], clip[5]);
    assert (clip[3] - clip[2]) / 2.0 == -((clip[2] - clip[3]) / 2.0);
  }

}
