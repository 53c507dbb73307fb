/**
 * The perspective line clipper of scripts/renderer.js (`clipLinePerspective`):
 * a three-dimensional Cohen-Sutherland clipper against the canonical view
 * volume `x = +-z`, `y = +-z`, `z = -1`, `z = z_min`.
 *
 * `Clip` is the specification: one trivial test, or one step that snaps an
 * endpoint onto a plane, followed by a recursive call.  `ClipLinePerspective`
 * is the source's procedure, loops and reassignments included, proved to
 * compute `Clip`.  The lemmas state what the source promises of the result and
 * where it does not keep that promise.
 *
 * The source recursion has no depth bound, so both take a `fuel` bound on the
 * number of recursive calls; running out of it is the `OutOfFuel` outcome.
 */
module Clipping {
  import opened Wrappers
  import opened Vectors
  import opened Outcodes

  /** `{pt0, pt1}`: a segment between two homogeneous points. */
  datatype Line = Line(pt0: Vector4, pt1: Vector4)

  /**
   * What clipping a line yields.  `Accepted` and `Rejected` are the source's
   * new line and `null`.  `ZeroDivisor` marks a step whose plane equation has
   * a zero denominator: the source divides by zero there and goes on with
   * IEEE infinities, which this model does not follow.  `OutOfFuel` marks a
   * recursion deeper than the given fuel.
   */
  datatype Clipped = Accepted(line: Line) | Rejected | ZeroDivisor | OutOfFuel

  /** The denominator of the source's `t` for a plane, moving along the delta `d`. */
  function Divisor(d: Vector3, plane: Plane): real
  {
    match plane
    case Left => d.x - d.z
    case Right => -d.x - d.z
    case Bottom => d.y - d.z
    case Top => -d.y - d.z
    case Far => d.z
    case Near => -d.z
  }

  /** The numerator of the source's `t`: how far `p` lies beyond the plane. */
  function Numerator(p: Vector3, plane: Plane, zMin: Option<real>): real
    requires plane == Near ==> zMin.Some?
  {
    match plane
    case Left => -p.x + p.z
    case Right => p.x + p.z
    case Bottom => -p.y + p.z
    case Top => p.y + p.z
    case Far => -p.z - 1.0
    case Near => p.z - zMin.value
  }

  /** The source's `t`: the parameter at which the line from `p` along `d` meets the plane. */
  function Param(p: Vector3, d: Vector3, plane: Plane, zMin: Option<real>): (t: real)
    requires Divisor(d, plane) != 0.0
    requires plane == Near ==> zMin.Some?
    ensures t * Divisor(d, plane) == Numerator(p, plane, zMin)
  {
    Numerator(p, plane, zMin) / Divisor(d, plane)
  }

  /** The point at parameter `t` on the line from `p` along `d` (the other endpoint is at 1). */
  function PointAt(p: Vector3, d: Vector3, t: real): Vector3
  {
    Vector3(p.x + t * d.x, p.y + t * d.y, p.z + t * d.z)
  }

  /** The exact boundary equations: `x = z`, `x = -z`, `y = z`, `y = -z`, `z = -1`, `z = z_min`. */
  predicate OnPlane(v: Vector3, plane: Plane, zMin: Option<real>)
  {
    match plane
    case Left => v.x == v.z
    case Right => v.x == -v.z
    case Bottom => v.y == v.z
    case Top => v.y == -v.z
    case Far => v.z == -1.0
    case Near => zMin.Some? && v.z == zMin.value
  }

  /** Any parameter solving the plane's equation `t * divisor == numerator` gives a point on the plane. */
  lemma PointAtSolutionOnPlane(p: Vector3, d: Vector3, plane: Plane, zMin: Option<real>, t: real)
    requires plane == Near ==> zMin.Some?
    requires t * Divisor(d, plane) == Numerator(p, plane, zMin)
    ensures OnPlane(PointAt(p, d, t), plane, zMin)
  {
    match plane
    case Left => assert t * (d.x - d.z) == t * d.x - t * d.z;
    case Right => assert t * (-d.x - d.z) == -(t * d.x) - t * d.z;
    case Bottom => assert t * (d.y - d.z) == t * d.y - t * d.z;
    case Top => assert t * (-d.y - d.z) == -(t * d.y) - t * d.z;
    case Far =>
    case Near => assert t * -d.z == -(t * d.z);
  }

  /** The point of the line at the source's `t` lies exactly on the plane. */
  function Intersection(p: Vector3, d: Vector3, plane: Plane, zMin: Option<real>): (r: Vector3)
    requires Divisor(d, plane) != 0.0
    requires plane == Near ==> zMin.Some?
    ensures OnPlane(r, plane, zMin)
  {
    PointAtSolutionOnPlane(p, d, plane, zMin, Param(p, d, plane, zMin));
    PointAt(p, d, Param(p, d, plane, zMin))
  }

  /**
   * One clipping step on a line with an endpoint outside: endpoint 0 is moved
   * when its outcode is nonzero, endpoint 1 otherwise; it is moved along the
   * line onto the plane of its outcode's highest-order bit; the other
   * endpoint and both `w` stay as they were.  `None` when the plane's
   * denominator is zero.
   */
  function Step(line: Line, zMin: Option<real>): (r: Option<Line>)
    requires Outcode(Xyz(line.pt0), zMin) != 0 || Outcode(Xyz(line.pt1), zMin) != 0
    ensures r.Some? ==> r.value.pt0.w == line.pt0.w && r.value.pt1.w == line.pt1.w
    ensures r.Some? && Outcode(Xyz(line.pt0), zMin) > 0 ==>
              && r.value.pt1 == line.pt1
              && OnPlane(Xyz(r.value.pt0), ChosenPlane(Outcode(Xyz(line.pt0), zMin)), zMin)
    ensures r.Some? && Outcode(Xyz(line.pt0), zMin) == 0 ==>
              && r.value.pt0 == line.pt0
              && OnPlane(Xyz(r.value.pt1), ChosenPlane(Outcode(Xyz(line.pt1), zMin)), zMin)
  {
    var p0, p1 := Xyz(line.pt0), Xyz(line.pt1);
    var out0, out1 := Outcode(p0, zMin), Outcode(p1, zMin);
    if out0 > 0 then
      var plane, d := ChosenPlane(out0), Subtract(p1, p0);
      if Divisor(d, plane) == 0.0 then None
      else
        var v := Intersection(p0, d, plane, zMin);
        Some(Line(Vector4(v.x, v.y, v.z, line.pt0.w), line.pt1))
    else
      var plane, d := ChosenPlane(out1), Subtract(p0, p1);
      if Divisor(d, plane) == 0.0 then None
      else
        var v := Intersection(p1, d, plane, zMin);
        Some(Line(line.pt0, Vector4(v.x, v.y, v.z, line.pt1.w)))
  }

  /**
   * The clipper: trivially accept when `out0 | out1` is 0, trivially reject
   * when `out0 & out1` is not, otherwise take one step and clip the new line
   * again.  The recursive call passes no `z_min`.
   */
  function Clip(line: Line, zMin: Option<real>, fuel: nat): (r: Clipped)
    ensures r.Accepted? ==> r.line.pt0.w == line.pt0.w && r.line.pt1.w == line.pt1.w
    decreases fuel
  {
    var out0, out1 := Outcode(Xyz(line.pt0), zMin), Outcode(Xyz(line.pt1), zMin);
    if BitOr(out0, out1) == 0 then Accepted(line)
    else if BitAnd(out0, out1) != 0 then Rejected
    else
      match Step(line, zMin)
      case None => ZeroDivisor
      case Some(next) => if fuel == 0 then OutOfFuel else Clip(next, None, fuel - 1)
  }

  /*
   * One lemma per plane: the closed form of the source's branch (solve `t`,
   * move the two free coordinates by `t` times the deltas, set the plane's
   * coordinate outright) is the intersection point.
   */
  lemma LeftBranchMeetsPlane(x: real, y: real, z: real, deltaX: real, deltaY: real, deltaZ: real, zMin: Option<real>, t: real)
    requires deltaX - deltaZ != 0.0
    requires t == (-x + z) / (deltaX - deltaZ)
    ensures Vector3(z + t * deltaZ, y + t * deltaY, z + t * deltaZ) == Intersection(Vector3(x, y, z), Vector3(deltaX, deltaY, deltaZ), Left, zMin)
  {
    var p, d := Vector3(x, y, z), Vector3(deltaX, deltaY, deltaZ);
    PointAtSolutionOnPlane(p, d, Left, zMin, Param(p, d, Left, zMin));
  }

  lemma RightBranchMeetsPlane(x: real, y: real, z: real, deltaX: real, deltaY: real, deltaZ: real, zMin: Option<real>, t: real)
    requires -deltaX - deltaZ != 0.0
    requires t == (x + z) / (-deltaX - deltaZ)
    ensures Vector3(-(z + t * deltaZ), y + t * deltaY, z + t * deltaZ) == Intersection(Vector3(x, y, z), Vector3(deltaX, deltaY, deltaZ), Right, zMin)
  {
    var p, d := Vector3(x, y, z), Vector3(deltaX, deltaY, deltaZ);
    PointAtSolutionOnPlane(p, d, Right, zMin, Param(p, d, Right, zMin));
  }

  lemma BottomBranchMeetsPlane(x: real, y: real, z: real, deltaX: real, deltaY: real, deltaZ: real, zMin: Option<real>, t: real)
    requires deltaY - deltaZ != 0.0
    requires t == (-y + z) / (deltaY - deltaZ)
    ensures Vector3(x + t * deltaX, z + t * deltaZ, z + t * deltaZ) == Intersection(Vector3(x, y, z), Vector3(deltaX, deltaY, deltaZ), Bottom, zMin)
  {
    var p, d := Vector3(x, y, z), Vector3(deltaX, deltaY, deltaZ);
    PointAtSolutionOnPlane(p, d, Bottom, zMin, Param(p, d, Bottom, zMin));
  }

  lemma TopBranchMeetsPlane(x: real, y: real, z: real, deltaX: real, deltaY: real, deltaZ: real, zMin: Option<real>, t: real)
    requires -deltaY - deltaZ != 0.0
    requires t == (y + z) / (-deltaY - deltaZ)
    ensures Vector3(x + t * deltaX, -(z + t * deltaZ), z + t * deltaZ) == Intersection(Vector3(x, y, z), Vector3(deltaX, deltaY, deltaZ), Top, zMin)
  {
    var p, d := Vector3(x, y, z), Vector3(deltaX, deltaY, deltaZ);
    PointAtSolutionOnPlane(p, d, Top, zMin, Param(p, d, Top, zMin));
  }

  lemma FarBranchMeetsPlane(x: real, y: real, z: real, deltaX: real, deltaY: real, deltaZ: real, zMin: Option<real>, t: real)
    requires deltaZ != 0.0
    requires t == (-z - 1.0) / deltaZ
    ensures Vector3(x + t * deltaX, y + t * deltaY, -1.0) == Intersection(Vector3(x, y, z), Vector3(deltaX, deltaY, deltaZ), Far, zMin)
  {
    var p, d := Vector3(x, y, z), Vector3(deltaX, deltaY, deltaZ);
    PointAtSolutionOnPlane(p, d, Far, zMin, Param(p, d, Far, zMin));
  }

  lemma NearBranchMeetsPlane(x: real, y: real, z: real, deltaX: real, deltaY: real, deltaZ: real, zMin: Option<real>, t: real)
    requires zMin.Some? && -deltaZ != 0.0
    requires t == (z - zMin.value) / -deltaZ
    ensures Vector3(x + t * deltaX, y + t * deltaY, zMin.value) == Intersection(Vector3(x, y, z), Vector3(deltaX, deltaY, deltaZ), Near, zMin)
  {
    var p, d := Vector3(x, y, z), Vector3(deltaX, deltaY, deltaZ);
    PointAtSolutionOnPlane(p, d, Near, zMin, Param(p, d, Near, zMin));
  }

  /**
   * The six plane branches of `clipLinePerspective`: the plane is picked by
   * the index of the leftmost '1' in the padded outcode string, `t` is solved
   * from that plane's equation and the point `(x, y, z)` is moved by `t`
   * times the deltas, the coordinate fixed by the plane being set outright.
   * `None` where the source divides by zero.
   */
  method MoveOntoPlane(firstBitIndex: int, x0: real, y0: real, z0: real, deltaX: real, deltaY: real, deltaZ: real,
                       zMin: Option<real>, ghost plane: Plane)
    returns (moved: Option<Vector3>)
    requires firstBitIndex == StringIndex(plane)
    requires plane == Near ==> zMin.Some?
    ensures moved.None? <==> Divisor(Vector3(deltaX, deltaY, deltaZ), plane) == 0.0
    ensures moved.Some? ==>
              moved.value == Intersection(Vector3(x0, y0, z0), Vector3(deltaX, deltaY, deltaZ), plane, zMin)
  {
    var x, y, z := x0, y0, z0;
    var t: real;
    if firstBitIndex == 0 {
      // left of the left plane x = z
      if deltaX - deltaZ == 0.0 { return None; }
      t := (-x + z) / (deltaX - deltaZ);
      assert plane == Left;
      LeftBranchMeetsPlane(x, y, z, deltaX, deltaY, deltaZ, zMin, t);
      y := y + t * deltaY;
      z := z + t * deltaZ;
      x := z;
    } else if firstBitIndex == 1 {
      // right of the right plane x = -z
      if -deltaX - deltaZ == 0.0 { return None; }
      t := (x + z) / (-deltaX - deltaZ);
      assert plane == Right;
      RightBranchMeetsPlane(x, y, z, deltaX, deltaY, deltaZ, zMin, t);
      y := y + t * deltaY;
      z := z + t * deltaZ;
      x := -z;
    } else if firstBitIndex == 2 {
      // below the bottom plane y = z
      if deltaY - deltaZ == 0.0 { return None; }
      t := (-y + z) / (deltaY - deltaZ);
      assert plane == Bottom;
      BottomBranchMeetsPlane(x, y, z, deltaX, deltaY, deltaZ, zMin, t);
      x := x + t * deltaX;
      z := z + t * deltaZ;
      y := z;
    } else if firstBitIndex == 3 {
      // above the top plane y = -z
      if -deltaY - deltaZ == 0.0 { return None; }
      t := (y + z) / (-deltaY - deltaZ);
      assert plane == Top;
      TopBranchMeetsPlane(x, y, z, deltaX, deltaY, deltaZ, zMin, t);
      x := x + t * deltaX;
      z := z + t * deltaZ;
      y := -z;
    } else if firstBitIndex == 4 {
      // behind the far plane z = -1
      if deltaZ == 0.0 { return None; }
      t := (-z - 1.0) / deltaZ;
      assert plane == Far;
      FarBranchMeetsPlane(x, y, z, deltaX, deltaY, deltaZ, zMin, t);
      x := x + t * deltaX;
      y := y + t * deltaY;
      z := -1.0;
    } else {
      // in front of the near plane z = z_min (index 5)
      if -deltaZ == 0.0 { return None; }
      t := (z - zMin.value) / -deltaZ;
      assert plane == Near;
      NearBranchMeetsPlane(x, y, z, deltaX, deltaY, deltaZ, zMin, t);
      x := x + t * deltaX;
      y := y + t * deltaY;
      z := zMin.value;
    }
    moved := Some(Vector3(x, y, z));
  }

  /**
   * `clipLinePerspective(line, z_min)` as the source runs it: copies of the
   * endpoints, the two outcodes, the trivial tests, the padded bit string and
   * its scan, the six plane branches reassigning `x`, `y`, `z` and `t`, the
   * update of the selected copy, and the recursive call without `z_min`.
   */
  method ClipLinePerspective(line: Line, zMin: Option<real>, fuel: nat) returns (result: Clipped)
    ensures result == Clip(line, zMin, fuel)
    decreases fuel
  {
    var p0 := Vector3(line.pt0.x, line.pt0.y, line.pt0.z);
    var p1 := Vector3(line.pt1.x, line.pt1.y, line.pt1.z);
    var out0 := Outcode(p0, zMin);
    var out1 := Outcode(p1, zMin);

    if BitOr(out0, out1) == 0 {
      // trivially accept: both endpoints inside
      return Accepted(Line(Vector4(p0.x, p0.y, p0.z, line.pt0.w), Vector4(p1.x, p1.y, p1.z, line.pt1.w)));
    } else if BitAnd(out0, out1) != 0 {
      // trivially reject: both endpoints beyond one plane
      return Rejected;
    }

    var bitString: string;
    var selectedEndpoint: nat;
    var x, y, z: real;
    var deltaX, deltaY, deltaZ: real;
    if out0 > 0 {
      bitString := PaddedBitString(out0);
      selectedEndpoint := 0;
      x, y, z := p0.x, p0.y, p0.z;
      deltaX, deltaY, deltaZ := p1.x - p0.x, p1.y - p0.y, p1.z - p0.z;
    } else {
      bitString := PaddedBitString(out1);
      selectedEndpoint := 1;
      x, y, z := p1.x, p1.y, p1.z;
      deltaX, deltaY, deltaZ := p0.x - p1.x, p0.y - p1.y, p0.z - p1.z;
    }
    ghost var code := if out0 > 0 then out0 else out1;
    ghost var p := if out0 > 0 then p0 else p1;
    ghost var d := if out0 > 0 then Subtract(p1, p0) else Subtract(p0, p1);
    assert Vector3(x, y, z) == p && Vector3(deltaX, deltaY, deltaZ) == d;
    ghost var plane := ChosenPlane(code);

    var firstBitIndex := LeftmostOne(bitString);
    LeftmostOneIsChosenPlane(code);
    assert firstBitIndex == StringIndex(plane);

    var moved := MoveOntoPlane(firstBitIndex, x, y, z, deltaX, deltaY, deltaZ, zMin, plane);
    if moved.None? {
      assert Step(line, zMin).None?;
      return ZeroDivisor;
    }
    x, y, z := moved.value.x, moved.value.y, moved.value.z;

    if selectedEndpoint == 0 {
      p0 := p0.(x := x, y := y, z := z);
    } else {
      p1 := p1.(x := x, y := y, z := z);
    }
    var next := Line(Vector4(p0.x, p0.y, p0.z, line.pt0.w), Vector4(p1.x, p1.y, p1.z, line.pt1.w));
    assert Step(line, zMin) == Some(next);
    if fuel == 0 {
      return OutOfFuel;
    }
    result := ClipLinePerspective(next, None, fuel - 1);
  }

  /** The endpoint one clipping step moves: endpoint 0 when its outcode is nonzero, endpoint 1 otherwise. */
  function Mover(line: Line, zMin: Option<real>): Vector3
  {
    if Outcode(Xyz(line.pt0), zMin) > 0 then Xyz(line.pt0) else Xyz(line.pt1)
  }

  /** The endpoint one clipping step leaves in place. */
  function Anchor(line: Line, zMin: Option<real>): Vector3
  {
    if Outcode(Xyz(line.pt0), zMin) > 0 then Xyz(line.pt1) else Xyz(line.pt0)
  }

  /** The plane one clipping step moves `Mover` onto. */
  function MovedPlane(line: Line, zMin: Option<real>): Plane
    requires Outcode(Xyz(line.pt0), zMin) != 0 || Outcode(Xyz(line.pt1), zMin) != 0
  {
    ChosenPlane(Outcode(Mover(line, zMin), zMin))
  }

  /**
   * Trivial acceptance and rejection: a line with both endpoints inside comes
   * back unchanged, a line with both endpoints beyond one plane is dropped.
   */
  lemma ClipTrivialCases(line: Line, zMin: Option<real>, fuel: nat)
    ensures InViewVolume(Xyz(line.pt0), zMin) && InViewVolume(Xyz(line.pt1), zMin)
            ==> Clip(line, zMin, fuel) == Accepted(line)
    ensures (exists plane :: Violates(Xyz(line.pt0), zMin, plane) && Violates(Xyz(line.pt1), zMin, plane))
            ==> Clip(line, zMin, fuel) == Rejected
  {
    BothInsideIff(Xyz(line.pt0), Xyz(line.pt1), zMin);
    SharedPlaneIff(Xyz(line.pt0), Xyz(line.pt1), zMin);
  }

  /**
   * A step that is taken moves an endpoint that is beyond the chosen plane,
   * towards an endpoint that is not.
   */
  lemma StepCrossesPlane(line: Line, zMin: Option<real>)
    requires Outcode(Xyz(line.pt0), zMin) != 0 || Outcode(Xyz(line.pt1), zMin) != 0
    requires BitAnd(Outcode(Xyz(line.pt0), zMin), Outcode(Xyz(line.pt1), zMin)) == 0
    ensures Violates(Mover(line, zMin), zMin, MovedPlane(line, zMin))
    ensures !Violates(Anchor(line, zMin), zMin, MovedPlane(line, zMin))
  {
    var p, q := Mover(line, zMin), Anchor(line, zMin);
    var plane := MovedPlane(line, zMin);
    OutcodeBits(p, zMin);
    SharedPlaneIff(Xyz(line.pt0), Xyz(line.pt1), zMin);
  }

  /**
   * The sign of the source's divisions.  Moving off the left, bottom, far or
   * near plane the denominator is positive, and so is `t`.  Off the right
   * (top) plane it is positive unless the other endpoint is beyond the left
   * (bottom) plane, where it can be zero (see `RightDivisorCanVanish`).
   */
  lemma DivisorSign(line: Line, zMin: Option<real>)
    requires Outcode(Xyz(line.pt0), zMin) != 0 || Outcode(Xyz(line.pt1), zMin) != 0
    requires BitAnd(Outcode(Xyz(line.pt0), zMin), Outcode(Xyz(line.pt1), zMin)) == 0
    ensures MovedPlane(line, zMin) == Near ==> zMin.Some?
    ensures var p, q, plane := Mover(line, zMin), Anchor(line, zMin), MovedPlane(line, zMin);
            var d := Subtract(q, p);
            && (plane == Left || plane == Bottom || plane == Far || plane == Near ==> Divisor(d, plane) > 0.0)
            && (plane == Right ==> Divisor(d, plane) > 0.0 || Violates(q, zMin, Left))
            && (plane == Top ==> Divisor(d, plane) > 0.0 || Violates(q, zMin, Bottom))
            && (Divisor(d, plane) > 0.0 ==> Param(p, d, plane, zMin) > 0.0)
  {
    StepCrossesPlane(line, zMin);
    DivisorSignAt(Mover(line, zMin), Anchor(line, zMin), MovedPlane(line, zMin), zMin);
  }

  /** `DivisorSign` for one endpoint beyond a plane and one that is not. */
  lemma DivisorSignAt(p: Vector3, q: Vector3, plane: Plane, zMin: Option<real>)
    requires Violates(p, zMin, plane) && !Violates(q, zMin, plane)
    ensures plane == Near ==> zMin.Some?
    ensures var d := Subtract(q, p);
            && (plane == Left || plane == Bottom || plane == Far || plane == Near ==> Divisor(d, plane) > 0.0)
            && (plane == Right ==> Divisor(d, plane) > 0.0 || Violates(q, zMin, Left))
            && (plane == Top ==> Divisor(d, plane) > 0.0 || Violates(q, zMin, Bottom))
            && (Divisor(d, plane) > 0.0 ==> Param(p, d, plane, zMin) > 0.0)
  {
    var d := Subtract(q, p);
    if Divisor(d, plane) > 0.0 {
      assert Numerator(p, plane, zMin) > 0.0;
      PositiveQuotient(Numerator(p, plane, zMin), Divisor(d, plane));
    }
  }

  lemma PositiveQuotient(n: real, d: real)
    requires n > 0.0 && d > 0.0
    ensures n / d > 0.0
  {
  }

  /**
   * `Step` follows the source: it moves `Mover` along the line onto
   * `MovedPlane`, and is `None` exactly when that plane's denominator is zero.
   */
  lemma StepMovesMover(line: Line, zMin: Option<real>)
    requires Outcode(Xyz(line.pt0), zMin) != 0 || Outcode(Xyz(line.pt1), zMin) != 0
    ensures MovedPlane(line, zMin) == Near ==> zMin.Some?
    ensures var p, q, plane := Mover(line, zMin), Anchor(line, zMin), MovedPlane(line, zMin);
            var d := Subtract(q, p);
            && (Step(line, zMin).None? <==> Divisor(d, plane) == 0.0)
            && (Step(line, zMin).Some? ==>
                  var next := Step(line, zMin).value;
                  var t := Param(p, d, plane, zMin);
                  if Outcode(Xyz(line.pt0), zMin) > 0 then
                    && next.pt1 == line.pt1 && next.pt0.w == line.pt0.w
                    && Xyz(next.pt0) == PointAt(p, d, t) && OnPlane(Xyz(next.pt0), plane, zMin)
                  else
                    && next.pt0 == line.pt0 && next.pt1.w == line.pt1.w
                    && Xyz(next.pt1) == PointAt(p, d, t) && OnPlane(Xyz(next.pt1), plane, zMin))
  {
    OutcodeBits(Mover(line, zMin), zMin);
  }

  /**
   * Where the source divides by zero.  A zero denominator only occurs off the
   * right (top) plane with the anchor beyond the left (bottom) plane, the
   * numerator is positive and the anchor lies deeper along `z` than the
   * mover: the source's `t` is `+Infinity`, the moved point gets
   * `z = +Infinity` and `x = -Infinity` (`y = -Infinity`), so it lies beyond
   * the same left (bottom) plane as the anchor and the next call rejects the
   * line.
   */
  lemma ZeroDivisorForcesPositiveDeltaZ(line: Line, zMin: Option<real>)
    requires Outcode(Xyz(line.pt0), zMin) != 0 || Outcode(Xyz(line.pt1), zMin) != 0
    requires BitAnd(Outcode(Xyz(line.pt0), zMin), Outcode(Xyz(line.pt1), zMin)) == 0
    requires Step(line, zMin).None?
    ensures MovedPlane(line, zMin) == Right || MovedPlane(line, zMin) == Top
    ensures Numerator(Mover(line, zMin), MovedPlane(line, zMin), zMin) > 0.0
    ensures Subtract(Anchor(line, zMin), Mover(line, zMin)).z > 0.0
    ensures MovedPlane(line, zMin) == Right ==> Violates(Anchor(line, zMin), zMin, Left)
    ensures MovedPlane(line, zMin) == Top ==> Violates(Anchor(line, zMin), zMin, Bottom)
  {
    StepMovesMover(line, zMin);
    StepCrossesPlane(line, zMin);
    DivisorSign(line, zMin);
  }

  /** An endpoint inside the volume with a near plane is inside without one. */
  lemma InsideWithoutNear(p: Vector3, zMin: Option<real>)
    ensures InViewVolume(p, zMin) ==> InViewVolume(p, None)
  {
  }

  /**
   * For a near bound of zero or more, as the renderer passes (`clip[4]`), the
   * near test never changes which points are inside: every point inside the
   * other five planes already has `z <= Epsilon`.
   */
  lemma NearTestIdle(p: Vector3, zMin: real)
    requires zMin >= 0.0
    ensures InViewVolume(p, None) <==> InViewVolume(p, Some(zMin))
  {
  }

  /**
   * What the clipper promises of an accepted line: both endpoints lie inside
   * the volume bounded by the left, right, bottom, top and far planes, inside
   * the near plane too when the near bound is zero or more, every `w` is the
   * one given, and an endpoint that was inside to begin with is returned
   * unchanged.
   */
  lemma {:induction false} ClipAcceptsOnlyInside(line: Line, zMin: Option<real>, fuel: nat)
    ensures Clip(line, zMin, fuel).Accepted? ==>
              var r := Clip(line, zMin, fuel).line;
              && InViewVolume(Xyz(r.pt0), None) && InViewVolume(Xyz(r.pt1), None)
              && r.pt0.w == line.pt0.w && r.pt1.w == line.pt1.w
              && (InViewVolume(Xyz(line.pt0), zMin) ==> r.pt0 == line.pt0)
              && (InViewVolume(Xyz(line.pt1), zMin) ==> r.pt1 == line.pt1)
    ensures Clip(line, zMin, fuel).Accepted? && (zMin.Some? ==> zMin.value >= 0.0) ==>
              var r := Clip(line, zMin, fuel).line;
              InViewVolume(Xyz(r.pt0), zMin) && InViewVolume(Xyz(r.pt1), zMin)
    decreases fuel
  {
    var p0, p1 := Xyz(line.pt0), Xyz(line.pt1);
    var out0, out1 := Outcode(p0, zMin), Outcode(p1, zMin);
    BothInsideIff(p0, p1, zMin);
    if BitOr(out0, out1) == 0 {
      InsideWithoutNear(p0, zMin);
      InsideWithoutNear(p1, zMin);
    } else if BitAnd(out0, out1) == 0 {
      match Step(line, zMin)
      case None =>
      case Some(next) =>
        if fuel > 0 {
          ClipAcceptsOnlyInside(next, None, fuel - 1);
          var r := Clip(line, zMin, fuel);
          if r.Accepted? && zMin.Some? && zMin.value >= 0.0 {
            NearTestIdle(Xyz(r.line.pt0), zMin.value);
            NearTestIdle(Xyz(r.line.pt1), zMin.value);
          }
        }
    }
  }

  /** Fuel only bounds the recursion: once a result is reached, more fuel gives the same result. */
  lemma {:induction false} ClipMoreFuel(line: Line, zMin: Option<real>, fuel: nat, more: nat)
    requires fuel <= more
    requires Clip(line, zMin, fuel) != OutOfFuel
    ensures Clip(line, zMin, more) == Clip(line, zMin, fuel)
    decreases fuel
  {
    var out0, out1 := Outcode(Xyz(line.pt0), zMin), Outcode(Xyz(line.pt1), zMin);
    if BitOr(out0, out1) != 0 && BitAnd(out0, out1) == 0 {
      match Step(line, zMin)
      case None =>
      case Some(next) =>
        ClipMoreFuel(next, None, fuel - 1, more - 1);
    }
  }

  /** `Clip` on a line that is neither trivially accepted nor trivially rejected takes a step. */
  lemma ClipUnfolds(line: Line, zMin: Option<real>, fuel: nat)
    requires BitOr(Outcode(Xyz(line.pt0), zMin), Outcode(Xyz(line.pt1), zMin)) != 0
    requires BitAnd(Outcode(Xyz(line.pt0), zMin), Outcode(Xyz(line.pt1), zMin)) == 0
    ensures Step(line, zMin).None? ==> Clip(line, zMin, fuel) == ZeroDivisor
    ensures Step(line, zMin).Some? ==>
              Clip(line, zMin, fuel) == if fuel == 0 then OutOfFuel else Clip(Step(line, zMin).value, None, fuel - 1)
  {
  }

}
