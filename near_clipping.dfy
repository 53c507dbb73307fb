/**
 * The clipper of scripts/renderer.js with the near bound passed on to the
 * recursive call, as the comment on the `z_min` parameter at line 426 (the
 * near clipping plane of the canonical view volume) intends, and the promise that
 * every accepted line is inside all six planes, proved for it.
 */
module NearClipping {
  import opened Wrappers
  import opened Vectors
  import opened Outcodes
  import opened Clipping
  import opened ClippingFindings

  /**
   * The clipper with the near bound kept through the recursion, as the
   * comment on the parameter (the near plane of the canonical view volume)
   * intends.
   */
  function ClipKeepingNear(line: Line, zMin: real, fuel: nat): Clipped
    decreases fuel
  {
    var out0, out1 := Outcode(Xyz(line.pt0), Some(zMin)), Outcode(Xyz(line.pt1), Some(zMin));
    if BitOr(out0, out1) == 0 then Accepted(line)
    else if BitAnd(out0, out1) != 0 then Rejected
    else
      match Step(line, Some(zMin))
      case None => ZeroDivisor
      case Some(next) => if fuel == 0 then OutOfFuel else ClipKeepingNear(next, zMin, fuel - 1)
  }

  /** Every line `ClipKeepingNear` accepts lies inside all six planes, the near plane included. */
  lemma {:induction false} ClipKeepingNearAcceptsInside(line: Line, zMin: real, fuel: nat)
    ensures ClipKeepingNear(line, zMin, fuel).Accepted? ==>
              var r := ClipKeepingNear(line, zMin, fuel).line;
              && InViewVolume(Xyz(r.pt0), Some(zMin)) && InViewVolume(Xyz(r.pt1), Some(zMin))
              && r.pt0.w == line.pt0.w && r.pt1.w == line.pt1.w
    decreases fuel
  {
    var p0, p1 := Xyz(line.pt0), Xyz(line.pt1);
    var out0, out1 := Outcode(p0, Some(zMin)), Outcode(p1, Some(zMin));
    BothInsideIff(p0, p1, Some(zMin));
    if BitOr(out0, out1) != 0 && BitAnd(out0, out1) == 0 {
      match Step(line, Some(zMin))
      case None =>
      case Some(next) =>
        if fuel > 0 {
          ClipKeepingNearAcceptsInside(next, zMin, fuel - 1);
        }
    }
  }

  lemma OffNearPlane(p: Vector3, d: Vector3, s: real)
    requires s > 0.0 && p == Vector3(-3.0 / 7.0 * s, 0.0, -3.0 / 7.0 * s) && d == Vector3(3.0 / 7.0 * s, 0.0, -6.0 / 35.0 * s)
    ensures Divisor(d, Near) == 6.0 / 35.0 * s
    ensures Intersection(p, d, Near, Some(CrossingNear(s))) == Vector3(-0.25 * s, 0.0, -0.5 * s)
  {
    assert Divisor(d, Near) == 6.0 / 35.0 * s && Numerator(p, Near, Some(CrossingNear(s))) == 1.0 / 14.0 * s;
    CancelPositive(Param(p, d, Near, Some(CrossingNear(s))), 5.0 / 12.0, 6.0 / 35.0 * s);
  }

  lemma SecondStepOffNear(s: real)
    requires CrossingScale(s)
    ensures BitOr(Outcode(Xyz(OnLeftPlane(s)), Some(CrossingNear(s))), Outcode(Xyz(NearCrossing(s).pt1), Some(CrossingNear(s)))) != 0
    ensures BitAnd(Outcode(Xyz(OnLeftPlane(s)), Some(CrossingNear(s))), Outcode(Xyz(NearCrossing(s).pt1), Some(CrossingNear(s)))) == 0
    ensures Step(Line(OnLeftPlane(s), NearCrossing(s).pt1), Some(CrossingNear(s))) == Some(Line(OnNearPlane(s), NearCrossing(s).pt1))
  {
    var p, q := Xyz(OnLeftPlane(s)), Xyz(NearCrossing(s).pt1);
    assert p == Vector3(-3.0 / 7.0 * s, 0.0, -3.0 / 7.0 * s) && q == Vector3(0.0, 0.0, -0.6 * s);
    assert Outcode(p, Some(CrossingNear(s))) == Mask(Near);
    assert Outcode(q, Some(CrossingNear(s))) == 0;
    assert ChosenPlane(1) == Near;
    OffNearPlane(p, Subtract(q, p), s);
  }

  lemma AfterSecondStepInside(s: real)
    requires CrossingScale(s)
    ensures Outcode(Xyz(OnNearPlane(s)), Some(CrossingNear(s))) == 0
    ensures Outcode(Xyz(NearCrossing(s).pt1), Some(CrossingNear(s))) == 0
  {
    assert Xyz(OnNearPlane(s)) == Vector3(-0.25 * s, 0.0, -0.5 * s);
    assert Xyz(NearCrossing(s).pt1) == Vector3(0.0, 0.0, -0.6 * s);
  }

  /**
   * On the lines of `AcceptedLineCanCrossNearPlane`, keeping the near bound
   * takes a second step, off the near plane at parameter 5/12, and accepts a
   * line that ends on it.
   */
  lemma ClipKeepingNearClipsNear(s: real, fuel: nat)
    requires CrossingScale(s) && fuel >= 2
    ensures ClipKeepingNear(NearCrossing(s), CrossingNear(s), fuel) == Accepted(Line(OnNearPlane(s), NearCrossing(s).pt1))
  {
    var first := Line(OnLeftPlane(s), NearCrossing(s).pt1);
    var second := Line(OnNearPlane(s), NearCrossing(s).pt1);
    FirstStepOffLeft(s);
    assert ClipKeepingNear(NearCrossing(s), CrossingNear(s), fuel) == ClipKeepingNear(first, CrossingNear(s), fuel - 1);
    SecondStepOffNear(s);
    assert ClipKeepingNear(first, CrossingNear(s), fuel - 1) == ClipKeepingNear(second, CrossingNear(s), fuel - 2);
    AfterSecondStepInside(s);
    BothInsideIff(Xyz(OnNearPlane(s)), Xyz(NearCrossing(s).pt1), Some(CrossingNear(s)));
  }
}
