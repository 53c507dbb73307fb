/**
 * Families of lines on which `clipLinePerspective` of scripts/renderer.js
 * does not do what its comments promise: a zero denominator, a recursion
 * that never ends, and an accepted line beyond the near plane.  Each family
 * is indexed by a real parameter; each fact (the two outcodes, that no
 * trivial case applies, the one step taken) is proved on its own and the
 * facts are joined by `ClipUnfolds`.
 */
module ClippingFindings {
  import opened Wrappers
  import opened Vectors
  import opened Outcodes
  import opened Clipping

  /** `a * c == b * c` with `c` positive gives `a == b`. */
  lemma CancelPositive(a: real, b: real, c: real)
    requires c > 0.0 && a * c == b * c
    ensures a == b
  {
  }

  // ---------------------------------------------------------------------------
  // A zero denominator
  // ---------------------------------------------------------------------------

  /*
   * Endpoint 0 is beyond the right plane only, endpoint 1 beyond the left and
   * bottom planes; the step off the right plane then divides by
   * `-deltaX - deltaZ = s - s = 0`.
   */
  function ZeroDivisorLine(s: real): Line
  {
    Line(Vector4(s, 0.0, 0.0, 1.0), Vector4(0.0, 0.0, s, 1.0))
  }

  lemma ZeroDivisorOutcodes(s: real, zMin: Option<real>)
    requires s > Epsilon && (zMin.Some? ==> zMin.value >= s)
    ensures Outcode(Xyz(ZeroDivisorLine(s).pt0), zMin) == Mask(Right)
    ensures Outcode(Xyz(ZeroDivisorLine(s).pt1), zMin) == Mask(Left) + Mask(Bottom)
  {
    assert Xyz(ZeroDivisorLine(s).pt0) == Vector3(s, 0.0, 0.0);
    assert Xyz(ZeroDivisorLine(s).pt1) == Vector3(0.0, 0.0, s);
  }

  lemma ZeroDivisorNotTrivial(s: real, zMin: Option<real>)
    requires s > Epsilon && (zMin.Some? ==> zMin.value >= s)
    ensures BitOr(Outcode(Xyz(ZeroDivisorLine(s).pt0), zMin), Outcode(Xyz(ZeroDivisorLine(s).pt1), zMin)) != 0
    ensures BitAnd(Outcode(Xyz(ZeroDivisorLine(s).pt0), zMin), Outcode(Xyz(ZeroDivisorLine(s).pt1), zMin)) == 0
  {
    ZeroDivisorOutcodes(s, zMin);
    assert BitAnd(16, 40) == 0;
  }

  lemma ZeroDivisorStep(s: real, zMin: Option<real>)
    requires s > Epsilon && (zMin.Some? ==> zMin.value >= s)
    ensures Outcode(Xyz(ZeroDivisorLine(s).pt0), zMin) != 0
    ensures MovedPlane(ZeroDivisorLine(s), zMin) == Right
    ensures Step(ZeroDivisorLine(s), zMin) == None
  {
    var p, q := Xyz(ZeroDivisorLine(s).pt0), Xyz(ZeroDivisorLine(s).pt1);
    ZeroDivisorOutcodes(s, zMin);
    assert ChosenPlane(16) == Right by {
      assert Bit(16, 4);
    }
    assert Subtract(q, p) == Vector3(-s, 0.0, s);
  }

  /**
   * A zero denominator: for every `s > Epsilon`, the line from `(s, 0, 0)`
   * (beyond the right plane) to `(0, 0, s)` (beyond the left and bottom
   * planes) is neither accepted nor rejected, and the step off the right
   * plane divides by zero.
   */
  lemma RightDivisorCanVanish(s: real, zMin: Option<real>, fuel: nat)
    requires s > Epsilon && (zMin.Some? ==> zMin.value >= s)
    ensures && Outcode(Xyz(ZeroDivisorLine(s).pt0), zMin) == Mask(Right)
            && Outcode(Xyz(ZeroDivisorLine(s).pt1), zMin) == Mask(Left) + Mask(Bottom)
            && MovedPlane(ZeroDivisorLine(s), zMin) == Right
            && Clip(ZeroDivisorLine(s), zMin, fuel) == ZeroDivisor
  {
    ZeroDivisorOutcodes(s, zMin);
    ZeroDivisorNotTrivial(s, zMin);
    ZeroDivisorStep(s, zMin);
    ClipUnfolds(ZeroDivisorLine(s), zMin, fuel);
  }

  // ---------------------------------------------------------------------------
  // A recursion without end
  // ---------------------------------------------------------------------------

  /** The offsets of the cycle: more than half the tolerance, at most all of it. */
  predicate CycleOffset(t: real)
  {
    Epsilon / 2.0 < t <= Epsilon
  }

  /** The two lines of a clipping cycle: each step maps one onto the other. */
  function CycleLine(t: real, beyondRight: bool): Line
  {
    Line(Vector4(if beyondRight then t else -t, 0.0, t, 1.0), Vector4(0.0, 0.0, t, 1.0))
  }

  lemma CycleOutcodes(t: real, beyondRight: bool, zMin: Option<real>)
    requires CycleOffset(t) && (zMin.Some? ==> zMin.value >= 0.0)
    ensures Outcode(Xyz(CycleLine(t, beyondRight).pt0), zMin) == if beyondRight then Mask(Right) else Mask(Left)
    ensures Outcode(Xyz(CycleLine(t, beyondRight).pt1), zMin) == 0
  {
    assert Xyz(CycleLine(t, beyondRight).pt0) == Vector3(if beyondRight then t else -t, 0.0, t);
    assert Xyz(CycleLine(t, beyondRight).pt1) == Vector3(0.0, 0.0, t);
  }

  lemma CycleNotTrivial(t: real, beyondRight: bool, zMin: Option<real>)
    requires CycleOffset(t) && (zMin.Some? ==> zMin.value >= 0.0)
    ensures BitOr(Outcode(Xyz(CycleLine(t, beyondRight).pt0), zMin), Outcode(Xyz(CycleLine(t, beyondRight).pt1), zMin)) != 0
    ensures BitAnd(Outcode(Xyz(CycleLine(t, beyondRight).pt0), zMin), Outcode(Xyz(CycleLine(t, beyondRight).pt1), zMin)) == 0
  {
    CycleOutcodes(t, beyondRight, zMin);
  }

  lemma CycleOffRightPlane(p: Vector3, d: Vector3, t: real, zMin: Option<real>)
    requires t > 0.0 && p == Vector3(t, 0.0, t) && d == Vector3(-t, 0.0, 0.0)
    ensures Divisor(d, Right) == t
    ensures Intersection(p, d, Right, zMin) == Vector3(-t, 0.0, t)
  {
    CancelPositive(Param(p, d, Right, zMin), 2.0, t);
  }

  lemma CycleOffLeftPlane(p: Vector3, d: Vector3, t: real)
    requires t > 0.0 && p == Vector3(-t, 0.0, t) && d == Vector3(t, 0.0, 0.0)
    ensures Divisor(d, Left) == t
    ensures Intersection(p, d, Left, None) == Vector3(t, 0.0, t)
  {
    CancelPositive(Param(p, d, Left, None), 2.0, t);
  }

  lemma CycleStepOffRight(t: real, zMin: Option<real>)
    requires CycleOffset(t) && (zMin.Some? ==> zMin.value >= 0.0)
    ensures Outcode(Xyz(CycleLine(t, true).pt0), zMin) != 0
    ensures Step(CycleLine(t, true), zMin) == Some(CycleLine(t, false))
  {
    var p, q := Xyz(CycleLine(t, true).pt0), Xyz(CycleLine(t, true).pt1);
    CycleOutcodes(t, true, zMin);
    assert ChosenPlane(16) == Right by {
      assert Bit(16, 4);
    }
    assert p == Vector3(t, 0.0, t) && q == Vector3(0.0, 0.0, t);
    CycleOffRightPlane(p, Subtract(q, p), t, zMin);
  }

  lemma CycleStepOffLeft(t: real)
    requires CycleOffset(t)
    ensures Outcode(Xyz(CycleLine(t, false).pt0), None) != 0
    ensures Step(CycleLine(t, false), None) == Some(CycleLine(t, true))
  {
    var p, q := Xyz(CycleLine(t, false).pt0), Xyz(CycleLine(t, false).pt1);
    CycleOutcodes(t, false, None);
    assert ChosenPlane(32) == Left by {
      assert Bit(32, 5);
    }
    assert p == Vector3(-t, 0.0, t) && q == Vector3(0.0, 0.0, t);
    CycleOffLeftPlane(p, Subtract(q, p), t);
  }

  /**
   * No bound on the recursion: for an offset `t` between half the tolerance
   * and the tolerance, the step off the right plane lands beyond the left
   * plane (at parameter 2, past the other endpoint) and the step off the left
   * plane lands back where it started, so the source recurses without end
   * and the model runs out of every fuel.
   */
  lemma ClipCanCycle(t: real, zMin: Option<real>, fuel: nat)
    requires CycleOffset(t) && (zMin.Some? ==> zMin.value >= 0.0)
    ensures Clip(CycleLine(t, true), zMin, fuel) == OutOfFuel
  {
    CycleNotTrivial(t, true, zMin);
    CycleStepOffRight(t, zMin);
    ClipUnfolds(CycleLine(t, true), zMin, fuel);
    if fuel > 0 {
      CycleOutOfFuel(t, fuel - 1);
    }
  }

  lemma {:induction false} CycleOutOfFuel(t: real, fuel: nat)
    requires CycleOffset(t)
    ensures Clip(CycleLine(t, false), None, fuel) == OutOfFuel
    ensures Clip(CycleLine(t, true), None, fuel) == OutOfFuel
  {
    CycleNotTrivial(t, false, None);
    CycleNotTrivial(t, true, None);
    CycleStepOffLeft(t);
    CycleStepOffRight(t, None);
    ClipUnfolds(CycleLine(t, false), None, fuel);
    ClipUnfolds(CycleLine(t, true), None, fuel);
    if fuel > 0 {
      CycleOutOfFuel(t, fuel - 1);
    }
  }

  // ---------------------------------------------------------------------------
  // A recursion without end along an edge of the view volume
  // ---------------------------------------------------------------------------

  /*
   * The same defect where the right and far planes meet, at depth -1: endpoint
   * 1 sits inside both planes' tolerance bands, so the step off the right
   * plane lands beyond the far plane and the step off the far plane lands
   * back beyond the right one.
   */

  /** The two lines of the cycle at the right-far edge, for an offset `m` as in `CycleOffset`. */
  function EdgeCycleLine(m: real, beyondRight: bool): Line
  {
    Line(Vector4(1.0 + 2.0 * m, 0.0, if beyondRight then -1.0 else -1.0 - 2.0 * m, 1.0),
         Vector4(1.0 + 2.0 * m, 0.0, -1.0 - m, 1.0))
  }

  lemma EdgeCycleOutcodes(m: real, beyondRight: bool, zMin: Option<real>)
    requires CycleOffset(m) && (zMin.Some? ==> zMin.value >= 0.0)
    ensures Outcode(Xyz(EdgeCycleLine(m, beyondRight).pt0), zMin) == if beyondRight then Mask(Right) else Mask(Far)
    ensures Outcode(Xyz(EdgeCycleLine(m, beyondRight).pt1), zMin) == 0
  {
    assert Xyz(EdgeCycleLine(m, beyondRight).pt0) == Vector3(1.0 + 2.0 * m, 0.0, if beyondRight then -1.0 else -1.0 - 2.0 * m);
    assert Xyz(EdgeCycleLine(m, beyondRight).pt1) == Vector3(1.0 + 2.0 * m, 0.0, -1.0 - m);
  }

  lemma EdgeCycleNotTrivial(m: real, beyondRight: bool, zMin: Option<real>)
    requires CycleOffset(m) && (zMin.Some? ==> zMin.value >= 0.0)
    ensures BitOr(Outcode(Xyz(EdgeCycleLine(m, beyondRight).pt0), zMin), Outcode(Xyz(EdgeCycleLine(m, beyondRight).pt1), zMin)) != 0
    ensures BitAnd(Outcode(Xyz(EdgeCycleLine(m, beyondRight).pt0), zMin), Outcode(Xyz(EdgeCycleLine(m, beyondRight).pt1), zMin)) == 0
  {
    EdgeCycleOutcodes(m, beyondRight, zMin);
  }

  /** Both steps of the edge cycle solve `t * m == 2m`, so `t` is 2. */
  lemma EdgeCycleParam(t: real, m: real, dv: real, n: real)
    requires m > 0.0 && dv == m && n == 2.0 * m && t * dv == n
    ensures t == 2.0
  {
    CancelPositive(t, 2.0, dv);
  }

  lemma EdgeOffRightPlane(p: Vector3, d: Vector3, m: real, zMin: Option<real>)
    requires m > 0.0 && p == Vector3(1.0 + 2.0 * m, 0.0, -1.0) && d == Vector3(0.0, 0.0, -m)
    ensures Divisor(d, Right) == m
    ensures Intersection(p, d, Right, zMin) == Vector3(1.0 + 2.0 * m, 0.0, -1.0 - 2.0 * m)
  {
    var t, dv, n := Param(p, d, Right, zMin), Divisor(d, Right), Numerator(p, Right, zMin);
    assert t * dv == n;
    assert dv == m && n == 2.0 * m;
    EdgeCycleParam(t, m, dv, n);
  }

  lemma EdgeOffFarPlane(p: Vector3, d: Vector3, m: real)
    requires m > 0.0 && p == Vector3(1.0 + 2.0 * m, 0.0, -1.0 - 2.0 * m) && d == Vector3(0.0, 0.0, m)
    ensures Divisor(d, Far) == m
    ensures Intersection(p, d, Far, None) == Vector3(1.0 + 2.0 * m, 0.0, -1.0)
  {
    var t, dv, n := Param(p, d, Far, None), Divisor(d, Far), Numerator(p, Far, None);
    assert t * dv == n;
    assert dv == m && n == 2.0 * m;
    EdgeCycleParam(t, m, dv, n);
  }

  lemma EdgeStepOffRight(m: real, zMin: Option<real>)
    requires CycleOffset(m) && (zMin.Some? ==> zMin.value >= 0.0)
    ensures Outcode(Xyz(EdgeCycleLine(m, true).pt0), zMin) != 0
    ensures Step(EdgeCycleLine(m, true), zMin) == Some(EdgeCycleLine(m, false))
  {
    var p, q := Xyz(EdgeCycleLine(m, true).pt0), Xyz(EdgeCycleLine(m, true).pt1);
    EdgeCycleOutcodes(m, true, zMin);
    assert ChosenPlane(16) == Right by {
      assert Bit(16, 4);
    }
    assert p == Vector3(1.0 + 2.0 * m, 0.0, -1.0) && q == Vector3(1.0 + 2.0 * m, 0.0, -1.0 - m);
    EdgeOffRightPlane(p, Subtract(q, p), m, zMin);
  }

  lemma EdgeStepOffFar(m: real)
    requires CycleOffset(m)
    ensures Outcode(Xyz(EdgeCycleLine(m, false).pt0), None) != 0
    ensures Step(EdgeCycleLine(m, false), None) == Some(EdgeCycleLine(m, true))
  {
    var p, q := Xyz(EdgeCycleLine(m, false).pt0), Xyz(EdgeCycleLine(m, false).pt1);
    EdgeCycleOutcodes(m, false, None);
    assert ChosenPlane(2) == Far by {
      assert Bit(2, 1);
    }
    assert p == Vector3(1.0 + 2.0 * m, 0.0, -1.0 - 2.0 * m) && q == Vector3(1.0 + 2.0 * m, 0.0, -1.0 - m);
    EdgeOffFarPlane(p, Subtract(q, p), m);
  }

  /**
   * No bound on the recursion, at an edge of the view volume: the line from
   * `(1 + 2m, 0, -1)` to `(1 + 2m, 0, -1 - m)` lies along the edge where the
   * right and far planes meet, and its clipping alternates between them
   * forever.
   */
  lemma EdgeClipCanCycle(m: real, zMin: Option<real>, fuel: nat)
    requires CycleOffset(m) && (zMin.Some? ==> zMin.value >= 0.0)
    ensures Clip(EdgeCycleLine(m, true), zMin, fuel) == OutOfFuel
  {
    EdgeCycleNotTrivial(m, true, zMin);
    EdgeStepOffRight(m, zMin);
    ClipUnfolds(EdgeCycleLine(m, true), zMin, fuel);
    if fuel > 0 {
      EdgeCycleOutOfFuel(m, fuel - 1);
    }
  }

  lemma {:induction false} EdgeCycleOutOfFuel(m: real, fuel: nat)
    requires CycleOffset(m)
    ensures Clip(EdgeCycleLine(m, false), None, fuel) == OutOfFuel
    ensures Clip(EdgeCycleLine(m, true), None, fuel) == OutOfFuel
  {
    EdgeCycleNotTrivial(m, false, None);
    EdgeCycleNotTrivial(m, true, None);
    EdgeStepOffFar(m);
    EdgeStepOffRight(m, None);
    ClipUnfolds(EdgeCycleLine(m, false), None, fuel);
    ClipUnfolds(EdgeCycleLine(m, true), None, fuel);
    if fuel > 0 {
      EdgeCycleOutOfFuel(m, fuel - 1);
    }
  }

  // ---------------------------------------------------------------------------
  // An accepted line beyond the near plane
  // ---------------------------------------------------------------------------

  /** The scales of the near-crossing family. */
  predicate CrossingScale(s: real)
  {
    1.0 <= s <= 1.5
  }

  /** The line of `AcceptedLineCanCrossNearPlane`, its near bound and the points its clipping passes through. */
  function NearCrossing(s: real): Line
  {
    Line(Vector4(-s, 0.0, -0.2 * s, 1.0), Vector4(0.0, 0.0, -0.6 * s, 1.0))
  }
  function CrossingNear(s: real): real
  {
    -0.5 * s
  }
  function OnLeftPlane(s: real): Vector4
  {
    Vector4(-3.0 / 7.0 * s, 0.0, -3.0 / 7.0 * s, 1.0)
  }
  function OnNearPlane(s: real): Vector4
  {
    Vector4(-0.25 * s, 0.0, -0.5 * s, 1.0)
  }

  lemma NearCrossingOutcodes(s: real)
    requires CrossingScale(s)
    ensures Outcode(Xyz(NearCrossing(s).pt0), Some(CrossingNear(s))) == Mask(Left) + Mask(Near)
    ensures Outcode(Xyz(NearCrossing(s).pt1), Some(CrossingNear(s))) == 0
  {
    assert Xyz(NearCrossing(s).pt0) == Vector3(-s, 0.0, -0.2 * s);
    assert Xyz(NearCrossing(s).pt1) == Vector3(0.0, 0.0, -0.6 * s);
  }

  /** The crossing's step off the left plane solves `t * 1.4s == 0.8s`, so `t` is 4/7. */
  lemma LeftParam(t: real, s: real, dv: real, n: real)
    requires s > 0.0 && dv == 1.4 * s && n == 0.8 * s && t * dv == n
    ensures t == 4.0 / 7.0
  {
    assert 4.0 / 7.0 * dv == n;
    CancelPositive(t, 4.0 / 7.0, dv);
  }

  lemma OffLeftPlane(p: Vector3, d: Vector3, s: real, zMin: Option<real>)
    requires s > 0.0 && p == Vector3(-s, 0.0, -0.2 * s) && d == Vector3(s, 0.0, -0.4 * s)
    ensures Divisor(d, Left) == 1.4 * s
    ensures Intersection(p, d, Left, zMin) == Vector3(-3.0 / 7.0 * s, 0.0, -3.0 / 7.0 * s)
  {
    var t, dv, n := Param(p, d, Left, zMin), Divisor(d, Left), Numerator(p, Left, zMin);
    assert t * dv == n;
    assert dv == 1.4 * s && n == 0.8 * s;
    LeftParam(t, s, dv, n);
  }

  lemma FirstStepOffLeft(s: real)
    requires CrossingScale(s)
    ensures BitOr(Outcode(Xyz(NearCrossing(s).pt0), Some(CrossingNear(s))), Outcode(Xyz(NearCrossing(s).pt1), Some(CrossingNear(s)))) != 0
    ensures BitAnd(Outcode(Xyz(NearCrossing(s).pt0), Some(CrossingNear(s))), Outcode(Xyz(NearCrossing(s).pt1), Some(CrossingNear(s)))) == 0
    ensures Step(NearCrossing(s), Some(CrossingNear(s))) == Some(Line(OnLeftPlane(s), NearCrossing(s).pt1))
  {
    var p, q := Xyz(NearCrossing(s).pt0), Xyz(NearCrossing(s).pt1);
    NearCrossingOutcodes(s);
    assert ChosenPlane(33) == Left by {
      assert Bit(33, 5);
    }
    assert p == Vector3(-s, 0.0, -0.2 * s) && q == Vector3(0.0, 0.0, -0.6 * s);
    OffLeftPlane(p, Subtract(q, p), s, Some(CrossingNear(s)));
  }

  lemma AfterFirstStepInside(s: real)
    requires CrossingScale(s)
    ensures Outcode(Xyz(OnLeftPlane(s)), None) == 0
    ensures Outcode(Xyz(NearCrossing(s).pt1), None) == 0
    ensures Violates(Xyz(OnLeftPlane(s)), Some(CrossingNear(s)), Near)
  {
    assert Xyz(OnLeftPlane(s)) == Vector3(-3.0 / 7.0 * s, 0.0, -3.0 / 7.0 * s);
    assert Xyz(NearCrossing(s).pt1) == Vector3(0.0, 0.0, -0.6 * s);
  }

  /**
   * The recursive call passes no `z_min`, so a line whose first step is off
   * another plane is accepted without a second look at the near plane.  Here
   * endpoint 0 is beyond the left and near planes; it is moved onto the left
   * plane at parameter 4/7, to `z = -3/7 s`, which is still beyond the near
   * plane `z = -s/2`, and the line is accepted.
   */
  lemma AcceptedLineCanCrossNearPlane(s: real, fuel: nat)
    requires CrossingScale(s) && fuel >= 1
    ensures Clip(NearCrossing(s), Some(CrossingNear(s)), fuel) == Accepted(Line(OnLeftPlane(s), NearCrossing(s).pt1))
    ensures Violates(Xyz(OnLeftPlane(s)), Some(CrossingNear(s)), Near)
  {
    FirstStepOffLeft(s);
    ClipUnfolds(NearCrossing(s), Some(CrossingNear(s)), fuel);
    AfterFirstStepInside(s);
    BothInsideIff(Xyz(OnLeftPlane(s)), Xyz(NearCrossing(s).pt1), None);
  }

}
