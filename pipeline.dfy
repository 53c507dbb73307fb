/**
 * The per-model projection loops of `draw` (scripts/renderer.js:298-373):
 * transform every vertex, clip every consecutive index pair of every edge,
 * keep the lines the clipper returns, and run the kept lines through the
 * MPer and viewport matrices.
 *
 * The clipper is a parameter of the clipping loop: the renderer's own call
 * (`Clip` with `Some(clip[4])`) and the corrected call (`ClipKeepingNear`
 * with the canonical near plane) are two instances of the same loop.
 */
module Pipeline {
  import opened Wrappers
  import opened Vectors
  import opened Outcodes
  import opened Clipping
  import opened NearClipping
  import opened Transforms
  import opened Topology

  // ---------------------------------------------------------------------
  // Transforming the vertices (lines 298-324)
  // ---------------------------------------------------------------------

  function Transformed(transform: Grid, vertices: seq<Vector4>): (r: seq<Vector4>)
    requires Is4x4(transform)
    ensures |r| == |vertices|
  {
    seq(|vertices|, i requires 0 <= i < |vertices| => Apply(transform, vertices[i]))
  }

  /**
   * The loop at lines 299-324: each vertex, copied, times the view transform.
   * The transform is built by `mat4x4Perspective` from its four factors with
   * the matrix product of matrix.js, which is not part of this model, so it
   * is given here as a grid.
   */
  method TransformVertices(transform: Grid, vertices: seq<Vector4>) returns (transformed: seq<Vector4>)
    requires Is4x4(transform)
    ensures |transformed| == |vertices|
    ensures forall i :: 0 <= i < |vertices| ==> transformed[i] == Apply(transform, vertices[i])
  {
    transformed := [];
    for k := 0 to |vertices|
      invariant |transformed| == k
      invariant forall i :: 0 <= i < k ==> transformed[i] == Apply(transform, vertices[i])
    {
      var vertex := vertices[k];
      var vertexToTransform := Vector4(vertex.x, vertex.y, vertex.z, vertex.w);
      transformed := transformed + [Apply(transform, vertexToTransform)];
    }
  }

  // ---------------------------------------------------------------------
  // Clipping the segments (lines 326-351)
  // ---------------------------------------------------------------------

  /** How many segments the loop at line 333 cuts an edge into: one fewer than its indices. */
  function SegmentCount(e: Edge): nat
  {
    if |e| == 0 then 0 else |e| - 1
  }

  function TotalSegments(edges: seq<Edge>): nat
  {
    if |edges| == 0 then 0 else TotalSegments(edges[..|edges| - 1]) + SegmentCount(edges[|edges| - 1])
  }

  predicate EdgeWithin(e: Edge, count: nat)
  {
    forall k :: 0 <= k < |e| ==> 0 <= e[k] < count
  }

  /** The line from the `j`-th index of an edge to the next one (lines 335-338). */
  function Segment(vs: seq<Vector4>, e: Edge, j: nat): Line
    requires EdgeWithin(e, |vs|) && j < SegmentCount(e)
  {
    Line(vs[e[j]], vs[e[j + 1]])
  }

  /** The first `j` segments of an edge, unclipped. */
  function SegmentsUpTo(vs: seq<Vector4>, e: Edge, j: nat): (r: seq<Line>)
    requires EdgeWithin(e, |vs|) && j <= SegmentCount(e)
    ensures |r| == j
  {
    if j == 0 then [] else SegmentsUpTo(vs, e, j - 1) + [Segment(vs, e, j - 1)]
  }

  /** Every segment of the first `i` edges, unclipped. */
  function AllSegmentsUpTo(vs: seq<Vector4>, edges: seq<Edge>, i: nat): seq<Line>
    requires IndicesBelow(edges, |vs|) && i <= |edges|
  {
    if i == 0 then []
    else
      var e := edges[i - 1];
      assert EdgeWithin(e, |vs|);
      AllSegmentsUpTo(vs, edges, i - 1) + SegmentsUpTo(vs, e, SegmentCount(e))
  }

  /** What the loop keeps of one clipper result: the line, or nothing for `null`. */
  function Kept(c: Clipped): seq<Line>
  {
    if c.Accepted? then [c.line] else []
  }

  /** The kept lines of the first `j` segments of an edge. */
  function ClippedEdgeUpTo(vs: seq<Vector4>, e: Edge, clipper: Line -> Clipped, j: nat): seq<Line>
    requires EdgeWithin(e, |vs|) && j <= SegmentCount(e)
  {
    if j == 0 then [] else ClippedEdgeUpTo(vs, e, clipper, j - 1) + Kept(clipper(Segment(vs, e, j - 1)))
  }

  /** The kept lines of the first `i` edges. */
  function ClippedUpTo(vs: seq<Vector4>, edges: seq<Edge>, clipper: Line -> Clipped, i: nat): seq<Line>
    requires IndicesBelow(edges, |vs|) && i <= |edges|
  {
    if i == 0 then []
    else
      var e := edges[i - 1];
      assert EdgeWithin(e, |vs|);
      ClippedUpTo(vs, edges, clipper, i - 1) + ClippedEdgeUpTo(vs, e, clipper, SegmentCount(e))
  }

  /**
   * The loop at lines 329-351: every consecutive index pair of every edge is
   * clipped and the lines the clipper returns are pushed in order.  Every
   * index must name a transformed vertex, as the topology lemmas show for the
   * built-in models.
   */
  method ClipEdges(vs: seq<Vector4>, edges: seq<Edge>, clipper: Line -> Clipped) returns (clippedLines: seq<Line>)
    requires IndicesBelow(edges, |vs|)
    ensures clippedLines == ClippedUpTo(vs, edges, clipper, |edges|)
  {
    clippedLines := [];
    for i := 0 to |edges|
      invariant clippedLines == ClippedUpTo(vs, edges, clipper, i)
    {
      var edge := edges[i];
      assert EdgeWithin(edge, |vs|);
      var j := 0;
      while j < |edge| - 1
        invariant 0 <= j <= SegmentCount(edge)
        invariant clippedLines == ClippedUpTo(vs, edges, clipper, i) + ClippedEdgeUpTo(vs, edge, clipper, j)
      {
        var line := Line(vs[edge[j]], vs[edge[j + 1]]);
        var clippedLine := clipper(line);
        if clippedLine.Accepted? {
          clippedLines := clippedLines + [clippedLine.line];
        }
        j := j + 1;
      }
    }
  }

  /** Both endpoints of a line inside the view volume. */
  predicate LineInside(line: Line, zMin: Option<real>)
  {
    InViewVolume(Xyz(line.pt0), zMin) && InViewVolume(Xyz(line.pt1), zMin)
  }

  /** A clipper whose every returned line lies inside the view volume for `zMin`. */
  ghost predicate ReturnsInside(clipper: Line -> Clipped, zMin: Option<real>)
  {
    forall l :: clipper(l).Accepted? ==> LineInside(clipper(l).line, zMin)
  }

  lemma {:induction false} ClippedEdgeInside(vs: seq<Vector4>, e: Edge, clipper: Line -> Clipped, zMin: Option<real>, j: nat)
    requires EdgeWithin(e, |vs|) && j <= SegmentCount(e)
    requires ReturnsInside(clipper, zMin)
    ensures forall k :: 0 <= k < |ClippedEdgeUpTo(vs, e, clipper, j)| ==> LineInside(ClippedEdgeUpTo(vs, e, clipper, j)[k], zMin)
  {
    if j > 0 {
      ClippedEdgeInside(vs, e, clipper, zMin, j - 1);
      var prev := ClippedEdgeUpTo(vs, e, clipper, j - 1);
      var last := Kept(clipper(Segment(vs, e, j - 1)));
      assert ClippedEdgeUpTo(vs, e, clipper, j) == prev + last;
      forall k | 0 <= k < |prev + last|
        ensures LineInside((prev + last)[k], zMin)
      {
        if k >= |prev| {
          assert (prev + last)[k] == clipper(Segment(vs, e, j - 1)).line;
        }
      }
    }
  }

  /** The lines the loop keeps all lie inside the view volume of the clipper. */
  lemma {:induction false} ClippedInside(vs: seq<Vector4>, edges: seq<Edge>, clipper: Line -> Clipped, zMin: Option<real>, i: nat)
    requires IndicesBelow(edges, |vs|) && i <= |edges|
    requires ReturnsInside(clipper, zMin)
    ensures forall k :: 0 <= k < |ClippedUpTo(vs, edges, clipper, i)| ==> LineInside(ClippedUpTo(vs, edges, clipper, i)[k], zMin)
  {
    if i > 0 {
      ClippedInside(vs, edges, clipper, zMin, i - 1);
      var e := edges[i - 1];
      assert EdgeWithin(e, |vs|);
      ClippedEdgeInside(vs, e, clipper, zMin, SegmentCount(e));
      var prev := ClippedUpTo(vs, edges, clipper, i - 1);
      var last := ClippedEdgeUpTo(vs, e, clipper, SegmentCount(e));
      forall k | 0 <= k < |prev + last|
        ensures LineInside((prev + last)[k], zMin)
      {
        if k >= |prev| {
          assert (prev + last)[k] == last[k - |prev|];
        }
      }
    }
  }

  lemma {:induction false} ClippedEdgeCount(vs: seq<Vector4>, e: Edge, clipper: Line -> Clipped, j: nat)
    requires EdgeWithin(e, |vs|) && j <= SegmentCount(e)
    ensures |ClippedEdgeUpTo(vs, e, clipper, j)| <= j
  {
    if j > 0 {
      ClippedEdgeCount(vs, e, clipper, j - 1);
    }
  }

  /** The loop keeps at most one line per segment. */
  lemma {:induction false} ClippedCount(vs: seq<Vector4>, edges: seq<Edge>, clipper: Line -> Clipped, i: nat)
    requires IndicesBelow(edges, |vs|) && i <= |edges|
    ensures |ClippedUpTo(vs, edges, clipper, i)| <= TotalSegments(edges[..i])
  {
    if i > 0 {
      ClippedCount(vs, edges, clipper, i - 1);
      var e := edges[i - 1];
      assert EdgeWithin(e, |vs|);
      ClippedEdgeCount(vs, e, clipper, SegmentCount(e));
      assert edges[..i][..i - 1] == edges[..i - 1];
    }
  }

  /** The renderer's clipper: `clipLinePerspective(line, clip[4])` (lines 341-344). */
  function RendererClipper(clip: seq<real>, fuel: nat): Line -> Clipped
    requires |clip| == 6
  {
    line => Clip(line, Some(clip[4]), fuel)
  }

  /**
   * Every line the renderer keeps lies inside the four side planes and the
   * far plane; with `clip[4] >= 0` also below `z = clip[4] + eps`.
   */
  lemma RendererKeepsInside(vs: seq<Vector4>, edges: seq<Edge>, clip: seq<real>, fuel: nat)
    requires IndicesBelow(edges, |vs|) && |clip| == 6
    ensures var kept := ClippedUpTo(vs, edges, RendererClipper(clip, fuel), |edges|);
            forall k :: 0 <= k < |kept| ==>
              LineInside(kept[k], None) && (clip[4] >= 0.0 ==> LineInside(kept[k], Some(clip[4])))
  {
    var clipper := RendererClipper(clip, fuel);
    forall l | clipper(l).Accepted?
      ensures LineInside(clipper(l).line, None)
    {
      ClipAcceptsOnlyInside(l, Some(clip[4]), fuel);
    }
    ClippedInside(vs, edges, clipper, None, |edges|);
    var kept := ClippedUpTo(vs, edges, clipper, |edges|);
    forall k | 0 <= k < |kept| && clip[4] >= 0.0
      ensures LineInside(kept[k], Some(clip[4]))
    {
      NearTestIdle(Xyz(kept[k].pt0), clip[4]);
      NearTestIdle(Xyz(kept[k].pt1), clip[4]);
    }
  }

  /** A clipper that returns every line already inside the view volume for `zMin` as it is. */
  ghost predicate KeepsInsideLines(clipper: Line -> Clipped, zMin: Option<real>)
  {
    forall l :: LineInside(l, zMin) ==> clipper(l) == Accepted(l)
  }

  lemma {:induction false} InsideEdgeKept(vs: seq<Vector4>, e: Edge, clipper: Line -> Clipped, zMin: Option<real>, j: nat)
    requires EdgeWithin(e, |vs|) && j <= SegmentCount(e)
    requires KeepsInsideLines(clipper, zMin)
    requires forall k :: 0 <= k < |vs| ==> InViewVolume(Xyz(vs[k]), zMin)
    ensures ClippedEdgeUpTo(vs, e, clipper, j) == SegmentsUpTo(vs, e, j)
  {
    if j > 0 {
      InsideEdgeKept(vs, e, clipper, zMin, j - 1);
      assert LineInside(Segment(vs, e, j - 1), zMin);
    }
  }

  lemma {:induction false} InsideModelKept(vs: seq<Vector4>, edges: seq<Edge>, clipper: Line -> Clipped, zMin: Option<real>, i: nat)
    requires IndicesBelow(edges, |vs|) && i <= |edges|
    requires KeepsInsideLines(clipper, zMin)
    requires forall k :: 0 <= k < |vs| ==> InViewVolume(Xyz(vs[k]), zMin)
    ensures ClippedUpTo(vs, edges, clipper, i) == AllSegmentsUpTo(vs, edges, i)
  {
    if i > 0 {
      InsideModelKept(vs, edges, clipper, zMin, i - 1);
      var e := edges[i - 1];
      assert EdgeWithin(e, |vs|);
      InsideEdgeKept(vs, e, clipper, zMin, SegmentCount(e));
    }
  }

  /** When every transformed vertex is inside the view volume, the renderer keeps every segment unchanged and in order. */
  lemma RendererKeepsInsideModel(vs: seq<Vector4>, edges: seq<Edge>, clip: seq<real>, fuel: nat)
    requires IndicesBelow(edges, |vs|) && |clip| == 6
    requires forall k :: 0 <= k < |vs| ==> InViewVolume(Xyz(vs[k]), Some(clip[4]))
    ensures ClippedUpTo(vs, edges, RendererClipper(clip, fuel), |edges|) == AllSegmentsUpTo(vs, edges, |edges|)
  {
    var clipper := RendererClipper(clip, fuel);
    forall l | LineInside(l, Some(clip[4]))
      ensures clipper(l) == Accepted(l)
    {
      ClipTrivialCases(l, Some(clip[4]), fuel);
    }
    InsideModelKept(vs, edges, clipper, Some(clip[4]), |edges|);
  }

  // ---------------------------------------------------------------------
  // MPer and viewport (lines 353-373)
  // ---------------------------------------------------------------------

  function MapLine(m: Grid, line: Line): Line
    requires Is4x4(m)
  {
    Line(Apply(m, line.pt0), Apply(m, line.pt1))
  }

  /**
   * The loops at lines 353-359 and 361-373: each kept line is replaced, in
   * place, by its endpoints times a matrix.
   */
  method MapLines(m: Grid, lines: seq<Line>) returns (mapped: seq<Line>)
    requires Is4x4(m)
    ensures |mapped| == |lines|
    ensures forall i :: 0 <= i < |lines| ==> mapped[i] == MapLine(m, lines[i])
  {
    mapped := lines;
    for i := 0 to |mapped|
      invariant |mapped| == |lines|
      invariant forall k :: 0 <= k < i ==> mapped[k] == MapLine(m, lines[k])
      invariant forall k :: i <= k < |lines| ==> mapped[k] == lines[k]
    {
      mapped := mapped[i := Line(Apply(m, mapped[i].pt0), Apply(m, mapped[i].pt1))];
    }
  }

  /**
   * After MPer an endpoint inside the view volume has `w = -z`, and its x and
   * y lie within `w + eps` of zero: dividing by w puts it in the square
   * [-1, 1] x [-1, 1] up to the tolerance.
   */
  lemma ProjectedInsideSquare(p: Vector4)
    requires InViewVolume(Xyz(p), None)
    ensures var q := Apply(MPer(), p);
            && q.w == -p.z && q.x == p.x && q.y == p.y
            && -q.w - Epsilon <= q.x <= q.w + Epsilon
            && -q.w - Epsilon <= q.y <= q.w + Epsilon
  {
    MPerProjects(p);
  }

  // ---------------------------------------------------------------------
  // One model end to end (lines 298-373)
  // ---------------------------------------------------------------------

  function Frame(transform: Grid, vertices: seq<Vector4>, edges: seq<Edge>, clipper: Line -> Clipped,
                 width: real, height: real): seq<Line>
    requires Is4x4(transform) && IndicesBelow(edges, |vertices|)
  {
    var kept := ClippedUpTo(Transformed(transform, vertices), edges, clipper, |edges|);
    seq(|kept|, i requires 0 <= i < |kept| => MapLine(Viewport(width, height), MapLine(MPer(), kept[i])))
  }

  /**
   * One model through the pipeline: transform, clip with `clip[4]` as the
   * renderer does, then MPer and viewport.  The result is the device-space
   * lines that are then divided by w and drawn.
   */
  method DrawModel(transform: Grid, vertices: seq<Vector4>, edges: seq<Edge>, clip: seq<real>,
                   width: real, height: real, fuel: nat) returns (lines: seq<Line>)
    requires Is4x4(transform) && IndicesBelow(edges, |vertices|) && |clip| == 6
    ensures lines == Frame(transform, vertices, edges, RendererClipper(clip, fuel), width, height)
  {
    var transformedVertices := TransformVertices(transform, vertices);
    assert transformedVertices == Transformed(transform, vertices);
    var clippedLines := ClipEdges(transformedVertices, edges, RendererClipper(clip, fuel));
    clippedLines := MapLines(MPer(), clippedLines);
    lines := MapLines(Viewport(width, height), clippedLines);
  }

  // ---------------------------------------------------------------------
  // The near bound passed to the clipper
  // ---------------------------------------------------------------------

  /**
   * As written, the renderer passes `clip[4]`, the near distance itself, as
   * the near bound.  For a positive near and far distance the near plane
   * maps to `z = -clip[4] / clip[5]`; a point on the view axis strictly
   * between that plane and the eye is in front of the near plane, yet its
   * outcode under `clip[4]` has no NEAR bit, so the renderer keeps it.
   */
  lemma PassedNearMissesNearPlane(clip: seq<real>, z: real)
    requires |clip| == 6 && clip[4] > 0.0 && clip[5] > 0.0
    requires CanonicalNear(clip) + Epsilon < z <= 0.0 && -1.0 <= z
    ensures Violates(Vector3(0.0, 0.0, z), Some(CanonicalNear(clip)), Near)
    ensures Outcode(Vector3(0.0, 0.0, z), Some(clip[4])) == 0
  {
    assert CanonicalNear(clip) < 0.0;
  }

  /** The corrected clipper: the canonical near bound, kept through every step. */
  function CorrectedClipper(clip: seq<real>, fuel: nat): Line -> Clipped
    requires |clip| == 6 && clip[5] != 0.0
  {
    line => ClipKeepingNear(line, CanonicalNear(clip), fuel)
  }

  /** With the corrected clipper every kept line lies inside all six planes, the near plane included. */
  lemma CorrectedKeepsInside(vs: seq<Vector4>, edges: seq<Edge>, clip: seq<real>, fuel: nat)
    requires IndicesBelow(edges, |vs|) && |clip| == 6 && clip[5] != 0.0
    ensures var kept := ClippedUpTo(vs, edges, CorrectedClipper(clip, fuel), |edges|);
            forall k :: 0 <= k < |kept| ==> LineInside(kept[k], Some(CanonicalNear(clip)))
  {
    var clipper := CorrectedClipper(clip, fuel);
    forall l | clipper(l).Accepted?
      ensures LineInside(clipper(l).line, Some(CanonicalNear(clip)))
    {
      ClipKeepingNearAcceptsInside(l, CanonicalNear(clip), fuel);
    }
    ClippedInside(vs, edges, clipper, Some(CanonicalNear(clip)), |edges|);
  }

}
