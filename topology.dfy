/**
 * The vertex and edge lists `draw` builds for the cube, cone, cylinder and
 * sphere models (scripts/renderer.js:105-295).
 *
 * An edge is a polyline: a list of vertex indices, consecutive entries joined
 * by a segment.  The cube's vertices are exact (centre plus or minus half the
 * size).  The cone, cylinder and sphere place their vertices with `Math.cos`
 * and `Math.sin`, which this model does not express; only how many vertices
 * their loops push is kept, which is what the edge indices are checked against.
 * The edge loops push index lists in the order the source does; each loop is
 * a method proved equal to a prefix function that grows one iteration at a
 * time.
 */
module Topology {
  import opened Vectors

  type Edge = seq<int>

  /** Every index of every edge names one of `count` vertices. */
  predicate IndicesBelow(edges: seq<Edge>, count: nat)
  {
    forall i, k :: 0 <= i < |edges| && 0 <= k < |edges[i]| ==> 0 <= edges[i][k] < count
  }

  lemma IndicesBelowAppend(a: seq<Edge>, b: seq<Edge>, count: nat)
    requires IndicesBelow(a, count) && IndicesBelow(b, count)
    ensures IndicesBelow(a + b, count)
  {
    forall i, k | 0 <= i < |a + b| && 0 <= k < |(a + b)[i]|
      ensures 0 <= (a + b)[i][k] < count
    {
      if i >= |a| {
        assert (a + b)[i] == b[i - |a|];
      }
    }
  }

  lemma IndicesBelowRaise(edges: seq<Edge>, count: nat, more: nat)
    requires IndicesBelow(edges, count) && count <= more
    ensures IndicesBelow(edges, more)
  {
  }

  // ---------------------------------------------------------------------
  // Cube
  // ---------------------------------------------------------------------

  /** The eight corners, bottom face first, as pushed at lines 108-157. */
  function CubeVertices(center: Vector3, width: real, height: real, depth: real): (vs: seq<Vector4>)
    ensures |vs| == 8
  {
    var hw, hh, hd := width / 2.0, height / 2.0, depth / 2.0;
    [Vector4(center.x - hw, center.y - hh, center.z - hd, 1.0),
     Vector4(center.x + hw, center.y - hh, center.z - hd, 1.0),
     Vector4(center.x + hw, center.y - hh, center.z + hd, 1.0),
     Vector4(center.x - hw, center.y - hh, center.z + hd, 1.0),
     Vector4(center.x - hw, center.y + hh, center.z - hd, 1.0),
     Vector4(center.x + hw, center.y + hh, center.z - hd, 1.0),
     Vector4(center.x + hw, center.y + hh, center.z + hd, 1.0),
     Vector4(center.x - hw, center.y + hh, center.z + hd, 1.0)]
  }

  /** The two face loops and the four uprights of lines 160-166. */
  function CubeEdges(): seq<Edge>
  {
    [[0, 1, 2, 3, 0], [4, 5, 6, 7, 4], [0, 4], [1, 5], [2, 6], [3, 7]]
  }

  /** Two corners that differ in exactly one coordinate: an edge of the box. */
  predicate AlongOneAxis(a: Vector4, b: Vector4)
  {
    var dx, dy, dz := a.x != b.x, a.y != b.y, a.z != b.z;
    (dx && !dy && !dz) || (!dx && dy && !dz) || (!dx && !dy && dz)
  }

  /**
   * The cube's edges only name its eight corners, and for a box of nonzero
   * size each of their segments runs along one axis.
   */
  lemma CubeEdgesAreBoxEdges(center: Vector3, width: real, height: real, depth: real)
    requires width != 0.0 && height != 0.0 && depth != 0.0
    ensures IndicesBelow(CubeEdges(), 8)
    ensures var vs, es := CubeVertices(center, width, height, depth), CubeEdges();
            forall i, j :: 0 <= i < |es| && 0 <= j < |es[i]| - 1 ==>
              AlongOneAxis(vs[es[i][j]], vs[es[i][j + 1]])
  {
    var hw, hh, hd := width / 2.0, height / 2.0, depth / 2.0;
    assert hw != 0.0 && hh != 0.0 && hd != 0.0;
  }

  // ---------------------------------------------------------------------
  // Cone
  // ---------------------------------------------------------------------

  /** `sides` points on the base circle, then the apex (lines 172-189). */
  function ConeVertexCount(sides: nat): nat
  {
    sides + 1
  }

  /** The edges after `i` turns of the loop at lines 191-201. */
  function ConeEdgesUpTo(sides: nat, i: nat): seq<Edge>
    requires i <= sides
  {
    if i == 0 then []
    else ConeEdgesUpTo(sides, i - 1) + [[i - 1, i % sides], [i - 1, sides]]
  }

  method ConeEdges(sides: nat) returns (edges: seq<Edge>)
    ensures edges == ConeEdgesUpTo(sides, sides)
  {
    edges := [];
    var i := 0;
    while i < sides
      invariant 0 <= i <= sides
      invariant edges == ConeEdgesUpTo(sides, i)
    {
      var edge := [i, (i + 1) % sides];
      edges := edges + [edge];
      edge := [i, sides];
      edges := edges + [edge];
      i := i + 1;
    }
  }

  /**
   * The cone's loop pushes two edges a turn: the base edge from circle point
   * `k` to the next one round the circle, and the spoke from `k` to the apex.
   * Every index names one of the `sides + 1` vertices.
   */
  lemma {:induction false} ConeEdgesShape(sides: nat, i: nat)
    requires i <= sides
    ensures |ConeEdgesUpTo(sides, i)| == 2 * i
    ensures forall k :: 0 <= k < i ==>
              ConeEdgesUpTo(sides, i)[2 * k] == [k, (k + 1) % sides] &&
              ConeEdgesUpTo(sides, i)[2 * k + 1] == [k, sides]
    ensures IndicesBelow(ConeEdgesUpTo(sides, i), ConeVertexCount(sides))
  {
    if i > 0 {
      ConeEdgesShape(sides, i - 1);
      var prev := ConeEdgesUpTo(sides, i - 1);
      var last: seq<Edge> := [[i - 1, i % sides], [i - 1, sides]];
      assert ConeEdgesUpTo(sides, i) == prev + last;
      forall k | 0 <= k < i
        ensures ConeEdgesUpTo(sides, i)[2 * k] == [k, (k + 1) % sides]
        ensures ConeEdgesUpTo(sides, i)[2 * k + 1] == [k, sides]
      {
        if k < i - 1 {
          assert ConeEdgesUpTo(sides, i)[2 * k] == prev[2 * k];
          assert ConeEdgesUpTo(sides, i)[2 * k + 1] == prev[2 * k + 1];
        }
      }
      assert IndicesBelow(last, ConeVertexCount(sides));
      IndicesBelowAppend(prev, last, ConeVertexCount(sides));
    }
  }

  // ---------------------------------------------------------------------
  // Cylinder
  // ---------------------------------------------------------------------

  /** A bottom and a top point per side, interleaved (lines 208-219). */
  function CylinderVertexCount(sides: nat): nat
  {
    2 * sides
  }

  /** The edges after `i` turns of the loop at lines 221-239. */
  function CylinderEdgesUpTo(sides: nat, i: nat): seq<Edge>
    requires i <= sides
  {
    if i == 0 then []
    else
      var k := i - 1;
      CylinderEdgesUpTo(sides, k)
        + [[k * 2, ((k + 1) * 2) % (sides * 2)],
           [k * 2 + 1, ((k + 1) * 2 + 1) % (sides * 2)],
           [k * 2, k * 2 + 1]]
  }

  method CylinderEdges(sides: nat) returns (edges: seq<Edge>)
    ensures edges == CylinderEdgesUpTo(sides, sides)
  {
    edges := [];
    var i := 0;
    while i < sides
      invariant 0 <= i <= sides
      invariant edges == CylinderEdgesUpTo(sides, i)
    {
      var edge := [i * 2, ((i + 1) * 2) % (sides * 2)];
      edges := edges + [edge];
      edge := [i * 2 + 1, ((i + 1) * 2 + 1) % (sides * 2)];
      edges := edges + [edge];
      edge := [i * 2, i * 2 + 1];
      edges := edges + [edge];
      i := i + 1;
    }
  }

  /**
   * Three edges a turn: bottom circle, top circle and the upright joining
   * the turn's bottom and top points; every index names one of the
   * `2 * sides` vertices.
   */
  lemma {:induction false} CylinderEdgesShape(sides: nat, i: nat)
    requires i <= sides
    ensures |CylinderEdgesUpTo(sides, i)| == 3 * i
    ensures forall k :: 0 <= k < i ==>
              CylinderEdgesUpTo(sides, i)[3 * k + 2] == [2 * k, 2 * k + 1]
    ensures IndicesBelow(CylinderEdgesUpTo(sides, i), CylinderVertexCount(sides))
  {
    if i > 0 {
      CylinderEdgesShape(sides, i - 1);
      var k := i - 1;
      var prev := CylinderEdgesUpTo(sides, k);
      var last: seq<Edge> := [[k * 2, ((k + 1) * 2) % (sides * 2)],
                              [k * 2 + 1, ((k + 1) * 2 + 1) % (sides * 2)],
                              [k * 2, k * 2 + 1]];
      assert CylinderEdgesUpTo(sides, i) == prev + last;
      forall m | 0 <= m < i
        ensures CylinderEdgesUpTo(sides, i)[3 * m + 2] == [2 * m, 2 * m + 1]
      {
        if m < k {
          assert CylinderEdgesUpTo(sides, i)[3 * m + 2] == prev[3 * m + 2];
        }
      }
      assert IndicesBelow(last, CylinderVertexCount(sides));
      IndicesBelowAppend(prev, last, CylinderVertexCount(sides));
    }
  }

  // ---------------------------------------------------------------------
  // Sphere
  // ---------------------------------------------------------------------

  /** `slices` points on each of the `stacks + 1` circles (lines 244-270). */
  function SphereVertexCount(slices: nat, stacks: nat): nat
  {
    (stacks + 1) * slices
  }

  /** The edges the inner loop at lines 275-279 pushes on circle `i` after `j` turns. */
  function RingRun(slices: nat, i: nat, j: nat): seq<Edge>
  {
    if j == 0 then []
    else RingRun(slices, i, j - 1) + [[i * slices + j - 1, i * slices + j]]
  }

  /** One turn of the loop at lines 273-283: the run, then the closing edge. */
  function Ring(slices: nat, i: nat): seq<Edge>
  {
    RingRun(slices, i, slices) + [[i * slices + slices - 1, i * slices]]
  }

  /** The circle edges after `i` turns of the outer loop at lines 273-283. */
  function RingsUpTo(slices: nat, i: nat): seq<Edge>
  {
    if i == 0 then [] else RingsUpTo(slices, i - 1) + Ring(slices, i - 1)
  }

  /** The edges the inner loop at lines 288-292 pushes down slice `i` after `j` turns. */
  function MeridianRun(slices: nat, i: nat, j: nat): seq<Edge>
  {
    if j == 0 then []
    else MeridianRun(slices, i, j - 1) + [[(j - 1) * slices + i, j * slices + i]]
  }

  /** The meridian edges after `i` turns of the outer loop at lines 286-293. */
  function MeridiansUpTo(slices: nat, stacks: nat, i: nat): seq<Edge>
  {
    if i == 0 then [] else MeridiansUpTo(slices, stacks, i - 1) + MeridianRun(slices, i - 1, stacks)
  }

  function SphereEdgeList(slices: nat, stacks: nat): seq<Edge>
  {
    RingsUpTo(slices, stacks) + MeridiansUpTo(slices, stacks, slices)
  }

  method SphereEdges(slices: nat, stacks: nat) returns (edges: seq<Edge>)
    ensures edges == SphereEdgeList(slices, stacks)
  {
    edges := [];
    var i := 0;
    while i < stacks
      invariant 0 <= i <= stacks
      invariant edges == RingsUpTo(slices, i)
    {
      var j := 0;
      while j < slices
        invariant 0 <= j <= slices
        invariant edges == RingsUpTo(slices, i) + RingRun(slices, i, j)
      {
        var edge := [i * slices + j, i * slices + j + 1];
        edges := edges + [edge];
        j := j + 1;
      }
      var edge := [i * slices + slices - 1, i * slices];
      edges := edges + [edge];
      assert edges == RingsUpTo(slices, i) + Ring(slices, i);
      i := i + 1;
    }
    i := 0;
    while i < slices
      invariant 0 <= i <= slices
      invariant edges == RingsUpTo(slices, stacks) + MeridiansUpTo(slices, stacks, i)
    {
      var j := 0;
      while j < stacks
        invariant 0 <= j <= stacks
        invariant edges == RingsUpTo(slices, stacks) + MeridiansUpTo(slices, stacks, i) + MeridianRun(slices, i, j)
      {
        var edge := [j * slices + i, (j + 1) * slices + i];
        edges := edges + [edge];
        j := j + 1;
      }
      assert MeridiansUpTo(slices, stacks, i + 1) == MeridiansUpTo(slices, stacks, i) + MeridianRun(slices, i, stacks);
      i := i + 1;
    }
  }

  /** The first vertex of circle `i + 1` comes right after the last one of circle `i`. */
  lemma CircleStart(slices: nat, i: nat)
    ensures i * slices + slices == (i + 1) * slices
  {
  }

  /** A run of `j` edges along circle `i` names vertices `i * slices` to `i * slices + j`. */
  lemma {:induction false} RingRunBounds(slices: nat, i: nat, j: nat)
    ensures |RingRun(slices, i, j)| == j
    ensures forall m, k :: 0 <= m < j && 0 <= k < |RingRun(slices, i, j)[m]| ==>
              i * slices <= RingRun(slices, i, j)[m][k] <= i * slices + j
  {
    if j > 0 {
      RingRunBounds(slices, i, j - 1);
      var prev := RingRun(slices, i, j - 1);
      forall m, k | 0 <= m < j && 0 <= k < |RingRun(slices, i, j)[m]|
        ensures i * slices <= RingRun(slices, i, j)[m][k] <= i * slices + j
      {
        if m < j - 1 {
          assert RingRun(slices, i, j)[m] == prev[m];
        }
      }
    }
  }

  lemma {:induction false} RingsBelow(slices: nat, i: nat)
    requires slices > 0
    ensures IndicesBelow(RingsUpTo(slices, i), (i + 1) * slices)
  {
    if i > 0 {
      RingsBelow(slices, i - 1);
      IndicesBelowRaise(RingsUpTo(slices, i - 1), i * slices, (i + 1) * slices);
      var r := i - 1;
      RingRunBounds(slices, r, slices);
      CircleStart(slices, r);
      CircleStart(slices, i);
      assert IndicesBelow(RingRun(slices, r, slices), (i + 1) * slices);
      var closing: seq<Edge> := [[r * slices + slices - 1, r * slices]];
      assert IndicesBelow(closing, (i + 1) * slices);
      IndicesBelowAppend(RingRun(slices, r, slices), closing, (i + 1) * slices);
      IndicesBelowAppend(RingsUpTo(slices, i - 1), Ring(slices, r), (i + 1) * slices);
    }
  }

  lemma {:induction false} MeridianRunBelow(slices: nat, i: nat, j: nat)
    requires i < slices
    ensures |MeridianRun(slices, i, j)| == j
    ensures IndicesBelow(MeridianRun(slices, i, j), (j + 1) * slices)
  {
    if j > 0 {
      MeridianRunBelow(slices, i, j - 1);
      IndicesBelowRaise(MeridianRun(slices, i, j - 1), j * slices, (j + 1) * slices);
      CircleStart(slices, j);
      CircleStart(slices, j - 1);
      var last: seq<Edge> := [[(j - 1) * slices + i, j * slices + i]];
      assert IndicesBelow(last, (j + 1) * slices);
      IndicesBelowAppend(MeridianRun(slices, i, j - 1), last, (j + 1) * slices);
    }
  }

  lemma {:induction false} MeridiansBelow(slices: nat, stacks: nat, i: nat)
    requires i <= slices
    ensures IndicesBelow(MeridiansUpTo(slices, stacks, i), (stacks + 1) * slices)
  {
    if i > 0 {
      MeridiansBelow(slices, stacks, i - 1);
      MeridianRunBelow(slices, i - 1, stacks);
      IndicesBelowAppend(MeridiansUpTo(slices, stacks, i - 1), MeridianRun(slices, i - 1, stacks), (stacks + 1) * slices);
    }
  }

  /** With at least one slice, every sphere edge names one of its `(stacks + 1) * slices` vertices. */
  lemma SphereEdgesInBounds(slices: nat, stacks: nat)
    requires slices > 0
    ensures IndicesBelow(SphereEdgeList(slices, stacks), SphereVertexCount(slices, stacks))
  {
    RingsBelow(slices, stacks);
    MeridiansBelow(slices, stacks, slices);
    IndicesBelowAppend(RingsUpTo(slices, stacks), MeridiansUpTo(slices, stacks, slices), SphereVertexCount(slices, stacks));
  }

  /**
   * As written, the run on circle `i` has `slices` edges; its last one joins
   * the circle's last vertex to the FIRST vertex of circle `i + 1`, so every
   * circle gets a stray segment across to the next one besides its closing
   * edge.
   */
  lemma RingCrossesToNextCircle(slices: nat, i: nat)
    requires slices > 0
    ensures [i * slices + slices - 1, (i + 1) * slices] in Ring(slices, i)
    ensures |Ring(slices, i)| == slices + 1
  {
    CircleStart(slices, i);
    RingRunBounds(slices, i, slices);
    assert RingRun(slices, i, slices)[slices - 1] == [i * slices + slices - 1, i * slices + slices];
    assert Ring(slices, i)[slices - 1] == RingRun(slices, i, slices)[slices - 1];
  }

  /** The ring as evidently intended: `slices - 1` steps along the circle, then the closing edge. */
  function CorrectedRing(slices: nat, i: nat): seq<Edge>
    requires slices > 0
  {
    RingRun(slices, i, slices - 1) + [[i * slices + slices - 1, i * slices]]
  }

  /** The corrected ring has one edge per vertex of circle `i`, all within that circle. */
  lemma CorrectedRingStaysOnCircle(slices: nat, i: nat)
    requires slices > 0
    ensures |CorrectedRing(slices, i)| == slices
    ensures forall m, k :: 0 <= m < slices && 0 <= k < |CorrectedRing(slices, i)[m]| ==>
              i * slices <= CorrectedRing(slices, i)[m][k] < (i + 1) * slices
  {
    RingRunBounds(slices, i, slices - 1);
    CircleStart(slices, i);
    var run := RingRun(slices, i, slices - 1);
    forall m, k | 0 <= m < slices && 0 <= k < |CorrectedRing(slices, i)[m]|
      ensures i * slices <= CorrectedRing(slices, i)[m][k] < (i + 1) * slices
    {
      if m < slices - 1 {
        assert CorrectedRing(slices, i)[m] == run[m];
      }
    }
  }

}
