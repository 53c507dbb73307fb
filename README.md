# Perspective wireframe renderer: clipping pipeline model

This project models the core of a small wireframe renderer. For each model in a scene the renderer:

1. builds integer edge lists for cubes, cones, cylinders and spheres;
2. transforms every vertex into the canonical perspective view volume;
3. cuts every edge into consecutive index pairs;
4. clips each pair in 3D against the six planes of that volume, with a recursive Cohen–Sutherland clipper driven by 6-bit outcodes;
5. projects the surviving lines with the MPer matrix and maps them to the window with the viewport matrix.

The matrix constructors come from `scripts/transforms.js`. The rest comes from `scripts/renderer.js`.

Modules, one per file:

- `Wrappers` (`wrappers.dfy`): `Option`. It stands for a value the source passes or leaves `undefined`.
- `Vectors` (`vectors.dfy`): `Vector3` and `Vector4` are the values built by `Vector3`/`Vector4` (transforms.js:168-179), plus subtract, dot and cross.
- `Outcodes` (`outcodes.dfy`): `outcodePerspective` over exact reals with tolerance `Epsilon = 1/1000000`. Outcodes are naturals, and the JavaScript `|` and `&` are modelled arithmetically. The function also covers the `toString(2)` conversion, the padding loop, and the right-to-left scan that picks the clip plane.
- `Clipping` (`clipping.dfy`): `clipLinePerspective`.
  - `Clip` is the specification function. `ClipLinePerspective` is a recursive method that mirrors the source branch by branch; it is proved equal to `Clip`.
  - `z_min` is an `Option<real>`. The recursive call passes `None`, as the source passes nothing there.
  - A result is `Accepted(line)` or `Rejected` (the source's `null`). It is `ZeroDivisor` when the chosen plane's denominator is zero, and `OutOfFuel` when the recursion runs past the given fuel.
- `ClippingFindings` (`clipping_findings.dfy`): families of concrete lines on which the clipper divides by zero, recurses forever, or accepts a line beyond the near plane.
- `NearClipping` (`near_clipping.dfy`): the clipper with `z_min` kept in the recursive call.
- `Transforms` (`transforms.dfy`): the parts of `transforms.js` listed below.
  - The four in-place setters, as methods on a `Matrix` object whose `values` grid they overwrite.
  - `mat4x4MPer` and `mat4x4Viewport`.
  - The four factors T, R, S and P of `mat4x4Perspective`, as functions returning a grid.
  - `Apply`, a matrix times a homogeneous point.
- `Topology` (`topology.dfy`): the cube vertices and the edge lists of the four built-in shapes. The loops are methods proved equal to prefix functions.
- `Pipeline` (`pipeline.dfy`): the per-model loops of `draw`.
  - Transform the vertices.
  - Clip every segment; the clipper is a parameter.
  - Map the kept lines through MPer and the viewport.
  - `DrawModel` chains the three.

Notes on what the code does, which the model follows:

- The clip recursion has no depth bound, and a plane's denominator is not checked before the division. `ClippingFindings.ClipCanCycle` and `ClippingFindings.EdgeClipCanCycle` show lines the code clips forever. `ClippingFindings.RightDivisorCanVanish` shows a line whose right-plane denominator is zero.
- The code passes `clip[4]` as `z_min`. The comment at scripts/renderer.js:426 describes `z_min` as the near plane of the canonical volume. After P, that plane is at `-clip[4]/clip[5]`. Both are modelled; see Findings.
- A divisor is guaranteed nonzero for the left, bottom, far and near planes only. For the right and top planes the other endpoint may lie beyond the opposite plane (`Clipping.DivisorSign`).

## Model

| member | source | states |
|---|---|---|
| Outcodes.Outcode | scripts/renderer.js:403-421 | the outcode is below 64; it is 0 exactly when the point is inside the view volume with tolerance (`z-eps <= x <= -z+eps`, same for y, `-1-eps <= z <= z_min+eps`); without `z_min` the NEAR bit is never set |
| Outcodes.OutcodeBits | scripts/renderer.js:403-421 | the bit of each plane is set exactly when the point lies beyond that plane; no bit above the sixth is set |
| Outcodes.OutcodePairsExclusive | scripts/renderer.js:405-419 | never both LEFT and RIGHT, BOTTOM and TOP, or FAR and NEAR; a point exactly on a boundary gets no bit for it |
| Outcodes.BitOr | scripts/renderer.js:437 | `out0 \| out1` is 0 exactly when both codes are 0 |
| Outcodes.BitAnd | scripts/renderer.js:447 | `out0 & out1` is 0 when either code is 0 |
| Outcodes.BitOrBits | scripts/renderer.js:437 | each bit of `a \| b` is the disjunction of the bits of `a` and `b` |
| Outcodes.BitAndBits | scripts/renderer.js:447 | each bit of `a & b` is the conjunction of the bits of `a` and `b` |
| Outcodes.BothInsideIff | scripts/renderer.js:437-443 | trivial accept happens exactly when both endpoints are inside the view volume |
| Outcodes.SharedPlaneIff | scripts/renderer.js:447-449 | trivial reject happens exactly when both endpoints lie beyond a common plane |
| Outcodes.ToBinaryString | scripts/renderer.js:469 | `toString(2)` has at least one digit |
| Outcodes.BinaryDigits | scripts/renderer.js:469 | the k-th digit from the right of `toString(2)` is bit k; no bit is set beyond its length |
| Outcodes.BinaryLength | scripts/renderer.js:469-474 | a code below 2^m has at most m binary digits, so padding to 6 never truncates an outcode |
| Outcodes.PaddedBitString | scripts/renderer.js:469-474 | the padding loop yields exactly the 6-character bit string of the code |
| Outcodes.LeftmostOne | scripts/renderer.js:509-514 | the right-to-left scan ends at the leftmost '1', or -1 when there is none |
| Outcodes.ChosenPlane | scripts/renderer.js:508-514 | the chosen plane's bit is set in the outcode |
| Outcodes.ChosenPlaneIsHighest | scripts/renderer.js:508-514 | no higher-order bit than the chosen plane's is set (LEFT first, NEAR last) |
| Outcodes.LeftmostOneIsChosenPlane | scripts/renderer.js:508-514 | in the padded string the chosen plane's position holds the first '1' |
| Clipping.Param | scripts/renderer.js:524-602 | `t` solves the plane equation: `t * divisor == numerator` |
| Clipping.PointAtSolutionOnPlane | scripts/renderer.js:516-602 | the point at that `t` on the parametric line satisfies the plane's equation |
| Clipping.Intersection | scripts/renderer.js:524-602 | the replaced endpoint lies exactly on the chosen plane |
| Clipping.LeftBranchMeetsPlane | scripts/renderer.js:524-536 | the LEFT branch (`x = z` after updating y and z) computes the intersection |
| Clipping.RightBranchMeetsPlane | scripts/renderer.js:537-549 | the RIGHT branch (`x = -z`) computes the intersection |
| Clipping.BottomBranchMeetsPlane | scripts/renderer.js:550-562 | the BOTTOM branch (`y = z`) computes the intersection |
| Clipping.TopBranchMeetsPlane | scripts/renderer.js:563-575 | the TOP branch (`y = -z`) computes the intersection |
| Clipping.FarBranchMeetsPlane | scripts/renderer.js:576-588 | the FAR branch (`z = -1`) computes the intersection |
| Clipping.NearBranchMeetsPlane | scripts/renderer.js:589-601 | the NEAR branch (`z = z_min`) computes the intersection |
| Clipping.Step | scripts/renderer.js:465-614 | one pass keeps both w values, leaves the endpoint that is not selected unchanged (endpoint 1 when `out0 > 0`, else endpoint 0), and puts the moved endpoint on the plane of its outcode's highest bit |
| Clipping.Clip | scripts/renderer.js:427-622 | the reference definition of `clipLinePerspective`: an accepted line keeps the w of both endpoints (the inside and fuel properties are the lemmas below) |
| Clipping.MoveOntoPlane | scripts/renderer.js:524-602 | the branch chain fails exactly when the chosen divisor is zero, otherwise it yields the intersection with the chosen plane |
| Clipping.ClipLinePerspective | scripts/renderer.js:427-622 | the imperative clipper (copies, outcodes, padding, scan, branch, recursion without `z_min`) returns exactly `Clip` |
| Clipping.ClipTrivialCases | scripts/renderer.js:437-449 | both endpoints inside: the line is returned unchanged, each endpoint with its own w; a shared violated plane: rejected |
| Clipping.StepCrossesPlane | scripts/renderer.js:465-514 | the moved endpoint (endpoint 0 if outside, else 1) is beyond the chosen plane and the other endpoint is not |
| Clipping.DivisorSign | scripts/renderer.js:527-592 | the divisor is positive for LEFT, BOTTOM, FAR and NEAR; for RIGHT and TOP it is positive unless the other endpoint is beyond LEFT or BOTTOM |
| Clipping.DivisorSignAt | scripts/renderer.js:527-592 | the same sign facts for any pair of points, one beyond a plane and one not |
| Clipping.StepMovesMover | scripts/renderer.js:465-620 | one step fails exactly on a zero divisor; otherwise it moves only the selected endpoint onto the chosen plane at the solved `t`, keeping the other endpoint and both w values |
| Clipping.ZeroDivisorForcesPositiveDeltaZ | scripts/renderer.js:537-575 | a step with a zero denominator is off RIGHT or TOP, with a positive numerator and positive `deltaZ`, and the fixed endpoint is beyond LEFT or BOTTOM; so the source's infinite `t` sends the moved point beyond that same plane and the next call rejects the line |
| Clipping.InsideWithoutNear | scripts/renderer.js:415-419 | inside with a `z_min` implies inside without one |
| Clipping.NearTestIdle | scripts/renderer.js:341-344 | for `z_min >= 0`, as the renderer passes `clip[4]`, the NEAR test changes nothing for points inside the other five planes |
| Clipping.ClipAcceptsOnlyInside | scripts/renderer.js:423-443 | every accepted line has both endpoints inside the view volume (of the last call, which has no `z_min`), each endpoint keeps its w, and an endpoint already inside is returned unchanged |
| Clipping.ClipMoreFuel | scripts/renderer.js:615-620 | a result reached with some fuel is the same with more fuel, so fuel only cuts off endless recursion |
| ClippingFindings.RightDivisorCanVanish | scripts/renderer.js:537-540 | a line beyond RIGHT at one end and beyond LEFT and BOTTOM at the other reaches the RIGHT branch with a zero denominator |
| ClippingFindings.ClipCanCycle | scripts/renderer.js:615-620 | a line at the apex of the volume, whose fixed endpoint lies in the tolerance bands of both side planes, alternates between the RIGHT and LEFT planes forever: no fuel suffices |
| ClippingFindings.EdgeClipCanCycle | scripts/renderer.js:615-620 | a line along the edge where the right and far planes meet, at depth -1, alternates between the RIGHT and FAR planes forever: no fuel suffices |
| ClippingFindings.EdgeCycleOutOfFuel | scripts/renderer.js:615-620 | the step off the far plane returns to the starting line, so every fuel runs out |
| ClippingFindings.CycleOutOfFuel | scripts/renderer.js:615-620 | the second step of that cycle returns to the starting line, so every fuel runs out |
| ClippingFindings.AcceptedLineCanCrossNearPlane | scripts/renderer.js:617-620 | with a negative `z_min`, a line beyond LEFT and NEAR is clipped against LEFT only and then accepted with an endpoint still beyond the near plane |
| NearClipping.ClipKeepingNearAcceptsInside | scripts/renderer.js:423-426 | with `z_min` kept through the recursion, every accepted line lies inside all six planes and keeps each endpoint's w |
| NearClipping.ClipKeepingNearClipsNear | scripts/renderer.js:589-601 | on the same line the corrected clipper takes the extra NEAR step and returns an endpoint on the near plane |
| Vectors.Xyz | scripts/renderer.js:429-430 | the x, y, z copy together with the original w restores the point |
| Vectors.Cross | scripts/transforms.js:8-10 | the cross product is orthogonal to both factors |
| Transforms.Mat4x4Identity | scripts/transforms.js:92-99 | the whole grid of the given matrix becomes the identity |
| Transforms.Mat4x4Translate | scripts/transforms.js:102-110 | the whole grid becomes the translation grid for (tx, ty, tz) |
| Transforms.Mat4x4Scale | scripts/transforms.js:113-121 | the whole grid becomes the scaling grid for (sx, sy, sz) |
| Transforms.Mat4x4ShearXY | scripts/transforms.js:157-165 | the whole grid becomes the xy-shear grid for (shx, shy) |
| Transforms.IdentityKeepsPoints | scripts/transforms.js:92-99 | the identity maps every point to itself |
| Transforms.TranslateMovesPoints | scripts/transforms.js:102-110 | `(x,y,z,1)` goes to `(x+tx, y+ty, z+tz, 1)`, and translating by the negation undoes it |
| Transforms.ScaleScalesPoints | scripts/transforms.js:113-121 | each coordinate is multiplied by its factor and w is kept |
| Transforms.ShearXYShearsPoints | scripts/transforms.js:157-165 | x and y move by `shx*z` and `shy*z`, z and w are kept, and the opposite shear undoes it |
| Transforms.MPerProjects | scripts/transforms.js:60-71 | MPer maps `(x,y,z,w)` to `(x,y,z,-z)` |
| Transforms.ViewportMapsCorners | scripts/transforms.js:74-85 | `(-1,-1,z,1)` goes to `(0,0,z,1)` and `(1,1,z,1)` to `(width,height,z,1)` |
| Transforms.ViewportKeepsSquareInWindow | scripts/transforms.js:74-85 | every point of the square [-1,1]^2 with w = 1 lands inside the window |
| Transforms.BasisOrthogonal | scripts/transforms.js:5-10 | n, u = vup x n and v = n x u are pairwise orthogonal, whatever the normalising factors |
| Transforms.EyeTranslationCentresEye | scripts/transforms.js:12-18 | T is the translation by -prp and sends prp to the origin |
| Transforms.RotationProjectsOntoBasis | scripts/transforms.js:20-26 | R sends `(p,1)` to `(u.p, v.p, n.p, 1)` |
| Transforms.RotationAlignsBasis | scripts/transforms.js:20-26 | for an orthonormal basis R turns u, v, n into the x, y, z axes |
| Transforms.CentreShearCentresWindow | scripts/transforms.js:28-44 | with `clip[4] != 0`, S is the xy-shear by `-cw.x/cw.z`, `-cw.y/cw.z` and maps the window centre `cw` to `(0,0,-clip[4])` |
| Transforms.PerspectiveScaleMapsDepths | scripts/transforms.js:46-52 | P scales x and y by exactly the written factors and z by `1/clip[5]`, keeps w, and sends `z = -clip[5]` to -1 and `z = -clip[4]` to `-clip[4]/clip[5]` |
| Transforms.PerspectiveScaleMissesSidePlane | scripts/transforms.js:48-49 | as written, the window's right edge at the near plane lands at `x = clip[4]*clip[5]`, off the side plane `x = -z` unless `clip[5] = 1` |
| Transforms.CanonicalScaleMeetsSidePlanes | scripts/transforms.js:46-52 | with the x and y scales divided by `clip[5]`, the right edge lands on `x = -z` and the top edge on `y = z` at the near depth |
| Topology.CubeVertices | scripts/renderer.js:108-157 | the cube has eight vertices |
| Topology.CubeEdgesAreBoxEdges | scripts/renderer.js:108-166 | every cube edge index is below 8, and every segment of a box with nonzero size joins corners that differ in exactly one coordinate |
| Topology.ConeEdges | scripts/renderer.js:191-201 | the loop pushes exactly the cone's prefix list for all sides |
| Topology.ConeEdgesShape | scripts/renderer.js:172-201 | 2·sides edges: `[k, (k+1) % sides]` round the base and `[k, sides]` to the apex; every index is below sides+1 |
| Topology.CylinderEdges | scripts/renderer.js:221-239 | the loop pushes exactly the cylinder's prefix list |
| Topology.CylinderEdgesShape | scripts/renderer.js:208-239 | 3·sides edges, the third of each turn `[2k, 2k+1]` joining bottom and top; every index is below 2·sides |
| Topology.SphereEdges | scripts/renderer.js:272-293 | the nested loops push the circle edges and then the meridian edges, in the source's order |
| Topology.RingRunBounds | scripts/renderer.js:275-279 | a run of j steps on circle i names vertices from i·slices to i·slices+j |
| Topology.MeridianRunBelow | scripts/renderer.js:288-292 | a meridian of j steps names vertices below (j+1)·slices |
| Topology.SphereEdgesInBounds | scripts/renderer.js:244-293 | with at least one slice, every sphere edge index is below (stacks+1)·slices |
| Topology.RingCrossesToNextCircle | scripts/renderer.js:273-283 | as written, each circle gets `slices + 1` edges, one of them `[i·slices+slices-1, (i+1)·slices]`, which crosses to the next circle |
| Topology.CorrectedRingStaysOnCircle | scripts/renderer.js:273-283 | with `slices-1` steps the ring has one edge per vertex, all within circle i |
| Pipeline.TransformVertices | scripts/renderer.js:298-324 | every vertex, copied, is multiplied by the transform, in order |
| Pipeline.ClipEdges | scripts/renderer.js:326-351 | the nested loops push exactly the accepted lines of every consecutive index pair, in order |
| Pipeline.ClippedInside | scripts/renderer.js:329-351 | if the clipper only returns lines inside the volume, every kept line is inside |
| Pipeline.ClippedCount | scripts/renderer.js:333-349 | at most one line is kept per segment |
| Pipeline.RendererKeepsInside | scripts/renderer.js:341-348 | every line the renderer keeps is inside the volume without a near plane, and inside the volume with `z_min = clip[4]` when `clip[4] >= 0` |
| Pipeline.InsideModelKept | scripts/renderer.js:329-351 | a clipper that returns inside lines unchanged, on a model whose vertices are all inside, keeps every segment unchanged and in order |
| Pipeline.RendererKeepsInsideModel | scripts/renderer.js:329-351 | the renderer draws every segment of a model that lies wholly inside the view volume, unchanged |
| Pipeline.MapLines | scripts/renderer.js:353-373 | each kept line is replaced by its endpoints times the matrix, in place |
| Pipeline.ProjectedInsideSquare | scripts/renderer.js:353-359 | after MPer an inside endpoint has `w = -z` and `\|x\|`, `\|y\| <= w + eps` |
| Pipeline.DrawModel | scripts/renderer.js:298-373 | transform, clip with `Some(clip[4])`, MPer, then viewport, yield exactly `Frame` |
| Pipeline.PassedNearMissesNearPlane | scripts/renderer.js:341-344 | a point in front of the canonical near plane `-clip[4]/clip[5]` gets outcode 0 under `clip[4]`, so it is kept |
| Pipeline.CorrectedKeepsInside | scripts/renderer.js:341-344 | with the canonical near bound kept through the recursion, every kept line is inside all six planes |

## Left out

- The canvas and DOM are left out: the constructor, `drawLine`, `clearRect`, and the final divide by w with `Math.floor` to pixels (scripts/renderer.js:376-386). They are output plumbing.
- `animate`, `updateTransforms` and `requestAnimationFrame` are left out. They are event scheduling.
- `moveLeft`/`moveRight`/`moveForward`/`moveBackward` are left out: single field bumps and a redraw. `processScene`/`updateScene` are left out too: JSON copying of the scene.
- Everything built on `Math.cos`, `Math.sin` and `Math.PI` is left out, because transcendental functions cannot be expressed over reals here:
  - `rotateLeft`/`rotateRight`
  - `mat4x4RotateX/Y/Z`
  - the vertex positions of the cone, cylinder and sphere (only their vertex counts are kept)
- matrix.js is not part of this model:
  - `Matrix.multiply` of a matrix and a point is `Transforms.Apply`. The product `Matrix.multiply([p, s, r, t])` and its order are not modelled, so `Pipeline.DrawModel` takes the finished transform as a grid.
  - The initial contents of `new Matrix(4, 4)` are not modelled.
  - `subtract`, `cross` and `dot` are the textbook definitions.
- Transforms.BasisOf: `normalize` needs a square root. It is modelled as multiplication by caller-given factors `kn`, `ku`. Nothing checks that these are reciprocal lengths, so unit length is a precondition of `RotationAlignsBasis` rather than a consequence.
- IEEE-754 behaviour is replaced by exact reals:
  - `Transforms.CentreShear` requires `clip[4] != 0`.
  - `Transforms.PerspectiveScale` requires `clip[0] != clip[1]`, `clip[2] != clip[3]` and `clip[5] != 0`, where the source would produce infinities.
- Clipping.MoveOntoPlane, Clipping.Step, Clipping.Clip: a zero denominator yields `None`, and the clip stops with `ZeroDivisor`.
  - The source instead divides. `Clipping.ZeroDivisorForcesPositiveDeltaZ` shows what follows. A zero denominator arises only off the right (top) plane, with a positive numerator and `deltaZ > 0`, and the endpoint left in place lies beyond the left (bottom) plane.
  - So the source's `t` is `+Infinity`, the moved point gets `z = +Infinity` and `x = -Infinity` (`y = -Infinity`), and it lies beyond the same left (bottom) plane as the other endpoint.
  - The recursive call therefore always returns `null` (scripts/renderer.js:447-449). On the line of `ClippingFindings.RightDivisorCanVanish`, from `(s,0,0)` to `(0,0,s)`, the moved point is `(-Infinity, NaN, +Infinity)`.
- Clipping.Clip: the recursion is bounded by a fuel parameter. The source has none. On the cycles of `ClippingFindings.ClipCanCycle` and `ClippingFindings.EdgeClipCanCycle` it recurses until JavaScript throws a `RangeError`, which aborts `draw()`.
- Pipeline.ClipEdges: `ZeroDivisor` and `OutOfFuel` results are dropped like `null`.
  - On a zero denominator this is exactly what the source does: its recursive call returns `null` (`Clipping.ZeroDivisorForcesPositiveDeltaZ`).
  - On an endless recursion the source throws and draws nothing further.
- Topology.SphereEdgesInBounds: requires at least one slice. With no slices the closing edge of each circle is `[-1, 0]` and there are no vertices at all.
- The corrected sphere ring is stated per circle (`Topology.CorrectedRing`). No separate corrected sphere edge list is built.
- The "generic" model type keeps the vertices and edges it was loaded with. For it, `Pipeline.DrawModel` takes any vertex and edge lists whose indices are in range.
- The viewport loop (scripts/renderer.js:361-373) shares `Pipeline.MapLines` with the MPer loop.

## Findings

The endless recursion of `ClippingFindings.ClipCanCycle` and `ClippingFindings.EdgeClipCanCycle` is not listed as a row. It happens wherever the endpoint left in place sits within the tolerance bands of two planes that meet at an edge of the view volume. Moving the other endpoint onto one plane then puts it beyond the other plane by more than the tolerance, and the next step moves it back.
- `ClipCanCycle` is at the apex, where the left and right planes meet at the eye.
- `EdgeClipCanCycle` is along the edge where the right and far planes meet, at depth -1. A model edge lying along that edge of the view volume reaches it in an ordinary scene. With an offset that is a multiple of 2^-52, away from the ends of its range, every operation is exact in floating point too, so the source recurses until a `RangeError`.

Whether the intended remedy is a depth bound, a different tolerance or a rejection of such lines cannot be told from the code. The model records the defect (`ClipCanCycle`, `CycleOutOfFuel`, `EdgeClipCanCycle`, `EdgeCycleOutOfFuel`) and bounds the recursion by fuel.

| source | as written | input that shows it | evidently intended | confidence | as-written member | corrected member |
|---|---|---|---|---|---|---|
| scripts/renderer.js:341-344 | the near distance `clip[4]` is passed as the near bound `z_min` of the canonical volume | `clip[4] > 0`, `clip[5] > 0`, and a point `(0,0,z)` with `-clip[4]/clip[5] + eps < z <= 0` and `z >= -1`: it is in front of the near plane but gets outcode 0 | pass the canonical near plane `-clip[4]/clip[5]` | medium, not executed | Pipeline.PassedNearMissesNearPlane | Pipeline.CorrectedKeepsInside |
| scripts/renderer.js:617-620 | the recursive call omits `z_min`, so after the first step the NEAR plane is never tested | `z_min = -s/2` and the line from `(-s,0,-0.2s)` to `(0,0,-0.6s)` for `1 <= s <= 1.5`: it is clipped to `(-3/7 s, 0, -3/7 s)` on LEFT and accepted, still beyond the near plane | pass `z_min` again | high, not executed | ClippingFindings.AcceptedLineCanCrossNearPlane | NearClipping.ClipKeepingNearAcceptsInside |
| scripts/renderer.js:275-279 | the run along circle i loops `j < slices`, so its last edge is `[i·slices+slices-1, (i+1)·slices]` | any sphere with at least one slice and one stack | loop `j < slices - 1`, leaving the circle to its closing edge | high, not executed | Topology.RingCrossesToNextCircle | Topology.CorrectedRingStaysOnCircle |
| scripts/transforms.js:48-49 | the x and y scales of P are multiplied by `clip[5]` | `clip = [-1, 1, -1, 1, 1, 20]`: the window's right edge at the near plane maps to `x = 20` while `-z = 0.05` | divide by `clip[5]`, so the window edges land on `x = ±z`, `y = ±z` | medium, not executed | Transforms.PerspectiveScaleMissesSidePlane | Transforms.CanonicalScaleMeetsSidePlanes |
