# molesp core in Dafny

This project models the computational core of molesp. molesp computes
molecular surfaces and electrostatic-potential maps and shows them in a
web viewer. The model covers five pieces:

- **Marching cubes** (`march.dfy`, module `March`). The source is
  `cpp/march.cpp`. A scalar volume of `dataWidth x dataHeight x dataDepth`
  samples is stored flat, with x varying fastest. Each cube of eight
  neighbouring samples is classified by which corners lie below the iso
  level. That class selects a row of the triangle table. Every triangle
  corner is keyed by the ordered pair of voxel indices of its cube edge.
  Keys are merged into shared vertices in order of first appearance, and
  each vertex sits at its edge's midpoint. The mesh can then be smoothed.
- **Laplacian smoothing** (`smooth.dfy`, module `Smooth`). The source is
  `cpp/smooth.cpp`. An adjacency map is built once from the triangles.
  Each iteration moves every vertex to
  `factor * mean(neighbours) + (1 - factor) * vertex`.
- **The colour map** (`colormap.dfy`, module `ColorMap`). The source is
  `gui/src/utilities/color-map.ts`. A piecewise-linear palette is sampled
  into a look-up table of `intervals + 1` colours. `getColor` maps a value
  to a table entry through a clamped, normalised and rounded position.
  `updateCanvas` paints a legend strip into an RGBA byte buffer.
- **The camera controller** (`camera.dfy`, module `CameraController`). The
  source is `gui/src/utilities/camera-controller.ts`. Mouse events drive a
  NONE/ORBIT/TWIST state machine and cursor baselines. The wheel
  accumulates a radius scale. Each `update` tick zooms, orbits with
  decaying inertia, twists, places the camera and consumes the inputs.
  Each pure step is a function on a `Controls` value. The controller is a
  class whose methods are proved to change its fields exactly as those
  functions say.
- **The cubic grid** (`grids.dfy`, module `Grids`). The source is
  `molesp/surfaces/grids.py`. A box is built around the atoms, padded by
  the scaled van der Waals radii. Each axis gets an odd number of points,
  centred on the mean atom position. The points are listed with z fastest.

Shared modules:

- `wrappers.dfy` defines `Option`.
- `vectors.dfy` defines `Vec3` arithmetic.
- `indexing.dfy` holds the flat-index encoding and decoding lemmas used by
  both the volume and the grid.

Verify with

    dafny verify --resource-limit 2000000 --verification-time-limit 0 --warn-contradictory-assumptions *.dfy

## Model

| member | source | states |
|---|---|---|
| March.VoxelIndexRoundTrip | cpp/march.cpp:13-21 | decoding the flat index of an in-volume voxel (x, y, z) with the `%`/`/` decoding of edgeVertexIndicesToCoordinates gives back (x, y, z) |
| March.VoxelPositionRoundTrip | cpp/march.cpp:54-62 | every non-negative flat index decodes to in-range x and y and a non-negative z, and re-encodes to itself |
| March.EdgeKeyIsCornerPair | cpp/march.cpp:23-47 | an edge key is the pair of the flat indices of the edge's two table corners, smaller first |
| March.EdgeKeyCanonical | cpp/march.cpp:23-47 | two cube edges, from any cubes, get equal keys if and only if they join the same two voxels |
| March.EdgeVertexIsMidpoint | cpp/march.cpp:49-65 | the vertex for an edge of an in-volume cube is the midpoint of the edge's two corner positions (twice it is their sum) |
| March.CornerReadsInVolume | cpp/march.cpp:78-89 | past the early return, all eight corner reads index inside the volume |
| March.CubeIndexBits | cpp/march.cpp:91-100 | bit k of the cube configuration is set if and only if corner k is below the iso level |
| March.ComputeCubeIndex | cpp/march.cpp:91-100 | the or-ed configuration equals the specification `CubeIndex` |
| March.MarchSingle | cpp/march.cpp:67-124 | a cube reaching past the volume yields no triangles; otherwise the triangles are those the configuration's table row lists, three edges per triangle, in order |
| March.MarchCubes | cpp/march.cpp:136-150 | the triple loop yields every cube's triangles in z, y, x order, x fastest (`MarchedTriangles`) |
| March.FlatVolumeHasNoTriangles | cpp/march.cpp:138-150 | a volume with fewer than two samples along some axis has no triangles |
| March.CornersAt | cpp/march.cpp:157-181 | entries 3t, 3t+1 and 3t+2 of the corner list are corners A, B and C of triangle t |
| March.FirstAppearanceSpec | cpp/march.cpp:155-176 | the created keys are exactly the corner keys, each once |
| March.FirstAppearanceOrder | cpp/march.cpp:159-176 | vertices are created in the order in which their keys first appear |
| March.FirstIndex | cpp/march.cpp:159-176 | the returned position holds the key and no earlier position does |
| March.AddKeyKeepsTable | cpp/march.cpp:159-164 | creating a vertex for an unseen key keeps the map and vertex list consistent: every key maps to its own slot, and every slot holds its key's midpoint |
| March.FindOrAddVertex | cpp/march.cpp:159-164 | a key seen for the first time gets the next slot and its midpoint, a known key changes nothing, and afterwards the key is in the map |
| March.IndexTriangle | cpp/march.cpp:157-181 | one triangle's three lookups keep the bookkeeping and push the three slots holding its corners' keys |
| March.EveryKeyUsed | cpp/march.cpp:178-180 | every created vertex is referenced by some index |
| March.IndexVertices | cpp/march.cpp:152-181 | vertices are the midpoints of the keys in first-appearance order, and index k names the vertex of corner k |
| March.March | cpp/march.cpp:126-189 | 3 indices per triangle, each naming the vertex of its corner; no duplicate vertex keys; unsmoothed vertices are the edge midpoints; with nSmoothingIterations > 0 the vertices are the smoothed midpoints over the mesh's adjacency; a flat volume gives an empty mesh |
| March.TriangleVertices | cpp/march.cpp:152-181 | in the unsmoothed mesh, triangle t is drawn through the midpoints of the cube edges its three corners were keyed by |
| Smooth.NeighboursIff | cpp/smooth.cpp:15-22 | b is collected for a from the first m triangles if and only if some triangle among them has a and b at two different corners |
| Smooth.LinkedSymmetric | cpp/smooth.cpp:16-21 | sharing a triangle is symmetric |
| Smooth.AddTriangleAt | cpp/smooth.cpp:16-21 | the six inserts of one triangle add to vertex a exactly the other corners of the triangle where a sits |
| Smooth.AdjacencyProperties | cpp/smooth.cpp:9-25 | the adjacency relates exactly the vertices that share a triangle, is symmetric, and holds only vertex indices |
| Smooth.BuildAdjacencyMap | cpp/smooth.cpp:9-25 | the loop builds the specification adjacency: one set per vertex, b in set a if and only if a and b share a triangle, symmetric, in range |
| Smooth.NeighboursInRange | cpp/smooth.cpp:13-22 | with in-range indices every collected neighbour is a vertex index |
| Smooth.UsedVertexHasNeighbour | cpp/smooth.cpp:15-22 | a vertex at any triangle corner has a non-empty neighbour set |
| Smooth.UsedVerticesHaveNeighbours | cpp/smooth.cpp:43-47 | if every vertex is used by a triangle, no neighbour count used as a divisor is zero |
| Smooth.NeighbourSumInsert | cpp/smooth.cpp:37-41 | adding one neighbour adds its position to the sum, whatever the order of visits |
| Smooth.AccumulateNeighbours | cpp/smooth.cpp:37-41 | the inner loop leaves the sum of the neighbours' positions in slot i and nothing else changed |
| Smooth.ApplySmoothingIteration | cpp/smooth.cpp:27-55 | every output vertex is factor times the mean of its neighbours plus (1 - factor) times the input vertex |
| Smooth.ApplySmoothing | cpp/smooth.cpp:57-73 | the result is nIterations iterations over the adjacency of the original indices; no iteration (nIterations <= 0) leaves the vertices unchanged |
| Smooth.ZeroFactorIsIdentity | cpp/smooth.cpp:45-51 | with smoothing factor 0 an iteration leaves every vertex where it is |
| ColorMap.ColorMapsValid | gui/src/utilities/color-map.ts:4-12 | every named palette has positions rising strictly from 0 to 1 and colours in the unit cube |
| ColorMap.Lerp | gui/src/utilities/color-map.ts:48-52 | interpolating at t = 0 gives the first colour, at t = 1 the second |
| ColorMap.LerpInUnitRange | gui/src/utilities/color-map.ts:48-52 | interpolating two colours of the unit cube at t in [0, 1] stays in the unit cube |
| ColorMap.Segment | gui/src/utilities/color-map.ts:39-40 | for alpha in (0, 1] the found segment (p[j], p[j+1]] holds alpha |
| ColorMap.SegmentUnique | gui/src/utilities/color-map.ts:39-40 | no other segment holds alpha, so the inner loop pushes exactly one colour |
| ColorMap.InteriorEntrySegment | gui/src/utilities/color-map.ts:36-55 | for each interior step, segment j passes the `continue` test if and only if it is the segment holding alpha |
| ColorMap.Row | gui/src/utilities/color-map.ts:39-55 | one pass of the inner loop pushes exactly the colour of the segment holding alpha |
| ColorMap.LookUpTableShape | gui/src/utilities/color-map.ts:26-58 | the table has intervals + 1 entries: the first control colour, then for each interior alpha = i / intervals the colour of the one segment holding it, then the last control colour |
| ColorMap.LookUpTableInUnitRange | gui/src/utilities/color-map.ts:26-58 | every table entry is a colour of the unit cube |
| ColorMap.CoolToWarmMiddle | gui/src/utilities/color-map.ts:5-11 | with cool-to-warm and 24 intervals the table has 25 entries and entry 12 is 0xf0f0f0 |
| ColorMap.ColorMap.constructor | gui/src/utilities/color-map.ts:17-24 | stores the fields and builds the table of the named palette |
| ColorMap.ColorMap.BuildLookUp | gui/src/utilities/color-map.ts:26-59 | the two loops store `LookUpTable` of the palette and leave the other fields alone |
| ColorMap.ColorMap.SetRange | gui/src/utilities/color-map.ts:61-66 | the range changes and the rebuilt table equals the old one |
| ColorMap.ColorMap.ColorPosition | gui/src/utilities/color-map.ts:68-72 | no position if and only if min == max (0 / 0); otherwise the position is inside the table; values at or below min read entry 0 and values at or above max read the last entry; an inverted range always reads entry 0 |
| ColorMap.ColorMap.GetColor | gui/src/utilities/color-map.ts:68-74 | undefined when min == max, else a colour of the table: the first at or below min, the last at or above max |
| ColorMap.PositionOf | gui/src/utilities/color-map.ts:72 | round(alpha * last) lies in [0, last] for alpha in [0, 1], is 0 at alpha 0 and last at alpha 1 |
| ColorMap.PositionMonotone | gui/src/utilities/color-map.ts:72 | a larger normalised value never reads an earlier table position |
| ColorMap.CoolToWarmHalfway | gui/src/utilities/color-map.ts:68-74 | cool-to-warm over [0, 1] with 24 intervals maps 0.5 to 0xf0f0f0 |
| ColorMap.ChannelByte | gui/src/utilities/color-map.ts:115-117 | a channel in [0, 1] is stored as round(c * 255) |
| ColorMap.Store | gui/src/utilities/color-map.ts:115-118 | a byte write changes exactly the written index, and a write past the end changes nothing |
| ColorMap.CanvasSegment | gui/src/utilities/color-map.ts:105-106 | for each step s < intervals the found segment [p[j-1], p[j]) holds s / intervals |
| ColorMap.CanvasLastStep | gui/src/utilities/color-map.ts:104-106 | at alpha = 1 no segment of a valid palette paints a pixel |
| ColorMap.CanvasRow | gui/src/utilities/color-map.ts:105-122 | one downward pass of the inner legend loop paints exactly the colour of the segment holding alpha |
| ColorMap.CanvasEntryInUnitRange | gui/src/utilities/color-map.ts:113 | every legend colour lies in the unit cube |
| ColorMap.CanvasColorsShape | gui/src/utilities/color-map.ts:104-123 | the legend paints exactly intervals pixels, pixel s in the colour of the segment holding s / intervals |
| ColorMap.PaintedAt | gui/src/utilities/color-map.ts:115-120 | byte 4k + q of the painted buffer is channel q of colour k (255 for q = 3), and bytes past the painted pixels are untouched |
| ColorMap.LegendPixels | gui/src/utilities/color-map.ts:104-123 | every legend pixel of a buffer of 4 * intervals bytes is opaque, with channel bytes round(c * 255) in [0, 255] of a unit-cube colour c |
| ColorMap.ColorMap.UpdateCanvas | gui/src/utilities/color-map.ts:86-125 | the buffer becomes the old buffer with the legend colours painted in |
| ColorMap.ColorMap.FillLegend | gui/src/utilities/color-map.ts:104-123 | the two loops paint the `CanvasColors` of the palette |
| ColorMap.ColorMap.FillStep | gui/src/utilities/color-map.ts:105-122 | one pass of the inner loop paints the colours that the specification paints for step s |
| ColorMap.ColorMap.WritePixel | gui/src/utilities/color-map.ts:115-118 | the four writes set pixel k |
| CameraController.MouseDownStartsGesture | gui/src/utilities/camera-controller.ts:78-93 | mouse-down resets radius scale and inertia; button 0 orbits, 2 twists, others keep the state; both baselines at the pointer; camera untouched |
| CameraController.MouseMoveShiftsCursor | gui/src/utilities/camera-controller.ts:94-102 | without a gesture nothing changes; otherwise only the current gesture's cursors shift, the old one taking the previous new one |
| CameraController.MouseUpEndsGesture | gui/src/utilities/camera-controller.ts:103-107 | mouse-up ends the gesture, snaps both baselines to the cursors, and is idempotent |
| CameraController.WheelZooms | gui/src/utilities/camera-controller.ts:108-118 | the wheel is ignored during a gesture or at deltaY = 0; scrolling up multiplies the radius scale by zoomSpeed and scrolling down divides it; nothing else changes |
| CameraController.WheelUpThenDown | gui/src/utilities/camera-controller.ts:113-117 | a scroll up followed by a scroll down restores the controls |
| CameraController.ClampRadiusInRange | gui/src/utilities/camera-controller.ts:126-129 | the zoomed distance is at least minDistance, at most maxDistance when the range is non-empty, and unchanged when already inside it |
| CameraController.ZoomIdle | gui/src/utilities/camera-controller.ts:121 | a radius scale within EPSILON of 1 changes nothing and reports false |
| CameraController.ZoomMovesEye | gui/src/utilities/camera-controller.ts:120-134 | otherwise the zoom reports true and changes only the eye, to the zoomed eye for the old eye's length; the clamped radius r = clamp(|eye| * radiusScale) is at least minDistance and at most maxDistance when that range is non-empty, and with an exact square root the new eye has length r |
| CameraController.ZoomedEyeScaled | gui/src/utilities/camera-controller.ts:123-131 | the zoomed eye is the old eye times r / |eye|, so it keeps the eye's direction; r lies in [minDistance, maxDistance] when that range is non-empty; and the zoomed eye has length r when |eye| is the eye's length |
| CameraController.RescaleKeepsDirection | gui/src/utilities/camera-controller.ts:123-131 | the new eye is the old eye times newRadius / radius, and has length newRadius when radius was its length |
| CameraController.OrbitInertiaDecays | gui/src/utilities/camera-controller.ts:135-173 | the orbit reports false exactly when both the cursor motion and the damped inertia angle are below EPSILON, and then changes only the delta and the angle; without a new rotation the angle is the damped one; cursors, target, position and state are kept |
| CameraController.DampingShrinks | gui/src/utilities/camera-controller.ts:139 | damping by a factor in [0, 1] never makes a non-negative inertia angle grow or turn negative |
| CameraController.UpdateConsumesInput | gui/src/utilities/camera-controller.ts:188-206 | after a tick no zoom is pending, both baselines sit at the unchanged cursors, the orbit delta is zero, state and target are kept, and the camera is at target + eye |
| CameraController.UpdateResult | gui/src/utilities/camera-controller.ts:189-205 | the tick reports the OR of zoom, orbit and twist, each run on the previous one's outcome, and keeps the final eye and up |
| CameraController.LookAtThenIdleUpdate | gui/src/utilities/camera-controller.ts:208-220 | with no pending input, setLookAt(p, t) then an update leaves the camera at p with eye p - t, moves nothing and reports false |
| CameraController.CameraControls.constructor | gui/src/utilities/camera-controller.ts:47-60 | the fields start at their declared initial values with the default settings, and one update(0) tick has run |
| CameraController.CameraControls.OnMouseDown | gui/src/utilities/camera-controller.ts:78-93 | the fields change as `MouseDown` says, the settings do not |
| CameraController.CameraControls.ResetCursors | gui/src/utilities/camera-controller.ts:88-92 | both orbit cursors and both twist cursors are set to the pointer, and only they change |
| CameraController.CameraControls.OnMouseMove | gui/src/utilities/camera-controller.ts:94-102 | the fields change as `MouseMove` says |
| CameraController.CameraControls.OnMouseUp | gui/src/utilities/camera-controller.ts:103-107 | the fields change as `MouseUp` says |
| CameraController.CameraControls.OnMouseWheel | gui/src/utilities/camera-controller.ts:108-118 | the fields change as `MouseWheel` says |
| CameraController.CameraControls.ZoomCamera | gui/src/utilities/camera-controller.ts:120-134 | the fields and the result are those of `Zoom` |
| CameraController.CameraControls.OrbitCamera | gui/src/utilities/camera-controller.ts:135-173 | the fields, including the camera's up vector, and the result are those of `Orbit` |
| CameraController.CameraControls.ApplyRotation | gui/src/utilities/camera-controller.ts:158-161 | the eye and the camera's up vector are rotated by the same rotation, and nothing else changes |
| CameraController.CameraControls.TwistCamera | gui/src/utilities/camera-controller.ts:174-186 | the fields and the result are those of `Twist` |
| CameraController.TwistReturn | gui/src/utilities/camera-controller.ts:174-186 | the twist reports false exactly when its angle, twist motion * twistSpeed * delta * 100, is below EPSILON, and then changes nothing; otherwise it changes only the up vector, rotating it about the eye direction by that angle |
| CameraController.TwistIdle | gui/src/utilities/camera-controller.ts:175-178 | with no twist cursor motion since the last tick, or a zero tick length, the twist changes nothing and reports false |
| CameraController.CameraControls.Update | gui/src/utilities/camera-controller.ts:188-206 | the fields, the camera's position and up, and the result are those of `Tick` |
| CameraController.CameraControls.FinishTick | gui/src/utilities/camera-controller.ts:195-203 | the camera moves to target + eye, the orbit delta is zeroed, both baselines snap to the cursors, and the radius scale resets to 1 |
| CameraController.CameraControls.SetLookAt | gui/src/utilities/camera-controller.ts:208-220 | the camera position and the target become the given points and nothing else changes |
| Grids.Ceil | molesp/surfaces/grids.py:27 | the result is the least integer at or above r |
| Grids.Paddings | molesp/surfaces/grids.py:22-23 | pad i is radius i times the radii scale |
| Grids.LowerCorner | molesp/surfaces/grids.py:22 | the minimum bound lies componentwise below every padded-down atom |
| Grids.LowerCornerAttained | molesp/surfaces/grids.py:22 | on each axis the minimum bound equals some atom's padded-down coordinate |
| Grids.UpperCorner | molesp/surfaces/grids.py:23 | the maximum bound lies componentwise above every padded-up atom |
| Grids.UpperCornerAttained | molesp/surfaces/grids.py:23 | on each axis the maximum bound equals some atom's padded-up coordinate |
| Grids.CornersOrdered | molesp/surfaces/grids.py:22-25 | with non-negative padding the bounds are ordered, so the box widths are non-negative |
| Grids.PointCountCovers | molesp/surfaces/grids.py:27 | each axis count is odd, at least 1 for a non-negative width, and its span (n - 1) * spacing covers the width |
| Grids.LayoutCovers | molesp/surfaces/grids.py:25-29 | for ordered bounds every axis has an odd, positive count whose span covers the box |
| Grids.LayoutCentre | molesp/surfaces/grids.py:29 | the middle grid point ((nx-1)/2, (ny-1)/2, (nz-1)/2) is the mean atom position |
| Grids.CubicLayout | molesp/surfaces/grids.py:22-29 | there is no layout if and only if the conformer has no atoms (numpy's min of an empty array raises) |
| Grids.GridIndexBijection | molesp/surfaces/grids.py:38-40 | the index z + y*nz + x*nz*ny is a bijection between the box of grid points and [0, nx*ny*nz) |
| Grids.PointAtIndex | molesp/surfaces/grids.py:36-42 | the point stored at the index of (x, y, z) is origin + (x, y, z) * spacing, and entry 0 is the origin |
| Grids.FillGrid | molesp/surfaces/grids.py:30-42 | the triple loop fills all nx*ny*nz entries, entry i holding the point of the grid position that index i encodes |
| Grids.CubicLayoutShape | molesp/surfaces/grids.py:22-29 | the layout of a non-empty conformer has the given spacing and an odd, positive count on each axis, spans at least the padded bounding box, and has the mean atom position as its centre point |
| Grids.GenerateCubicGrid | molesp/surfaces/grids.py:9-44 | no grid if and only if there are no atoms; otherwise the layout is well formed with odd counts, spans the padded bounding box and is centred on the mean atom position; the grid has nx*ny*nz points, and each point is the one its index encodes |

## Left out

- The marching-cubes tables (`edgeConnection`, `vertexCoord`, `triangleConnectionTable`) are not part of this model. They are a parameter `Tables`, constrained only by their shape (`ValidTables`). Their geometric correctness is not proved.
- Floating point: samples, coordinates, colours and camera vectors are `real`. float/double rounding, NaN and Infinity are not modelled. A `maxDistance` of Infinity is `None`.
- C++ `int` is unbounded here. Overflow of `z * dataWidth * dataHeight` on huge volumes is not modelled.
- The mesh struct, the Python bindings and the I/O around `march` are not part of this model.
- Smooth.ApplySmoothing: requires that every vertex has a neighbour when it iterates. The source would divide 0 by 0 and produce NaN for an isolated vertex. March meets the requirement, because every vertex it creates is used by a triangle (`EveryKeyUsed`, `UsedVerticesHaveNeighbours`).
- Smooth.ApplySmoothingIteration: requires the adjacency to have one set per vertex. The source loops over the adjacency's size; in applySmoothing the two sizes are always equal.
- Colour conversion: THREE's `Color` colour-space handling (sRGB/linear) is not modelled. `new Color(hex)` is the hex code's bytes scaled into [0, 1].
- The canvas and the DOM (`createCanvas`, `getContext`, `putImageData`) are left out. `updateCanvas` is modelled on the image data buffer, with the early return for a missing context left out.
- The legend loop `for (i = 0; i <= 1; i += step)` accumulates a float. The model runs steps s = 0 .. intervals with alpha = s / intervals; float drift that adds or drops a step is not modelled.
- ColorMap.ColorMap.UpdateCanvas: requires intervals >= 1. With intervals <= 0 the source's step is Infinity or negative.
- ColorMap.ColorMap.constructor: requires the name of a known palette. In the source an unknown name throws a TypeError when `buildLookUp` reads `colorMap[0]`, and that error path is not modelled.
- ColorMap.ColorMap.constructor: `intervals` is an integer. With a fractional `number` the source's loop runs to the next integer; for 2.5 it makes 4 entries, not intervals + 1. Fractional intervals are not modelled.
- ColorMap constructor default `intervals = 11` is left to the caller. Palettes other than cool-to-warm are not part of the source.
- CameraController: THREE's vector maths is abstract. The square root and quaternion rotation (`setFromAxisAngle` plus `applyQuaternion`) are a `Maths` parameter. Properties that depend on them (an exact root in `DampingShrinks`) are stated as preconditions.
- `camera.lookAt` (the camera's orientation) is left out. Position and up vector are modelled. The scratch vectors (`eyeDirection`, `cameraUp`, `cameraRight`, `cameraDelta`, `rotation`) become local values.
- The event listeners, `preventDefault` and `domElement` are left out. The `clientWidth`/`clientHeight` a handler reads become parameters.
- CameraController.MouseDownStartsGesture, CameraController.MouseDown, CameraController.CameraControls.OnMouseDown: require a non-zero width, since the cursor position divides by the width.
- CameraController.MouseMoveShiftsCursor, CameraController.MouseMove, CameraController.CameraControls.OnMouseMove: require a non-zero width during a gesture, for the same reason. Without a gesture the width is not read.
- CameraController.WheelZooms: requires zoomSpeed != 0. With zoomSpeed 0 the source's division would give Infinity.
- CameraController.ZoomMovesEye: requires a non-zero eye length. The source would divide by zero and produce NaN. The length of the new eye is stated only when the square root is exact (`RootOf`).
- CameraController.CameraControls.Update: requires `CanUpdate`, meaning a zoom only when the eye length is non-zero, for the same reason.
- Grids: `compute_vdw_radii` and the unit conversion to bohr are not part of this model. Radii and spacing are plain numbers in bohr, and the returned quantities carry no units.
- Grids.GenerateCubicGrid: requires spacing > 0 and non-negative scaled radii. numpy's behaviour for zero spacing (division by zero) or negative shapes is not modelled.
- Grids.LayoutCovers, Grids.LayoutCentre: stated on `LayoutOf` for any ordered bounds and mean. `CubicLayoutShape` applies them, with `CornersOrdered`, to the layout of `CubicLayout`, and `GenerateCubicGrid` exports the result.
- Grids.Centroid: the mean (sum over count) has no separate property lemma.
