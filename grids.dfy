/** The cubic grid of generate_cubic_grid: per-axis bounds of the atoms padded
    by their scaled radii, an odd number of points per axis that spans those
    bounds, an origin that centres the grid on the mean atom position, and a
    flat array of points filled in the z-fastest order. Lengths are in bohr;
    the radii come in as plain numbers. */
module Grids {
  import opened Vectors
  import opened Wrappers
  import opened Indexing

  /** Rounding up to the next integer (numpy.ceil followed by astype(int)). */
  function Ceil(r: real): (n: int)
    ensures r <= n as real < r + 1.0
  {
    -((-r).Floor)
  }

  /** radii * radii_scale: the padding of every atom. */
  function Paddings(radii: seq<real>, scale: real): (pads: seq<real>)
    ensures |pads| == |radii|
    ensures forall i :: 0 <= i < |radii| ==> pads[i] == radii[i] * scale
  {
    seq(|radii|, i requires 0 <= i < |radii| => radii[i] * scale)
  }

  /** Atom i moved down by its padding along every axis. */
  function Down(conformer: seq<Vec3>, pads: seq<real>, i: int): Vec3
    requires |pads| == |conformer| && 0 <= i < |conformer|
  {
    Vec3(conformer[i].x - pads[i], conformer[i].y - pads[i], conformer[i].z - pads[i])
  }

  /** Atom i moved up by its padding along every axis. */
  function Up(conformer: seq<Vec3>, pads: seq<real>, i: int): Vec3
    requires |pads| == |conformer| && 0 <= i < |conformer|
  {
    Vec3(conformer[i].x + pads[i], conformer[i].y + pads[i], conformer[i].z + pads[i])
  }

  /** The per-axis least of two vectors. */
  function Min3(a: Vec3, b: Vec3): Vec3 {
    Vec3(if a.x <= b.x then a.x else b.x, if a.y <= b.y then a.y else b.y, if a.z <= b.z then a.z else b.z)
  }

  /** The per-axis greatest of two vectors. */
  function Max3(a: Vec3, b: Vec3): Vec3 {
    Vec3(if a.x >= b.x then a.x else b.x, if a.y >= b.y then a.y else b.y, if a.z >= b.z then a.z else b.z)
  }

  /** a <= b on every axis. */
  predicate Below(a: Vec3, b: Vec3) {
    a.x <= b.x && a.y <= b.y && a.z <= b.z
  }

  /** minimum_bounds: per axis, the least coordinate of an atom less its
      scaled radius. Every padded atom lies above it. */
  function LowerCorner(conformer: seq<Vec3>, pads: seq<real>): (lo: Vec3)
    requires |pads| == |conformer| > 0
    ensures forall i :: 0 <= i < |conformer| ==> Below(lo, Down(conformer, pads, i))
    decreases |conformer|
  {
    var first := Down(conformer, pads, 0);
    if |conformer| == 1 then first
    else
      var rest := LowerCorner(conformer[1..], pads[1..]);
      assert forall i :: 1 <= i < |conformer| ==>
        Down(conformer, pads, i) == Down(conformer[1..], pads[1..], i - 1);
      Min3(first, rest)
  }

  /** maximum_bounds: per axis, the greatest coordinate of an atom plus its
      scaled radius. Every padded atom lies below it. */
  function UpperCorner(conformer: seq<Vec3>, pads: seq<real>): (hi: Vec3)
    requires |pads| == |conformer| > 0
    ensures forall i :: 0 <= i < |conformer| ==> Below(Up(conformer, pads, i), hi)
    decreases |conformer|
  {
    var first := Up(conformer, pads, 0);
    if |conformer| == 1 then first
    else
      var rest := UpperCorner(conformer[1..], pads[1..]);
      assert forall i :: 1 <= i < |conformer| ==>
        Up(conformer, pads, i) == Up(conformer[1..], pads[1..], i - 1);
      Max3(first, rest)
  }

  function SumAll(vs: seq<Vec3>): Vec3 {
    if |vs| == 0 then Zero else Add(vs[0], SumAll(vs[1..]))
  }

  /** numpy.mean(conformer, axis=0): the sum of the positions over their
      number. */
  function Centroid(conformer: seq<Vec3>): Vec3
    requires |conformer| > 0
  {
    Scale(1.0 / |conformer| as real, SumAll(conformer))
  }

  /** n_grid_points along an axis of width b at spacing s. */
  function PointCount(b: real, s: real): int
    requires s > 0.0
  {
    Ceil(b / s / 2.0) * 2 + 1
  }

  /** grid_origin along an axis: the mean coordinate less half the span of
      n points at spacing s. */
  function Origin(mean: real, n: int, s: real): real {
    mean - s * (n - 1) as real / 2.0
  }

  /** The layout of a grid: its origin, the number of points along x, y and z,
      and the spacing. */
  datatype Layout = Layout(origin: Vec3, nx: int, ny: int, nz: int, spacing: real)

  /** The grid returned: its points in flat order and its layout. */
  datatype Grid = Grid(points: seq<Vec3>, layout: Layout)

  /** The layout for padded bounds [lower, upper] and a mean position. */
  function LayoutOf(lower: Vec3, upper: Vec3, mean: Vec3, s: real): (l: Layout)
    requires s > 0.0
    ensures l.spacing == s
  {
    var bounds := Sub(upper, lower);
    var nx, ny, nz := PointCount(bounds.x, s), PointCount(bounds.y, s), PointCount(bounds.z, s);
    Layout(Vec3(Origin(mean.x, nx, s), Origin(mean.y, ny, s), Origin(mean.z, nz, s)), nx, ny, nz, s)
  }

  /** The layout computed before the loop; None for an empty conformer, on
      which the minimum over the atoms has no value. */
  function CubicLayout(conformer: seq<Vec3>, radii: seq<real>, spacing: real, scale: real): (r: Option<Layout>)
    requires |radii| == |conformer| && spacing > 0.0
    ensures r.None? <==> |conformer| == 0
  {
    if |conformer| == 0 then None
    else
      var pads := Paddings(radii, scale);
      Some(LayoutOf(LowerCorner(conformer, pads), UpperCorner(conformer, pads), Centroid(conformer), spacing))
  }

  /** origin + (x, y, z) * spacing. */
  function Point(l: Layout, x: int, y: int, z: int): Vec3 {
    Vec3(l.origin.x + x as real * l.spacing,
         l.origin.y + y as real * l.spacing,
         l.origin.z + z as real * l.spacing)
  }

  /** The point stored at flat index i: z is the fastest coordinate, x the
      slowest. */
  function PointAt(l: Layout, i: int): Vec3
    requires l.ny > 0 && l.nz > 0
  {
    Point(l, Third(i, l.nz, l.ny), Second(i, l.nz, l.ny), First(i, l.nz))
  }

  /** The flat index of (x, y, z): z + y * nz + x * nz * ny. */
  function GridIndex(l: Layout, x: int, y: int, z: int): int {
    Flatten(z, y, x, l.nz, l.ny)
  }

  predicate WellFormed(l: Layout) {
    l.nx > 0 && l.ny > 0 && l.nz > 0
  }

  /** Every scaled radius is non-negative, as van der Waals radii are. */
  predicate NonNegativePadding(radii: seq<real>, scale: real) {
    forall i :: 0 <= i < |radii| ==> radii[i] * scale >= 0.0
  }

  /** Coordinate k (0 = x, 1 = y, 2 = z) of a vector. */
  function Axis(v: Vec3, k: int): real
    requires 0 <= k < 3
  {
    if k == 0 then v.x else if k == 1 then v.y else v.z
  }

  /** Each corner coordinate is reached: along every axis some atom, padded,
      has the least coordinate (the greatest for the upper corner). */
  lemma {:induction false} LowerCornerAttained(conformer: seq<Vec3>, pads: seq<real>, k: int)
    requires |pads| == |conformer| > 0 && 0 <= k < 3
    ensures exists i :: 0 <= i < |conformer| && Axis(LowerCorner(conformer, pads), k) == Axis(Down(conformer, pads, i), k)
    decreases |conformer|
  {
    var first := Down(conformer, pads, 0);
    if |conformer| == 1 {
      assert LowerCorner(conformer, pads) == first;
    } else {
      var others, otherPads := conformer[1..], pads[1..];
      LowerCornerAttained(others, otherPads, k);
      var rest := LowerCorner(others, otherPads);
      var i :| 0 <= i < |others| && Axis(rest, k) == Axis(Down(others, otherPads, i), k);
      if Axis(first, k) <= Axis(rest, k) {
        assert Axis(LowerCorner(conformer, pads), k) == Axis(first, k);
      } else {
        assert Down(others, otherPads, i) == Down(conformer, pads, i + 1);
        assert Axis(LowerCorner(conformer, pads), k) == Axis(rest, k);
      }
    }
  }

  lemma {:induction false} UpperCornerAttained(conformer: seq<Vec3>, pads: seq<real>, k: int)
    requires |pads| == |conformer| > 0 && 0 <= k < 3
    ensures exists i :: 0 <= i < |conformer| && Axis(UpperCorner(conformer, pads), k) == Axis(Up(conformer, pads, i), k)
    decreases |conformer|
  {
    var first := Up(conformer, pads, 0);
    if |conformer| == 1 {
      assert UpperCorner(conformer, pads) == first;
    } else {
      var others, otherPads := conformer[1..], pads[1..];
      UpperCornerAttained(others, otherPads, k);
      var rest := UpperCorner(others, otherPads);
      var i :| 0 <= i < |others| && Axis(rest, k) == Axis(Up(others, otherPads, i), k);
      if Axis(first, k) >= Axis(rest, k) {
        assert Axis(UpperCorner(conformer, pads), k) == Axis(first, k);
      } else {
        assert Up(others, otherPads, i) == Up(conformer, pads, i + 1);
        assert Axis(UpperCorner(conformer, pads), k) == Axis(rest, k);
      }
    }
  }

  /** With non-negative scaled radii the padded bounds are ordered: one atom
      alone already spans twice its scaled radius. */
  lemma {:induction false} CornersOrdered(conformer: seq<Vec3>, pads: seq<real>)
    requires |pads| == |conformer| > 0
    requires forall i :: 0 <= i < |pads| ==> pads[i] >= 0.0
    ensures Below(LowerCorner(conformer, pads), UpperCorner(conformer, pads))
  {
    assert pads[0] >= 0.0;
    assert Below(LowerCorner(conformer, pads), Down(conformer, pads, 0));
    assert Below(Up(conformer, pads, 0), UpperCorner(conformer, pads));
  }

  /** The count for a width b: odd, at least one point when b is not
      negative, and the n - 1 gaps of the grid reach at least across b. */
  lemma PointCountCovers(b: real, s: real)
    requires s > 0.0
    ensures PointCount(b, s) % 2 == 1
    ensures b >= 0.0 ==> PointCount(b, s) >= 1
    ensures (PointCount(b, s) - 1) as real * s >= b
  {
    var c := Ceil(b / s / 2.0);
    assert (PointCount(b, s) - 1) as real * s == 2.0 * s * c as real;
    HalvedQuotient(b, s, c as real);
  }

  lemma HalvedQuotient(b: real, s: real, c: real)
    requires s > 0.0 && c >= b / s / 2.0
    ensures 2.0 * s * c >= b
  {
    assert b / s / 2.0 * (2.0 * s) == b;
  }

  /** On each axis the n - 1 gaps of the layout reach at least from lo to hi. */
  predicate Spans(l: Layout, lo: Vec3, hi: Vec3) {
    && (l.nx - 1) as real * l.spacing >= hi.x - lo.x
    && (l.ny - 1) as real * l.spacing >= hi.y - lo.y
    && (l.nz - 1) as real * l.spacing >= hi.z - lo.z
  }

  /** The layout of ordered bounds has an odd count of at least one point on
      each axis, and on each axis its span (n - 1) * spacing is at least the
      width of the bounds. */
  lemma {:induction false} LayoutCovers(lower: Vec3, upper: Vec3, mean: Vec3, s: real)
    requires s > 0.0 && Below(lower, upper)
    ensures var l := LayoutOf(lower, upper, mean, s);
      WellFormed(l) && l.nx % 2 == 1 && l.ny % 2 == 1 && l.nz % 2 == 1
    ensures Spans(LayoutOf(lower, upper, mean, s), lower, upper)
  {
    PointCountCovers(upper.x - lower.x, s);
    PointCountCovers(upper.y - lower.y, s);
    PointCountCovers(upper.z - lower.z, s);
  }

  /** The centre point of the layout, (x, y, z) = ((nx - 1) / 2, (ny - 1) / 2,
      (nz - 1) / 2), is the mean position. */
  lemma {:induction false} LayoutCentre(lower: Vec3, upper: Vec3, mean: Vec3, s: real)
    requires s > 0.0
    ensures var l := LayoutOf(lower, upper, mean, s);
      Point(l, (l.nx - 1) / 2, (l.ny - 1) / 2, (l.nz - 1) / 2) == mean
  {
    var l := LayoutOf(lower, upper, mean, s);
    var cx, cy, cz := (l.nx - 1) / 2, (l.ny - 1) / 2, (l.nz - 1) / 2;
    assert l.nx == 2 * cx + 1 && l.ny == 2 * cy + 1 && l.nz == 2 * cz + 1;
    CentreOfLayout(l, mean, cx, cy, cz);
  }

  /** The point c spacings from the origin of 2c + 1 points laid out around m
      is m, on each axis. */
  lemma CentreOfLayout(l: Layout, m: Vec3, cx: int, cy: int, cz: int)
    requires l.nx == 2 * cx + 1 && l.ny == 2 * cy + 1 && l.nz == 2 * cz + 1
    requires l.origin == Vec3(Origin(m.x, l.nx, l.spacing), Origin(m.y, l.ny, l.spacing), Origin(m.z, l.nz, l.spacing))
    ensures Point(l, cx, cy, cz) == m
  {
  }

  /** The index formula is a bijection from the nx x ny x nz box onto
      [0, nx * ny * nz): every box point lands in range and decodes back to
      itself, and every index in range is the index of a box point. So each
      row of the zero-initialised array is written exactly once. */
  lemma {:induction false} GridIndexBijection(l: Layout)
    requires WellFormed(l)
    ensures forall x, y, z :: 0 <= x < l.nx && 0 <= y < l.ny && 0 <= z < l.nz ==>
      0 <= GridIndex(l, x, y, z) < l.nx * l.ny * l.nz &&
      Third(GridIndex(l, x, y, z), l.nz, l.ny) == x &&
      Second(GridIndex(l, x, y, z), l.nz, l.ny) == y &&
      First(GridIndex(l, x, y, z), l.nz) == z
    ensures forall i :: 0 <= i < l.nx * l.ny * l.nz ==>
      0 <= Third(i, l.nz, l.ny) < l.nx && 0 <= Second(i, l.nz, l.ny) < l.ny && 0 <= First(i, l.nz) < l.nz &&
      GridIndex(l, Third(i, l.nz, l.ny), Second(i, l.nz, l.ny), First(i, l.nz)) == i
  {
    forall x, y, z | 0 <= x < l.nx && 0 <= y < l.ny && 0 <= z < l.nz
      ensures 0 <= GridIndex(l, x, y, z) < l.nx * l.ny * l.nz
      ensures Third(GridIndex(l, x, y, z), l.nz, l.ny) == x
      ensures Second(GridIndex(l, x, y, z), l.nz, l.ny) == y
      ensures First(GridIndex(l, x, y, z), l.nz) == z
    {
      BoxBound(l, x, y, z);
      DecodeFlatten(z, y, x, l.nz, l.ny);
    }
    forall i | 0 <= i < l.nx * l.ny * l.nz
      ensures 0 <= Third(i, l.nz, l.ny) < l.nx && 0 <= Second(i, l.nz, l.ny) < l.ny && 0 <= First(i, l.nz) < l.nz
      ensures GridIndex(l, Third(i, l.nz, l.ny), Second(i, l.nz, l.ny), First(i, l.nz)) == i
    {
      FlattenDecode(i, l.nz, l.ny);
      ThirdBelow(i, l);
    }
  }

  lemma BoxBound(l: Layout, x: int, y: int, z: int)
    requires 0 <= x < l.nx && 0 <= y < l.ny && 0 <= z < l.nz
    ensures 0 <= GridIndex(l, x, y, z) < l.nx * l.ny * l.nz
  {
    FlattenInBox(z, y, x, l.nz, l.ny, l.nx);
    assert l.nz * l.ny * l.nx == l.nx * l.ny * l.nz;
  }

  lemma ThirdBelow(i: int, l: Layout)
    requires WellFormed(l) && 0 <= i < l.nx * l.ny * l.nz
    ensures Third(i, l.nz, l.ny) < l.nx
  {
    var p := l.nz * l.ny;
    var q := i / p;
    assert q * p <= i;
    if q >= l.nx {
      MulMonotone(l.nx, q, p);
      assert false;
    }
  }

  lemma MulMonotone(a: int, b: int, p: int)
    requires a <= b && p > 0
    ensures a * p <= b * p
  {
  }

  /** Every point of the grid, read through the flat index, is
      origin + (x, y, z) * spacing for its box position; the point at index 0
      is the origin returned. */
  lemma {:induction false} PointAtIndex(l: Layout, x: int, y: int, z: int)
    requires WellFormed(l) && 0 <= x < l.nx && 0 <= y < l.ny && 0 <= z < l.nz
    ensures PointAt(l, GridIndex(l, x, y, z)) == Point(l, x, y, z)
    ensures PointAt(l, 0) == l.origin
  {
    DecodeFlatten(z, y, x, l.nz, l.ny);
    DecodeFlatten(0, 0, 0, l.nz, l.ny);
  }

  /** One write of the innermost loop: the index is in range, the point
      written is the one the flat order assigns to it, and the next z has the
      next index. */
  lemma WriteStep(l: Layout, x: int, y: int, z: int)
    requires WellFormed(l) && 0 <= x < l.nx && 0 <= y < l.ny && 0 <= z < l.nz
    ensures 0 <= GridIndex(l, x, y, z) < l.nx * l.ny * l.nz
    ensures PointAt(l, GridIndex(l, x, y, z)) == Point(l, x, y, z)
    ensures GridIndex(l, x, y, z) + 1 == GridIndex(l, x, y, z + 1)
  {
    BoxBound(l, x, y, z);
    PointAtIndex(l, x, y, z);
  }

  /** Finishing a row of z moves to the start of the next y; finishing a
      plane of y moves to the start of the next x; the index after the last
      x is the number of points. */
  lemma Carry(l: Layout, x: int, y: int)
    ensures GridIndex(l, x, y, l.nz) == GridIndex(l, x, y + 1, 0)
    ensures GridIndex(l, x, l.ny, 0) == GridIndex(l, x + 1, 0, 0)
    ensures GridIndex(l, l.nx, 0, 0) == l.nx * l.ny * l.nz
  {
    assert (x + 1) * l.nz * l.ny == x * l.nz * l.ny + l.nz * l.ny;
    assert l.nx * l.nz * l.ny == l.nx * l.ny * l.nz;
  }

  /** The layout of a non-empty conformer with non-negative padding: an odd
      number of points on each axis, spanning at least the padded bounding
      box, with the centre point at the mean atom position. */
  lemma CubicLayoutShape(conformer: seq<Vec3>, radii: seq<real>, spacing: real, scale: real)
    requires |radii| == |conformer| > 0 && spacing > 0.0
    requires NonNegativePadding(radii, scale)
    ensures var l, pads := CubicLayout(conformer, radii, spacing, scale).value, Paddings(radii, scale);
      && WellFormed(l) && l.spacing == spacing
      && l.nx % 2 == 1 && l.ny % 2 == 1 && l.nz % 2 == 1
      && Spans(l, LowerCorner(conformer, pads), UpperCorner(conformer, pads))
      && Point(l, (l.nx - 1) / 2, (l.ny - 1) / 2, (l.nz - 1) / 2) == Centroid(conformer)
  {
    var pads := Paddings(radii, scale);
    CornersOrdered(conformer, pads);
    LayoutCovers(LowerCorner(conformer, pads), UpperCorner(conformer, pads), Centroid(conformer), spacing);
    LayoutCentre(LowerCorner(conformer, pads), UpperCorner(conformer, pads), Centroid(conformer), spacing);
  }

  /** Models generate_cubic_grid. None for an empty conformer; otherwise the
      layout of CubicLayout and the points FillGrid writes for it: an odd
      number of points on each axis, spanning at least the padded bounding
      box, with the centre point at the mean atom position. */
  method GenerateCubicGrid(conformer: seq<Vec3>, radii: seq<real>, spacing: real, radiiScale: real)
    returns (r: Option<Grid>)
    requires |radii| == |conformer| && spacing > 0.0
    requires NonNegativePadding(radii, radiiScale)
    ensures r.None? <==> |conformer| == 0
    ensures r.Some? ==> r.value.layout == CubicLayout(conformer, radii, spacing, radiiScale).value
    ensures r.Some? ==> WellFormed(r.value.layout)
    ensures r.Some? ==> |r.value.points| == r.value.layout.nx * r.value.layout.ny * r.value.layout.nz
    ensures r.Some? ==> forall i :: 0 <= i < |r.value.points| ==> r.value.points[i] == PointAt(r.value.layout, i)
    ensures r.Some? ==>
      var l, pads := r.value.layout, Paddings(radii, radiiScale);
      && l.spacing == spacing
      && l.nx % 2 == 1 && l.ny % 2 == 1 && l.nz % 2 == 1
      && Spans(l, LowerCorner(conformer, pads), UpperCorner(conformer, pads))
    ensures r.Some? ==>
      var l := r.value.layout;
      Point(l, (l.nx - 1) / 2, (l.ny - 1) / 2, (l.nz - 1) / 2) == Centroid(conformer)
  {
    var layout := CubicLayout(conformer, radii, spacing, radiiScale);
    if layout.None? {
      return None;
    }
    CubicLayoutShape(conformer, radii, spacing, radiiScale);
    var points := FillGrid(layout.value);
    return Some(Grid(points, layout.value));
  }

  /** The triple loop of generate_cubic_grid: a zero-initialised array of
      nx * ny * nz points, x outermost and z innermost, each point written at
      z + y * nz + x * nz * ny. Afterwards the point at index i is the one the
      z-fastest flat order assigns to i. */
  method FillGrid(l: Layout) returns (points: seq<Vec3>)
    requires WellFormed(l)
    ensures |points| == l.nx * l.ny * l.nz
    ensures forall i :: 0 <= i < |points| ==> points[i] == PointAt(l, i)
  {
    var nx, ny, nz := l.nx, l.ny, l.nz;
    var grid := new Vec3[nx * ny * nz](_ => Zero);
    for x := 0 to nx
      invariant forall i :: 0 <= i < grid.Length ==>
        grid[i] == if i < GridIndex(l, x, 0, 0) then PointAt(l, i) else Zero
    {
      for y := 0 to ny
        invariant forall i :: 0 <= i < grid.Length ==>
          grid[i] == if i < GridIndex(l, x, y, 0) then PointAt(l, i) else Zero
      {
        for z := 0 to nz
          invariant forall i :: 0 <= i < grid.Length ==>
            grid[i] == if i < GridIndex(l, x, y, z) then PointAt(l, i) else Zero
        {
          var point := Point(l, x, y, z);
          var index := z + y * nz + x * nz * ny;
          WriteStep(l, x, y, z);
          grid[index] := point;
        }
        Carry(l, x, y);
      }
      Carry(l, x, ny);
    }
    Carry(l, nx, 0);
    return grid[..];
  }
}
