/** Marching-cubes mesh extraction (cpp/march.cpp). Voxels of a
    dataWidth x dataHeight x dataDepth volume are addressed by one flat index,
    x fastest. Each cube of eight neighbouring voxels yields triangles whose
    corners are keyed by the ordered pair of voxel indices of the cube edge
    they sit on; shared keys are merged into one vertex at the edge midpoint. */
module March {
  import opened Vectors
  import Indexing
  import Smooth

  /** The pair of flat voxel indices at the ends of a cube edge, smaller first. */
  type EdgeVertexIndices = (int, int)

  datatype Triangle = Triangle(cornerA: EdgeVertexIndices, cornerB: EdgeVertexIndices, cornerC: EdgeVertexIndices)

  /** A cube corner's offset from the cube's lowest voxel. */
  datatype Offset = Offset(x: int, y: int, z: int)

  /** The constant tables of the marching-cubes lookup header, which is not
      part of this model: the two corners of each of the 12 cube edges, the
      offset of each of the 8 corners, and for each of the 256 cube
      configurations a -1-terminated list of edge triples. */
  datatype Tables = Tables(
    edgeConnection: seq<(int, int)>,
    vertexCoord: seq<Offset>,
    triangleConnectionTable: seq<seq<int>>)

  predicate UnitOffset(o: Offset) {
    0 <= o.x <= 1 && 0 <= o.y <= 1 && 0 <= o.z <= 1
  }

  /** Starting at position i, a row lists whole triples of edge ids and then -1. */
  predicate ValidRowFrom(row: seq<int>, i: nat)
    decreases |row| - i
  {
    i < |row| &&
    (row[i] == -1 ||
     (i + 3 < |row| && 0 <= row[i] < 12 && 0 <= row[i + 1] < 12 && 0 <= row[i + 2] < 12 &&
      ValidRowFrom(row, i + 3)))
  }

  predicate ValidTables(t: Tables) {
    && |t.edgeConnection| == 12
    && (forall e :: 0 <= e < 12 ==>
          0 <= t.edgeConnection[e].0 < 8 && 0 <= t.edgeConnection[e].1 < 8
          && t.edgeConnection[e].0 != t.edgeConnection[e].1)
    && |t.vertexCoord| == 8
    && (forall k :: 0 <= k < 8 ==> UnitOffset(t.vertexCoord[k]))
    && |t.triangleConnectionTable| == 256
    && (forall c :: 0 <= c < 256 ==> ValidRowFrom(t.triangleConnectionTable[c], 0))
  }

  function Convert3DIndexTo1D(x: int, y: int, z: int, dataWidth: int, dataHeight: int): int {
    Indexing.Flatten(x, y, z, dataWidth, dataHeight)
  }

  /** The decoding used by edgeVertexIndicesToCoordinates, as a lattice point. */
  function VoxelPosition(index: int, dataWidth: int, dataHeight: int): Offset
    requires dataWidth > 0 && dataHeight > 0
  {
    Offset(Indexing.First(index, dataWidth), Indexing.Second(index, dataWidth, dataHeight),
           Indexing.Third(index, dataWidth, dataHeight))
  }

  /** Decoding an in-volume voxel's flat index gives back its coordinates
      (and every non-negative index is the flat index of its decoding). */
  lemma VoxelIndexRoundTrip(x: int, y: int, z: int, dataWidth: int, dataHeight: int)
    requires 0 <= x < dataWidth && 0 <= y < dataHeight && 0 <= z
    ensures VoxelPosition(Convert3DIndexTo1D(x, y, z, dataWidth, dataHeight), dataWidth, dataHeight) == Offset(x, y, z)
  {
    Indexing.DecodeFlatten(x, y, z, dataWidth, dataHeight);
  }

  lemma VoxelPositionRoundTrip(index: int, dataWidth: int, dataHeight: int)
    requires 0 <= index && dataWidth > 0 && dataHeight > 0
    ensures var p := VoxelPosition(index, dataWidth, dataHeight);
      0 <= p.x < dataWidth && 0 <= p.y < dataHeight && 0 <= p.z
      && Convert3DIndexTo1D(p.x, p.y, p.z, dataWidth, dataHeight) == index
  {
    Indexing.FlattenDecode(index, dataWidth, dataHeight);
  }

  /** Flat index of corner k of the cube whose lowest voxel is (cubeX, cubeY, cubeZ). */
  function CornerIndex(t: Tables, k: int, cubeX: int, cubeY: int, cubeZ: int, dataWidth: int, dataHeight: int): int
    requires ValidTables(t) && 0 <= k < 8
  {
    var o := t.vertexCoord[k];
    Convert3DIndexTo1D(cubeX + o.x, cubeY + o.y, cubeZ + o.z, dataWidth, dataHeight)
  }

  /** Models cubeEdgeToEdgeVertexIndices: the key of an edge is the pair of its
      two corners' voxel indices, smaller first, so that the same edge reached
      from any cube gives the same key. */
  function CubeEdgeToEdgeVertexIndices(t: Tables, edgeIndex: int, cubeX: int, cubeY: int, cubeZ: int,
                                       dataWidth: int, dataHeight: int): (r: EdgeVertexIndices)
    requires ValidTables(t) && 0 <= edgeIndex < 12
  {
    var (cubeIndexA, cubeIndexB) := t.edgeConnection[edgeIndex];
    var indexA := CornerIndex(t, cubeIndexA, cubeX, cubeY, cubeZ, dataWidth, dataHeight);
    var indexB := CornerIndex(t, cubeIndexB, cubeX, cubeY, cubeZ, dataWidth, dataHeight);
    if indexA < indexB then (indexA, indexB) else (indexB, indexA)
  }

  /** An edge key is the ordered pair of the edge's two corner indices. */
  lemma EdgeKeyIsCornerPair(t: Tables, edgeIndex: int, cubeX: int, cubeY: int, cubeZ: int,
                            dataWidth: int, dataHeight: int)
    requires ValidTables(t) && 0 <= edgeIndex < 12
    ensures var r := CubeEdgeToEdgeVertexIndices(t, edgeIndex, cubeX, cubeY, cubeZ, dataWidth, dataHeight);
      r.0 <= r.1
      && {r.0, r.1} == {CornerIndex(t, t.edgeConnection[edgeIndex].0, cubeX, cubeY, cubeZ, dataWidth, dataHeight),
                        CornerIndex(t, t.edgeConnection[edgeIndex].1, cubeX, cubeY, cubeZ, dataWidth, dataHeight)}
  {
  }

  /** Two cube edges get the same key exactly when they join the same two voxels. */
  lemma EdgeKeyCanonical(t: Tables, e1: int, x1: int, y1: int, z1: int, e2: int, x2: int, y2: int, z2: int,
                         dataWidth: int, dataHeight: int)
    requires ValidTables(t) && 0 <= e1 < 12 && 0 <= e2 < 12
    ensures (CubeEdgeToEdgeVertexIndices(t, e1, x1, y1, z1, dataWidth, dataHeight)
               == CubeEdgeToEdgeVertexIndices(t, e2, x2, y2, z2, dataWidth, dataHeight))
        <==> ({CornerIndex(t, t.edgeConnection[e1].0, x1, y1, z1, dataWidth, dataHeight),
               CornerIndex(t, t.edgeConnection[e1].1, x1, y1, z1, dataWidth, dataHeight)}
                == {CornerIndex(t, t.edgeConnection[e2].0, x2, y2, z2, dataWidth, dataHeight),
                    CornerIndex(t, t.edgeConnection[e2].1, x2, y2, z2, dataWidth, dataHeight)})
  {
    var k1 := CubeEdgeToEdgeVertexIndices(t, e1, x1, y1, z1, dataWidth, dataHeight);
    var k2 := CubeEdgeToEdgeVertexIndices(t, e2, x2, y2, z2, dataWidth, dataHeight);
    EdgeKeyIsCornerPair(t, e1, x1, y1, z1, dataWidth, dataHeight);
    EdgeKeyIsCornerPair(t, e2, x2, y2, z2, dataWidth, dataHeight);
    OrderedPairOfSet(k1.0, k1.1, k2.0, k2.1);
  }

  /** An ordered pair is determined by the set of its two members. */
  lemma OrderedPairOfSet(a: int, b: int, c: int, d: int)
    requires a <= b && c <= d
    ensures (a, b) == (c, d) <==> {a, b} == {c, d}
  {
    if {a, b} == {c, d} {
      assert a in {c, d} && b in {c, d} && c in {a, b} && d in {a, b};
    }
  }

  /** Models edgeVertexIndicesToCoordinates: the mean of the two decoded voxel
      positions. */
  function EdgeVertexIndicesToCoordinates(index: EdgeVertexIndices, dataWidth: int, dataHeight: int): Vec3
    requires dataWidth > 0 && dataHeight > 0
  {
    var (indexA, indexB) := index;
    var pA := VoxelPosition(indexA, dataWidth, dataHeight);
    var pB := VoxelPosition(indexB, dataWidth, dataHeight);
    Vec3(0.5 * ((pA.x + pB.x) as real), 0.5 * ((pA.y + pB.y) as real), 0.5 * ((pA.z + pB.z) as real))
  }

  function AsPoint(o: Offset): Vec3 {
    Vec3(o.x as real, o.y as real, o.z as real)
  }

  /** The vertex created for an edge of an in-volume cube lies at the midpoint
      of the edge's two corners: twice its coordinates is their sum. */
  lemma EdgeVertexIsMidpoint(t: Tables, edgeIndex: int, cubeX: int, cubeY: int, cubeZ: int,
                             dataWidth: int, dataHeight: int)
    requires ValidTables(t) && 0 <= edgeIndex < 12
    requires 0 <= cubeX < dataWidth - 1 && 0 <= cubeY < dataHeight - 1 && 0 <= cubeZ
    ensures var oA := t.vertexCoord[t.edgeConnection[edgeIndex].0];
            var oB := t.vertexCoord[t.edgeConnection[edgeIndex].1];
            var cube := Offset(cubeX, cubeY, cubeZ);
      Scale(2.0, EdgeVertexIndicesToCoordinates(CubeEdgeToEdgeVertexIndices(t, edgeIndex, cubeX, cubeY, cubeZ, dataWidth, dataHeight), dataWidth, dataHeight))
        == Add(Add(AsPoint(cube), AsPoint(oA)), Add(AsPoint(cube), AsPoint(oB)))
  {
    var (a, b) := t.edgeConnection[edgeIndex];
    var oA, oB := t.vertexCoord[a], t.vertexCoord[b];
    assert UnitOffset(oA) && UnitOffset(oB);
    VoxelIndexRoundTrip(cubeX + oA.x, cubeY + oA.y, cubeZ + oA.z, dataWidth, dataHeight);
    VoxelIndexRoundTrip(cubeX + oB.x, cubeY + oB.y, cubeZ + oB.z, dataWidth, dataHeight);
  }

  /** Flat indices of the eight corners marchSingle reads, in its order. */
  function CornerReads(x: int, y: int, z: int, dataWidth: int, dataHeight: int): seq<int> {
    [Convert3DIndexTo1D(x, y, z, dataWidth, dataHeight),
     Convert3DIndexTo1D(x + 1, y, z, dataWidth, dataHeight),
     Convert3DIndexTo1D(x + 1, y + 1, z, dataWidth, dataHeight),
     Convert3DIndexTo1D(x, y + 1, z, dataWidth, dataHeight),
     Convert3DIndexTo1D(x, y, z + 1, dataWidth, dataHeight),
     Convert3DIndexTo1D(x + 1, y, z + 1, dataWidth, dataHeight),
     Convert3DIndexTo1D(x + 1, y + 1, z + 1, dataWidth, dataHeight),
     Convert3DIndexTo1D(x, y + 1, z + 1, dataWidth, dataHeight)]
  }

  /** Past the early return of marchSingle every corner read lies inside the volume. */
  lemma CornerReadsInVolume(x: nat, y: nat, z: nat, dataWidth: nat, dataHeight: nat, dataDepth: nat)
    requires x < dataWidth - 1 && y < dataHeight - 1 && z < dataDepth - 1
    ensures forall k :: 0 <= k < 8 ==> 0 <= CornerReads(x, y, z, dataWidth, dataHeight)[k] < dataWidth * dataHeight * dataDepth
  {
    Indexing.FlattenInBox(x, y, z, dataWidth, dataHeight, dataDepth);
    Indexing.FlattenInBox(x + 1, y, z, dataWidth, dataHeight, dataDepth);
    Indexing.FlattenInBox(x + 1, y + 1, z, dataWidth, dataHeight, dataDepth);
    Indexing.FlattenInBox(x, y + 1, z, dataWidth, dataHeight, dataDepth);
    Indexing.FlattenInBox(x, y, z + 1, dataWidth, dataHeight, dataDepth);
    Indexing.FlattenInBox(x + 1, y, z + 1, dataWidth, dataHeight, dataDepth);
    Indexing.FlattenInBox(x + 1, y + 1, z + 1, dataWidth, dataHeight, dataDepth);
    Indexing.FlattenInBox(x, y + 1, z + 1, dataWidth, dataHeight, dataDepth);
  }

  function CornerValues(data: seq<real>, x: nat, y: nat, z: nat, dataWidth: nat, dataHeight: nat, dataDepth: nat): (v: seq<real>)
    requires |data| == dataWidth * dataHeight * dataDepth
    requires x < dataWidth - 1 && y < dataHeight - 1 && z < dataDepth - 1
    ensures |v| == 8
  {
    CornerReadsInVolume(x, y, z, dataWidth, dataHeight, dataDepth);
    var r := CornerReads(x, y, z, dataWidth, dataHeight);
    [data[r[0]], data[r[1]], data[r[2]], data[r[3]], data[r[4]], data[r[5]], data[r[6]], data[r[7]]]
  }

  function CornerBit(k: nat): bv8
    requires k < 8
  {
    (1 as bv8) << k
  }

  /** The cube configuration: bit k is set exactly when corner k lies below
      the iso level. */
  function CubeIndex(cornerValues: seq<real>, isoLevel: real): bv8
    requires |cornerValues| == 8
  {
    (if cornerValues[0] < isoLevel then 1 else 0) |
    (if cornerValues[1] < isoLevel then 2 else 0) |
    (if cornerValues[2] < isoLevel then 4 else 0) |
    (if cornerValues[3] < isoLevel then 8 else 0) |
    (if cornerValues[4] < isoLevel then 16 else 0) |
    (if cornerValues[5] < isoLevel then 32 else 0) |
    (if cornerValues[6] < isoLevel then 64 else 0) |
    (if cornerValues[7] < isoLevel then 128 else 0)
  }

  /** Bit k of the configuration is set exactly when corner k lies below the iso level. */
  lemma CubeIndexBits(cornerValues: seq<real>, isoLevel: real)
    requires |cornerValues| == 8
    ensures forall k :: 0 <= k < 8 ==>
      (CubeIndex(cornerValues, isoLevel) & CornerBit(k) != 0 <==> cornerValues[k] < isoLevel)
  {
  }

  /** The configuration loop of marchSingle: one bit or-ed in per corner below the iso level. */
  method ComputeCubeIndex(cornerValues: seq<real>, isoLevel: real) returns (cubeIndex: bv8)
    requires |cornerValues| == 8
    ensures cubeIndex == CubeIndex(cornerValues, isoLevel)
  {
    cubeIndex := 0;
    if cornerValues[0] < isoLevel { cubeIndex := cubeIndex | 1; }
    if cornerValues[1] < isoLevel { cubeIndex := cubeIndex | 2; }
    if cornerValues[2] < isoLevel { cubeIndex := cubeIndex | 4; }
    if cornerValues[3] < isoLevel { cubeIndex := cubeIndex | 8; }
    if cornerValues[4] < isoLevel { cubeIndex := cubeIndex | 16; }
    if cornerValues[5] < isoLevel { cubeIndex := cubeIndex | 32; }
    if cornerValues[6] < isoLevel { cubeIndex := cubeIndex | 64; }
    if cornerValues[7] < isoLevel { cubeIndex := cubeIndex | 128; }
  }

  /** The triangles a row of the connection table lists from position i on. */
  function RowTriangles(t: Tables, row: seq<int>, i: nat, x: int, y: int, z: int,
                        dataWidth: int, dataHeight: int): seq<Triangle>
    requires ValidTables(t) && ValidRowFrom(row, i)
    decreases |row| - i
  {
    if row[i] == -1 then []
    else
      [Triangle(CubeEdgeToEdgeVertexIndices(t, row[i], x, y, z, dataWidth, dataHeight),
                CubeEdgeToEdgeVertexIndices(t, row[i + 1], x, y, z, dataWidth, dataHeight),
                CubeEdgeToEdgeVertexIndices(t, row[i + 2], x, y, z, dataWidth, dataHeight))]
      + RowTriangles(t, row, i + 3, x, y, z, dataWidth, dataHeight)
  }

  /** The triangles of the cube at (x, y, z): none for a cube that would reach
      past the volume, else those the configuration's row lists. */
  function CubeTriangles(t: Tables, data: seq<real>, x: nat, y: nat, z: nat,
                         dataWidth: nat, dataHeight: nat, dataDepth: nat, isoLevel: real): seq<Triangle>
    requires ValidTables(t) && |data| == dataWidth * dataHeight * dataDepth
  {
    if x >= dataWidth - 1 || y >= dataHeight - 1 || z >= dataDepth - 1 then []
    else
      var cubeIndex := CubeIndex(CornerValues(data, x, y, z, dataWidth, dataHeight, dataDepth), isoLevel);
      RowTriangles(t, t.triangleConnectionTable[cubeIndex as int], 0, x, y, z, dataWidth, dataHeight)
  }

  /** Models marchSingle: the early return, the eight corner reads, the
      configuration built by or-ing one bit per corner below the iso level,
      and the walk of the configuration's row three edges at a time. */
  method MarchSingle(x: nat, y: nat, z: nat, data: seq<real>, dataWidth: nat, dataHeight: nat, dataDepth: nat,
                     isoLevel: real, t: Tables) returns (triangles: seq<Triangle>)
    requires ValidTables(t) && |data| == dataWidth * dataHeight * dataDepth
    ensures triangles == CubeTriangles(t, data, x, y, z, dataWidth, dataHeight, dataDepth, isoLevel)
    ensures x >= dataWidth - 1 || y >= dataHeight - 1 || z >= dataDepth - 1 ==> triangles == []
  {
    if x >= dataWidth - 1 || y >= dataHeight - 1 || z >= dataDepth - 1 {
      return [];
    }
    var cornerValues := CornerValues(data, x, y, z, dataWidth, dataHeight, dataDepth);

    var cubeIndex := ComputeCubeIndex(cornerValues, isoLevel);

    var row := t.triangleConnectionTable[cubeIndex as int];
    triangles := [];
    var i := 0;
    while row[i] != -1
      invariant ValidRowFrom(row, i)
      invariant triangles + RowTriangles(t, row, i, x, y, z, dataWidth, dataHeight)
        == RowTriangles(t, row, 0, x, y, z, dataWidth, dataHeight)
      decreases |row| - i
    {
      var edgeIndexA := row[i];
      var edgeIndexB := row[i + 1];
      var edgeIndexC := row[i + 2];
      var indexA := CubeEdgeToEdgeVertexIndices(t, edgeIndexA, x, y, z, dataWidth, dataHeight);
      var indexB := CubeEdgeToEdgeVertexIndices(t, edgeIndexB, x, y, z, dataWidth, dataHeight);
      var indexC := CubeEdgeToEdgeVertexIndices(t, edgeIndexC, x, y, z, dataWidth, dataHeight);
      triangles := triangles + [Triangle(indexA, indexB, indexC)];
      i := i + 3;
    }
  }

  /** The walk over the volume's cubes in z, y, x order, x fastest, starting
      at cube (x, y, z) with the triangles acc found so far: each cube's
      triangles are appended in turn. */
  function Walk(t: Tables, data: seq<real>, dataWidth: nat, dataHeight: nat, dataDepth: nat, isoLevel: real,
                acc: seq<Triangle>, x: nat, y: nat, z: nat): seq<Triangle>
    requires ValidTables(t) && |data| == dataWidth * dataHeight * dataDepth
    decreases dataDepth - z, dataHeight - y, dataWidth - x
  {
    if z >= dataDepth - 1 then acc
    else if y >= dataHeight - 1 then Walk(t, data, dataWidth, dataHeight, dataDepth, isoLevel, acc, 0, 0, z + 1)
    else if x >= dataWidth - 1 then Walk(t, data, dataWidth, dataHeight, dataDepth, isoLevel, acc, 0, y + 1, z)
    else Walk(t, data, dataWidth, dataHeight, dataDepth, isoLevel,
              acc + CubeTriangles(t, data, x, y, z, dataWidth, dataHeight, dataDepth, isoLevel), x + 1, y, z)
  }

  /** All triangles of the volume, cube by cube. */
  function MarchedTriangles(t: Tables, data: seq<real>, dataWidth: nat, dataHeight: nat, dataDepth: nat,
                            isoLevel: real): seq<Triangle>
    requires ValidTables(t) && |data| == dataWidth * dataHeight * dataDepth
  {
    Walk(t, data, dataWidth, dataHeight, dataDepth, isoLevel, [], 0, 0, 0)
  }

  /** A volume with fewer than two samples along some axis has no cube, so the
      walk adds nothing. */
  lemma {:induction false} FlatWalkAddsNothing(t: Tables, data: seq<real>, dataWidth: nat, dataHeight: nat,
                                               dataDepth: nat, isoLevel: real, acc: seq<Triangle>,
                                               x: nat, y: nat, z: nat)
    requires ValidTables(t) && |data| == dataWidth * dataHeight * dataDepth
    requires dataWidth < 2 || dataHeight < 2 || dataDepth < 2
    ensures Walk(t, data, dataWidth, dataHeight, dataDepth, isoLevel, acc, x, y, z) == acc
    decreases dataDepth - z, dataHeight - y, dataWidth - x
  {
    if z >= dataDepth - 1 {
    } else if y >= dataHeight - 1 {
      FlatWalkAddsNothing(t, data, dataWidth, dataHeight, dataDepth, isoLevel, acc, 0, 0, z + 1);
    } else {
      FlatWalkAddsNothing(t, data, dataWidth, dataHeight, dataDepth, isoLevel, acc, 0, y + 1, z);
    }
  }

  lemma FlatVolumeHasNoTriangles(t: Tables, data: seq<real>, dataWidth: nat, dataHeight: nat, dataDepth: nat,
                                 isoLevel: real)
    requires ValidTables(t) && |data| == dataWidth * dataHeight * dataDepth
    requires dataWidth < 2 || dataHeight < 2 || dataDepth < 2
    ensures MarchedTriangles(t, data, dataWidth, dataHeight, dataDepth, isoLevel) == []
  {
    FlatWalkAddsNothing(t, data, dataWidth, dataHeight, dataDepth, isoLevel, [], 0, 0, 0);
  }

  /** The corner keys of a triangle list, three per triangle, in order. */
  function Corners(triangles: seq<Triangle>): (r: seq<EdgeVertexIndices>)
    ensures |r| == 3 * |triangles|
  {
    if triangles == [] then []
    else
      var last := triangles[|triangles| - 1];
      Corners(triangles[..|triangles| - 1]) + [last.cornerA, last.cornerB, last.cornerC]
  }

  /** Entry 3t + p of the corner list is corner p of triangle t. */
  lemma {:induction false} CornersAt(triangles: seq<Triangle>, t: nat)
    requires t < |triangles|
    ensures Corners(triangles)[3 * t] == triangles[t].cornerA
    ensures Corners(triangles)[3 * t + 1] == triangles[t].cornerB
    ensures Corners(triangles)[3 * t + 2] == triangles[t].cornerC
  {
    if t < |triangles| - 1 {
      var front := triangles[..|triangles| - 1];
      CornersAt(front, t);
      assert front[t] == triangles[t];
    }
  }

  /** The distinct members of s, each where it first appears. */
  function FirstAppearance<K(==)>(s: seq<K>): seq<K> {
    if s == [] then []
    else
      var before := FirstAppearance(s[..|s| - 1]);
      if s[|s| - 1] in before then before else before + [s[|s| - 1]]
  }

  predicate NoDuplicates<K(==)>(s: seq<K>) {
    forall i, j :: 0 <= i < j < |s| ==> s[i] != s[j]
  }

  /** First-appearance order keeps exactly the members of s, each once. */
  lemma {:induction false} FirstAppearanceSpec<K>(s: seq<K>)
    ensures forall x :: x in FirstAppearance(s) ==> x in s
    ensures forall x :: x in s ==> x in FirstAppearance(s)
    ensures NoDuplicates(FirstAppearance(s))
  {
    if s != [] {
      var front := s[..|s| - 1];
      FirstAppearanceSpec(front);
      assert s == front + [s[|s| - 1]];
    }
  }

  /** Index of the first occurrence of x in s. */
  function FirstIndex<K(==)>(s: seq<K>, x: K): (i: nat)
    requires x in s
    ensures i < |s| && s[i] == x && x !in s[..i]
  {
    if s[0] == x then 0 else 1 + FirstIndex(s[1..], x)
  }

  lemma {:induction false} FirstIndexExtend<K>(s: seq<K>, x: K, y: K)
    requires y in s
    ensures FirstIndex(s + [x], y) == FirstIndex(s, y)
  {
    if s[0] != y {
      assert (s + [x])[1..] == s[1..] + [x];
      FirstIndexExtend(s[1..], x, y);
    }
  }

  /** Keys are listed in the order of their first occurrence in s. */
  lemma {:induction false} FirstAppearanceOrder<K>(s: seq<K>, i: nat, j: nat)
    requires i < j < |FirstAppearance(s)|
    ensures FirstAppearance(s)[i] in s && FirstAppearance(s)[j] in s
    ensures FirstIndex(s, FirstAppearance(s)[i]) < FirstIndex(s, FirstAppearance(s)[j])
  {
    FirstAppearanceSpec(s);
    var front := s[..|s| - 1];
    var x := s[|s| - 1];
    var before := FirstAppearance(front);
    FirstAppearanceSpec(front);
    assert s == front + [x];
    if j < |before| {
      FirstAppearanceOrder(front, i, j);
      FirstIndexExtend(front, x, before[i]);
      FirstIndexExtend(front, x, before[j]);
    } else {
      assert FirstAppearance(s) == before + [x] && x !in front;
      assert before[i] in before;
      FirstIndexExtend(front, x, before[i]);
    }
  }

  /** The input keys of every mesh vertex, in creation order. */
  function VertexKeys(triangles: seq<Triangle>): (r: seq<EdgeVertexIndices>)
    ensures triangles == [] ==> r == []
  {
    FirstAppearance(Corners(triangles))
  }

  /** Unsmoothed vertex positions for a list of keys. */
  function VertexPositions(keys: seq<EdgeVertexIndices>, dataWidth: int, dataHeight: int): (r: seq<Vec3>)
    requires keys == [] || (dataWidth > 0 && dataHeight > 0)
    ensures |r| == |keys|
  {
    seq(|keys|, i requires 0 <= i < |keys| && dataWidth > 0 && dataHeight > 0 =>
      EdgeVertexIndicesToCoordinates(keys[i], dataWidth, dataHeight))
  }

  /** The vertex bookkeeping of the de-duplication loop: each created key maps
      to its slot, and each slot holds its key's coordinates. */
  ghost predicate VertexTable(vertexMap: map<EdgeVertexIndices, int>, vertices: seq<Vec3>,
                              keys: seq<EdgeVertexIndices>, dataWidth: int, dataHeight: int)
  {
    && (keys == [] || (dataWidth > 0 && dataHeight > 0))
    && vertices == VertexPositions(keys, dataWidth, dataHeight)
    && (forall k :: k in vertexMap <==> k in keys)
    && (forall k :: k in vertexMap ==> 0 <= vertexMap[k] < |keys| && keys[vertexMap[k]] == k)
  }

  /** One lookup-or-create step keeps the bookkeeping, with the key list
      extended in first-appearance order. */
  lemma AddKeyKeepsTable(vertexMap: map<EdgeVertexIndices, int>, vertices: seq<Vec3>,
                         keys: seq<EdgeVertexIndices>, key: EdgeVertexIndices, dataWidth: int, dataHeight: int)
    requires VertexTable(vertexMap, vertices, keys, dataWidth, dataHeight)
    requires dataWidth > 0 && dataHeight > 0 && key !in vertexMap
    ensures VertexTable(vertexMap[key := |vertices|],
                        vertices + [EdgeVertexIndicesToCoordinates(key, dataWidth, dataHeight)],
                        keys + [key], dataWidth, dataHeight)
  {
    var keys' := keys + [key];
    forall i | 0 <= i < |keys'|
      ensures (vertices + [EdgeVertexIndicesToCoordinates(key, dataWidth, dataHeight)])[i]
        == VertexPositions(keys', dataWidth, dataHeight)[i]
    {
      if i < |keys| {
        assert VertexPositions(keys', dataWidth, dataHeight)[i] == VertexPositions(keys, dataWidth, dataHeight)[i];
      }
    }
    assert vertices + [EdgeVertexIndicesToCoordinates(key, dataWidth, dataHeight)]
      == VertexPositions(keys', dataWidth, dataHeight);
  }

  /** Every slot of a table built from the corner keys is used by some corner. */
  lemma EveryKeyUsed(keys: seq<EdgeVertexIndices>, corners: seq<EdgeVertexIndices>, indices: seq<int>)
    requires keys == FirstAppearance(corners) && |indices| == |corners|
    requires forall k :: 0 <= k < |indices| ==> 0 <= indices[k] < |keys| && keys[indices[k]] == corners[k]
    ensures Smooth.EveryVertexUsed(|keys|, indices)
  {
    FirstAppearanceSpec(corners);
    forall a | 0 <= a < |keys|
      ensures a in indices
    {
      assert keys[a] in corners;
      var k :| 0 <= k < |corners| && corners[k] == keys[a];
      assert keys[indices[k]] == keys[a];
      assert indices[k] == a;
    }
  }

  /** The triple loop of march: every cube of the volume in z, y, x order,
      its triangles appended in turn. */
  method MarchCubes(data: seq<real>, dataWidth: nat, dataHeight: nat, dataDepth: nat, isoLevel: real, t: Tables)
    returns (triangles: seq<Triangle>)
    requires ValidTables(t) && |data| == dataWidth * dataHeight * dataDepth
    ensures triangles == MarchedTriangles(t, data, dataWidth, dataHeight, dataDepth, isoLevel)
  {
    triangles := [];
    var z := 0;
    while z < dataDepth - 1
      invariant Walk(t, data, dataWidth, dataHeight, dataDepth, isoLevel, triangles, 0, 0, z)
        == MarchedTriangles(t, data, dataWidth, dataHeight, dataDepth, isoLevel)
    {
      var y := 0;
      while y < dataHeight - 1
        invariant Walk(t, data, dataWidth, dataHeight, dataDepth, isoLevel, triangles, 0, y, z)
          == MarchedTriangles(t, data, dataWidth, dataHeight, dataDepth, isoLevel)
      {
        var x := 0;
        while x < dataWidth - 1
          invariant Walk(t, data, dataWidth, dataHeight, dataDepth, isoLevel, triangles, x, y, z)
            == MarchedTriangles(t, data, dataWidth, dataHeight, dataDepth, isoLevel)
        {
          var cubeTriangles := MarchSingle(x, y, z, data, dataWidth, dataHeight, dataDepth, isoLevel, t);
          triangles := triangles + cubeTriangles;
          x := x + 1;
        }
        y := y + 1;
      }
      z := z + 1;
    }
  }

  /** One lookup-or-create step of the de-duplication loop: a key seen for the
      first time gets the next vertex slot and its edge-midpoint position;
      afterwards the key is in the map. s is the corner list seen so far. */
  method FindOrAddVertex(vertexMap: map<EdgeVertexIndices, int>, vertices: seq<Vec3>, key: EdgeVertexIndices,
                         dataWidth: int, dataHeight: int, ghost s: seq<EdgeVertexIndices>)
    returns (vertexMap': map<EdgeVertexIndices, int>, vertices': seq<Vec3>)
    requires dataWidth > 0 && dataHeight > 0
    requires VertexTable(vertexMap, vertices, FirstAppearance(s), dataWidth, dataHeight)
    ensures VertexTable(vertexMap', vertices', FirstAppearance(s + [key]), dataWidth, dataHeight)
    ensures key in vertexMap' && vertexMap.Keys <= vertexMap'.Keys
  {
    assert (s + [key])[..|s|] == s;
    if key !in vertexMap {
      AddKeyKeepsTable(vertexMap, vertices, FirstAppearance(s), key, dataWidth, dataHeight);
      vertexMap' := vertexMap[key := |vertices|];
      vertices' := vertices + [EdgeVertexIndicesToCoordinates(key, dataWidth, dataHeight)];
    } else {
      vertexMap', vertices' := vertexMap, vertices;
    }
  }

  /** indices[k] names the slot of keys that holds corners[k]. */
  predicate Indexes(keys: seq<EdgeVertexIndices>, corners: seq<EdgeVertexIndices>, indices: seq<int>) {
    |indices| == |corners| &&
    forall k :: 0 <= k < |indices| ==> 0 <= indices[k] < |keys| && keys[indices[k]] == corners[k]
  }

  /** Indices into a key list stay valid when the list grows at its end. */
  lemma IndexesExtend(keys: seq<EdgeVertexIndices>, corners: seq<EdgeVertexIndices>, indices: seq<int>,
                      keys': seq<EdgeVertexIndices>, more: seq<EdgeVertexIndices>, moreIndices: seq<int>)
    requires Indexes(keys, corners, indices) && keys <= keys' && Indexes(keys', more, moreIndices)
    ensures Indexes(keys', corners + more, indices + moreIndices)
  {
    forall k | 0 <= k < |indices + moreIndices|
      ensures 0 <= (indices + moreIndices)[k] < |keys'| && keys'[(indices + moreIndices)[k]] == (corners + more)[k]
    {
      if k < |indices| {
        assert keys'[indices[k]] == keys[indices[k]];
      } else {
        assert (indices + moreIndices)[k] == moreIndices[k - |indices|];
      }
    }
  }

  lemma CornersStep(triangles: seq<Triangle>, ti: nat)
    requires ti < |triangles|
    ensures Corners(triangles[..ti + 1])
      == Corners(triangles[..ti]) + [triangles[ti].cornerA, triangles[ti].cornerB, triangles[ti].cornerC]
  {
    assert triangles[..ti + 1][..ti] == triangles[..ti];
  }

  /** Appending to a sequence only appends to its first-appearance list. */
  lemma {:induction false} FirstAppearancePrefix<K>(s: seq<K>, more: seq<K>)
    ensures FirstAppearance(s) <= FirstAppearance(s + more)
    decreases |more|
  {
    if more != [] {
      var front := more[..|more| - 1];
      FirstAppearancePrefix(s, front);
      assert (s + more)[..|s + more| - 1] == s + front;
    } else {
      assert s + more == s;
    }
  }

  /** The body of the de-duplication loop for one triangle: its three corner
      keys looked up or created in turn, then their three slots. */
  method IndexTriangle(vertexMap: map<EdgeVertexIndices, int>, vertices: seq<Vec3>, triangle: Triangle,
                       dataWidth: int, dataHeight: int, ghost corners: seq<EdgeVertexIndices>)
    returns (vertexMap': map<EdgeVertexIndices, int>, vertices': seq<Vec3>, triangleIndices: seq<int>)
    requires dataWidth > 0 && dataHeight > 0
    requires VertexTable(vertexMap, vertices, FirstAppearance(corners), dataWidth, dataHeight)
    ensures var corners' := corners + [triangle.cornerA, triangle.cornerB, triangle.cornerC];
      && VertexTable(vertexMap', vertices', FirstAppearance(corners'), dataWidth, dataHeight)
      && Indexes(FirstAppearance(corners'), [triangle.cornerA, triangle.cornerB, triangle.cornerC], triangleIndices)
  {
    ghost var cornersA := corners + [triangle.cornerA];
    ghost var cornersAB := cornersA + [triangle.cornerB];
    vertexMap', vertices' := FindOrAddVertex(vertexMap, vertices, triangle.cornerA, dataWidth, dataHeight, corners);
    vertexMap', vertices' := FindOrAddVertex(vertexMap', vertices', triangle.cornerB, dataWidth, dataHeight, cornersA);
    vertexMap', vertices' := FindOrAddVertex(vertexMap', vertices', triangle.cornerC, dataWidth, dataHeight, cornersAB);
    ghost var keys := FirstAppearance(cornersAB + [triangle.cornerC]);
    assert keys[vertexMap'[triangle.cornerA]] == triangle.cornerA;
    assert keys[vertexMap'[triangle.cornerB]] == triangle.cornerB;
    assert keys[vertexMap'[triangle.cornerC]] == triangle.cornerC;
    triangleIndices := [vertexMap'[triangle.cornerA], vertexMap'[triangle.cornerB], vertexMap'[triangle.cornerC]];
    IndexesOfTriple(keys, triangle.cornerA, triangle.cornerB, triangle.cornerC, triangleIndices);
    AppendThree(corners, triangle.cornerA, triangle.cornerB, triangle.cornerC);
  }

  lemma IndexesOfTriple(keys: seq<EdgeVertexIndices>, a: EdgeVertexIndices, b: EdgeVertexIndices,
                        c: EdgeVertexIndices, slots: seq<int>)
    requires |slots| == 3 && 0 <= slots[0] < |keys| && 0 <= slots[1] < |keys| && 0 <= slots[2] < |keys|
    requires keys[slots[0]] == a && keys[slots[1]] == b && keys[slots[2]] == c
    ensures Indexes(keys, [a, b, c], slots)
  {
  }

  lemma AppendThree<K>(s: seq<K>, a: K, b: K, c: K)
    ensures s + [a] + [b] + [c] == s + [a, b, c]
  {
  }

  /** The de-duplication loop of march: one vertex per distinct corner key, in
      order of first use, and three vertex indices per triangle. */
  method IndexVertices(triangles: seq<Triangle>, dataWidth: int, dataHeight: int)
    returns (vertices: seq<Vec3>, indices: seq<int>)
    requires triangles == [] || (dataWidth > 0 && dataHeight > 0)
    ensures vertices == VertexPositions(VertexKeys(triangles), dataWidth, dataHeight)
    ensures Indexes(VertexKeys(triangles), Corners(triangles), indices)
  {
    var vertexMap: map<EdgeVertexIndices, int> := map[];
    vertices, indices := [], [];
    ghost var corners: seq<EdgeVertexIndices> := [];
    var ti := 0;
    while ti < |triangles|
      invariant 0 <= ti <= |triangles|
      invariant corners == Corners(triangles[..ti])
      invariant VertexTable(vertexMap, vertices, FirstAppearance(corners), dataWidth, dataHeight)
      invariant Indexes(FirstAppearance(corners), corners, indices)
    {
      var triangle := triangles[ti];
      ghost var keys := FirstAppearance(corners);
      var triangleIndices;
      vertexMap, vertices, triangleIndices := IndexTriangle(vertexMap, vertices, triangle, dataWidth, dataHeight, corners);
      ghost var corners' := corners + [triangle.cornerA, triangle.cornerB, triangle.cornerC];
      FirstAppearancePrefix(corners, [triangle.cornerA, triangle.cornerB, triangle.cornerC]);
      IndexesExtend(keys, corners, indices, FirstAppearance(corners'),
                    [triangle.cornerA, triangle.cornerB, triangle.cornerC], triangleIndices);
      indices := indices + triangleIndices;
      CornersStep(triangles, ti);
      corners := corners';
      ti := ti + 1;
    }
    assert triangles[..ti] == triangles;
  }

  /** In the unsmoothed mesh, triangle t is drawn through the midpoints of the
      cube edges its three corners were keyed by. */
  lemma TriangleVertices(triangles: seq<Triangle>, dataWidth: int, dataHeight: int, indices: seq<int>, t: nat)
    requires dataWidth > 0 && dataHeight > 0 && t < |triangles|
    requires Indexes(VertexKeys(triangles), Corners(triangles), indices)
    ensures var vertices := VertexPositions(VertexKeys(triangles), dataWidth, dataHeight);
      && 0 <= indices[3 * t] < |vertices| && 0 <= indices[3 * t + 1] < |vertices| && 0 <= indices[3 * t + 2] < |vertices|
      && vertices[indices[3 * t]] == EdgeVertexIndicesToCoordinates(triangles[t].cornerA, dataWidth, dataHeight)
      && vertices[indices[3 * t + 1]] == EdgeVertexIndicesToCoordinates(triangles[t].cornerB, dataWidth, dataHeight)
      && vertices[indices[3 * t + 2]] == EdgeVertexIndicesToCoordinates(triangles[t].cornerC, dataWidth, dataHeight)
  {
    CornersAt(triangles, t);
  }

  /** Models march: the triangles of every cube, their corners merged into
      shared vertices, and, when asked for, the smoothing passes. */
  method March(data: seq<real>, dataWidth: nat, dataHeight: nat, dataDepth: nat, isoLevel: real,
               nSmoothingIterations: int, smoothingFactor: real, t: Tables)
    returns (vertices: seq<Vec3>, indices: seq<int>)
    requires ValidTables(t) && |data| == dataWidth * dataHeight * dataDepth
    ensures var triangles := MarchedTriangles(t, data, dataWidth, dataHeight, dataDepth, isoLevel);
      && |indices| == 3 * |triangles|
      && Indexes(VertexKeys(triangles), Corners(triangles), indices)
      && NoDuplicates(VertexKeys(triangles))
      && |vertices| == |VertexKeys(triangles)|
      && (VertexKeys(triangles) == [] || (dataWidth > 0 && dataHeight > 0))
      && (nSmoothingIterations <= 0 ==>
            vertices == VertexPositions(VertexKeys(triangles), dataWidth, dataHeight))
      && (nSmoothingIterations > 0 ==>
            && Smooth.SmoothingInput(VertexPositions(VertexKeys(triangles), dataWidth, dataHeight), indices,
                                     nSmoothingIterations)
            && vertices == Smooth.Smoothed(VertexPositions(VertexKeys(triangles), dataWidth, dataHeight),
                                           Smooth.Adjacency(|vertices|, indices), smoothingFactor,
                                           nSmoothingIterations))
    ensures dataWidth < 2 || dataHeight < 2 || dataDepth < 2 ==> vertices == [] && indices == []
  {
    var triangles := MarchCubes(data, dataWidth, dataHeight, dataDepth, isoLevel, t);
    if dataWidth < 2 || dataHeight < 2 || dataDepth < 2 {
      FlatVolumeHasNoTriangles(t, data, dataWidth, dataHeight, dataDepth, isoLevel);
    }
    ghost var keys := VertexKeys(triangles);
    FirstAppearanceSpec(Corners(triangles));
    vertices, indices := IndexVertices(triangles, dataWidth, dataHeight);
    if nSmoothingIterations > 0 {
      EveryKeyUsed(keys, Corners(triangles), indices);
      Smooth.UsedVerticesHaveNeighbours(|vertices|, indices);
      vertices := Smooth.ApplySmoothing(vertices, indices, nSmoothingIterations, smoothingFactor);
    }
  }
}
