/** Laplacian smoothing of a triangle mesh (cpp/smooth.cpp): a symmetric vertex
    adjacency is built once from the triangle index list, then every iteration
    replaces each vertex by a blend of the mean of its neighbours and itself. */
module Smooth {
  import opened Vectors

  /** Vertex index at corner p (0, 1 or 2) of triangle t of an index list. */
  function Corner(indices: seq<int>, t: nat, p: nat): int
    requires p < 3 && 3 * t + p < |indices|
  {
    indices[3 * t + p]
  }

  /** Index lists the source can walk: whole triangles, every index a vertex. */
  predicate ValidIndices(nVertices: nat, indices: seq<int>) {
    |indices| % 3 == 0 && forall k :: 0 <= k < |indices| ==> 0 <= indices[k] < nVertices
  }

  /** The neighbours that triangle t contributes to vertex a: the six inserts
      of one iteration of the adjacency loop. */
  function TriangleNeighbours(indices: seq<int>, t: nat, a: int): set<int>
    requires 3 * t + 2 < |indices|
  {
    var ia, ib, ic := Corner(indices, t, 0), Corner(indices, t, 1), Corner(indices, t, 2);
    (if ia == a then {ib, ic} else {}) + (if ib == a then {ia, ic} else {}) + (if ic == a then {ia, ib} else {})
  }

  /** The neighbours of vertex a collected from the first m triangles. */
  function Neighbours(indices: seq<int>, m: nat, a: int): set<int>
    requires 3 * m <= |indices|
  {
    if m == 0 then {} else Neighbours(indices, m - 1, a) + TriangleNeighbours(indices, m - 1, a)
  }

  /** The adjacency map of a mesh with n vertices: one neighbour set per vertex. */
  function Adjacency(n: nat, indices: seq<int>): (adj: seq<set<int>>)
    requires |indices| % 3 == 0
  {
    seq(n, a => Neighbours(indices, |indices| / 3, a))
  }

  /** Some triangle among the first m has a at one corner and b at another. */
  ghost predicate LinkedIn(indices: seq<int>, m: nat, a: int, b: int)
    requires 3 * m <= |indices|
  {
    exists t: nat, p: nat, q: nat {:trigger Corner(indices, t, p), Corner(indices, t, q)} ::
      t < m && p < 3 && q < 3 && p != q && Corner(indices, t, p) == a && Corner(indices, t, q) == b
  }

  ghost predicate Linked(indices: seq<int>, a: int, b: int)
    requires |indices| % 3 == 0
  {
    LinkedIn(indices, |indices| / 3, a, b)
  }

  /** b is a neighbour of a after m triangles iff one of them holds both at
      different corners. */
  lemma {:induction false} NeighboursIff(indices: seq<int>, m: nat, a: int, b: int)
    requires 3 * m <= |indices|
    ensures b in Neighbours(indices, m, a) <==> LinkedIn(indices, m, a, b)
  {
    if m > 0 {
      NeighboursIff(indices, m - 1, a, b);
      var t := m - 1;
      if b in TriangleNeighbours(indices, t, a) {
        var c0, c1, c2 := Corner(indices, t, 0), Corner(indices, t, 1), Corner(indices, t, 2);
        if c0 == a && b == c1 {
          assert Corner(indices, t, 0) == a && Corner(indices, t, 1) == b;
        } else if c0 == a && b == c2 {
          assert Corner(indices, t, 0) == a && Corner(indices, t, 2) == b;
        } else if c1 == a && b == c0 {
          assert Corner(indices, t, 1) == a && Corner(indices, t, 0) == b;
        } else if c1 == a && b == c2 {
          assert Corner(indices, t, 1) == a && Corner(indices, t, 2) == b;
        } else if c2 == a && b == c0 {
          assert Corner(indices, t, 2) == a && Corner(indices, t, 0) == b;
        } else {
          assert Corner(indices, t, 2) == a && Corner(indices, t, 1) == b;
        }
      }
      if LinkedIn(indices, m, a, b) {
        var t': nat, p: nat, q: nat :| t' < m && p < 3 && q < 3 && p != q
          && Corner(indices, t', p) == a && Corner(indices, t', q) == b;
        if t' < m - 1 {
          assert LinkedIn(indices, m - 1, a, b);
        } else {
          assert b in TriangleNeighbours(indices, t', a);
        }
      }
    }
  }

  /** The adjacency relation is symmetric. */
  lemma LinkedSymmetric(indices: seq<int>, a: int, b: int)
    requires |indices| % 3 == 0
    ensures Linked(indices, a, b) <==> Linked(indices, b, a)
  {
    if Linked(indices, a, b) {
      var t: nat, p: nat, q: nat :| t < |indices| / 3 && p < 3 && q < 3 && p != q
        && Corner(indices, t, p) == a && Corner(indices, t, q) == b;
      assert Corner(indices, t, q) == b && Corner(indices, t, p) == a;
    }
    if Linked(indices, b, a) {
      var t: nat, p: nat, q: nat :| t < |indices| / 3 && p < 3 && q < 3 && p != q
        && Corner(indices, t, p) == b && Corner(indices, t, q) == a;
      assert Corner(indices, t, q) == a && Corner(indices, t, p) == b;
    }
  }

  /** The six inserts one triangle (ia, ib, ic) makes into the adjacency. */
  function AddTriangle(adj: seq<set<int>>, ia: int, ib: int, ic: int): (r: seq<set<int>>)
    requires 0 <= ia < |adj| && 0 <= ib < |adj| && 0 <= ic < |adj|
    ensures |r| == |adj|
  {
    var a1 := adj[ia := adj[ia] + {ib}];
    var a2 := a1[ia := a1[ia] + {ic}];
    var a3 := a2[ib := a2[ib] + {ia}];
    var a4 := a3[ib := a3[ib] + {ic}];
    var a5 := a4[ic := a4[ic] + {ia}];
    a5[ic := a5[ic] + {ib}]
  }

  lemma AddTriangleAt(adj: seq<set<int>>, indices: seq<int>, t: nat, a: int)
    requires 3 * t + 2 < |indices|
    requires 0 <= Corner(indices, t, 0) < |adj| && 0 <= Corner(indices, t, 1) < |adj| && 0 <= Corner(indices, t, 2) < |adj|
    requires 0 <= a < |adj|
    ensures AddTriangle(adj, Corner(indices, t, 0), Corner(indices, t, 1), Corner(indices, t, 2))[a]
      == adj[a] + TriangleNeighbours(indices, t, a)
  {
    var ia, ib, ic := Corner(indices, t, 0), Corner(indices, t, 1), Corner(indices, t, 2);
    var a1 := adj[ia := adj[ia] + {ib}];
    var a2 := a1[ia := a1[ia] + {ic}];
    assert a2[a] == adj[a] + (if ia == a then {ib, ic} else {});
    var a3 := a2[ib := a2[ib] + {ia}];
    var a4 := a3[ib := a3[ib] + {ic}];
    assert a4[a] == a2[a] + (if ib == a then {ia, ic} else {});
    var a5 := a4[ic := a4[ic] + {ia}];
    var a6 := a5[ic := a5[ic] + {ib}];
    assert a6[a] == a4[a] + (if ic == a then {ia, ib} else {});
  }

  /** Adding triangle t to the neighbour sets of the first t triangles gives
      those of the first t + 1. */
  lemma AddTriangleStep(adj: seq<set<int>>, indices: seq<int>, t: nat)
    requires ValidIndices(|adj|, indices) && 3 * t + 2 < |indices|
    requires forall a :: 0 <= a < |adj| ==> adj[a] == Neighbours(indices, t, a)
    ensures var r := AddTriangle(adj, Corner(indices, t, 0), Corner(indices, t, 1), Corner(indices, t, 2));
      forall a :: 0 <= a < |adj| ==> r[a] == Neighbours(indices, t + 1, a)
  {
    forall a | 0 <= a < |adj|
      ensures AddTriangle(adj, Corner(indices, t, 0), Corner(indices, t, 1), Corner(indices, t, 2))[a]
        == Neighbours(indices, t + 1, a)
    {
      AddTriangleAt(adj, indices, t, a);
    }
  }

  /** Models buildAdjacencyMap: one set per vertex, filled triangle by triangle. */
  method BuildAdjacencyMap(vertices: seq<Vec3>, indices: seq<int>) returns (adjacencyMap: seq<set<int>>)
    requires ValidIndices(|vertices|, indices)
    ensures adjacencyMap == Adjacency(|vertices|, indices)
    ensures |adjacencyMap| == |vertices|
    ensures forall a, b :: 0 <= a < |vertices| ==> (b in adjacencyMap[a] <==> Linked(indices, a, b))
    ensures forall a, b :: 0 <= a < |vertices| && 0 <= b < |vertices| ==>
      (b in adjacencyMap[a] <==> a in adjacencyMap[b])
    ensures forall a, b :: 0 <= a < |vertices| && b in adjacencyMap[a] ==> 0 <= b < |vertices|
  {
    adjacencyMap := seq(|vertices|, _ => {});
    var i := 0;
    ghost var t := 0;
    while i < |indices|
      invariant 0 <= i <= |indices| && i == 3 * t
      invariant |adjacencyMap| == |vertices|
      invariant forall a :: 0 <= a < |vertices| ==> adjacencyMap[a] == Neighbours(indices, t, a)
    {
      ghost var before := adjacencyMap;
      var ia, ib, ic := indices[i], indices[i + 1], indices[i + 2];
      assert ia == Corner(indices, t, 0) && ib == Corner(indices, t, 1) && ic == Corner(indices, t, 2);
      adjacencyMap := adjacencyMap[ia := adjacencyMap[ia] + {ib}];
      adjacencyMap := adjacencyMap[ia := adjacencyMap[ia] + {ic}];
      adjacencyMap := adjacencyMap[ib := adjacencyMap[ib] + {ia}];
      adjacencyMap := adjacencyMap[ib := adjacencyMap[ib] + {ic}];
      adjacencyMap := adjacencyMap[ic := adjacencyMap[ic] + {ia}];
      adjacencyMap := adjacencyMap[ic := adjacencyMap[ic] + {ib}];
      assert adjacencyMap == AddTriangle(before, ia, ib, ic);
      AddTriangleStep(before, indices, t);
      i, t := i + 3, t + 1;
    }
    assert t == |indices| / 3;
    AdjacencyProperties(|vertices|, indices);
  }

  /** The adjacency relates exactly the vertices that share a triangle, is
      symmetric, and only holds vertices of the mesh. */
  lemma AdjacencyProperties(n: nat, indices: seq<int>)
    requires ValidIndices(n, indices)
    ensures forall a, b :: 0 <= a < n ==> (b in Adjacency(n, indices)[a] <==> Linked(indices, a, b))
    ensures forall a, b :: 0 <= a < n && 0 <= b < n ==>
      (b in Adjacency(n, indices)[a] <==> a in Adjacency(n, indices)[b])
    ensures forall a, b :: 0 <= a < n && b in Adjacency(n, indices)[a] ==> 0 <= b < n
  {
    var adj := Adjacency(n, indices);
    forall a, b | 0 <= a < n
      ensures b in adj[a] <==> Linked(indices, a, b)
    {
      NeighboursIff(indices, |indices| / 3, a, b);
    }
    forall a, b | 0 <= a < n && 0 <= b < n
      ensures b in adj[a] <==> a in adj[b]
    {
      LinkedSymmetric(indices, a, b);
    }
    forall a | 0 <= a < n
      ensures forall b :: b in adj[a] ==> 0 <= b < n
    {
      NeighboursInRange(indices, n, |indices| / 3, a);
    }
  }

  /** Every neighbour the adjacency holds is a vertex of the mesh. */
  lemma {:induction false} NeighboursInRange(indices: seq<int>, n: nat, m: nat, a: int)
    requires ValidIndices(n, indices) && 3 * m <= |indices|
    ensures forall b :: b in Neighbours(indices, m, a) ==> 0 <= b < n
  {
    if m > 0 {
      NeighboursInRange(indices, n, m - 1, a);
      var t := m - 1;
      assert 0 <= Corner(indices, t, 0) < n && 0 <= Corner(indices, t, 1) < n && 0 <= Corner(indices, t, 2) < n;
    }
  }

  /** A vertex that some triangle uses has at least one neighbour (possibly
      itself, in a degenerate triangle). */
  lemma {:induction false} UsedVertexHasNeighbour(indices: seq<int>, k: nat)
    requires |indices| % 3 == 0 && k < |indices|
    ensures Neighbours(indices, |indices| / 3, indices[k]) != {}
  {
    var t, p := k / 3, k % 3;
    assert Corner(indices, t, p) == indices[k];
    var q := if p == 0 then 1 else 0;
    assert Corner(indices, t, q) == Corner(indices, t, q);
    assert LinkedIn(indices, |indices| / 3, indices[k], Corner(indices, t, q));
    NeighboursIff(indices, |indices| / 3, indices[k], Corner(indices, t, q));
  }

  /** Every vertex appears in some triangle. */
  predicate EveryVertexUsed(nVertices: nat, indices: seq<int>) {
    forall a :: 0 <= a < nVertices ==> a in indices
  }

  /** What the smoothing step needs before it divides by a neighbour count:
      no vertex has an empty neighbour set. */
  predicate EveryVertexHasNeighbour(nVertices: nat, indices: seq<int>)
    requires |indices| % 3 == 0
  {
    forall a :: 0 <= a < nVertices ==> Neighbours(indices, |indices| / 3, a) != {}
  }

  /** An adjacency the smoothing step can divide by: one non-empty set per vertex. */
  predicate SmoothableAdjacency(n: nat, adj: seq<set<int>>) {
    |adj| == n && forall a :: 0 <= a < n ==> adj[a] != {}
  }

  /** A mesh in which every vertex is used has no isolated vertex. */
  lemma UsedVerticesHaveNeighbours(nVertices: nat, indices: seq<int>)
    requires |indices| % 3 == 0 && EveryVertexUsed(nVertices, indices)
    ensures EveryVertexHasNeighbour(nVertices, indices)
  {
    forall a | 0 <= a < nVertices
      ensures Neighbours(indices, |indices| / 3, a) != {}
    {
      assert a in indices;
      var k :| 0 <= k < |indices| && indices[k] == a;
      UsedVertexHasNeighbour(indices, k);
    }
  }

  /** Sum of v[j] over the members j of s below n, taken in index order. */
  function NeighbourSum(s: set<int>, v: seq<Vec3>, n: nat): Vec3
    requires n <= |v|
  {
    if n == 0 then Zero else Add(NeighbourSum(s, v, n - 1), if n - 1 in s then v[n - 1] else Zero)
  }

  /** Adding one more member adds its vector, whatever the order of visits. */
  lemma {:induction false} NeighbourSumInsert(s: set<int>, j: int, v: seq<Vec3>, n: nat)
    requires n <= |v| && j !in s && 0 <= j
    ensures NeighbourSum(s + {j}, v, n) == if j < n then Add(NeighbourSum(s, v, n), v[j]) else NeighbourSum(s, v, n)
  {
    if n > 0 {
      NeighbourSumInsert(s, j, v, n - 1);
    }
  }

  lemma {:induction false} NeighbourSumEmpty(v: seq<Vec3>, n: nat)
    requires n <= |v|
    ensures NeighbourSum({}, v, n) == Zero
  {
    if n > 0 {
      NeighbourSumEmpty(v, n - 1);
    }
  }

  function Mean(v: seq<Vec3>, neighbours: set<int>): Vec3
    requires neighbours != {}
  {
    Scale(1.0 / (|neighbours| as real), NeighbourSum(neighbours, v, |v|))
  }

  /** The blend of applySmoothingIteration: factor times the neighbours' mean
      plus (1 - factor) times the vertex itself. */
  function SmoothedVertex(v: seq<Vec3>, adj: seq<set<int>>, factor: real, i: nat): Vec3
    requires i < |v| && i < |adj| && adj[i] != {}
  {
    Add(Scale(factor, Mean(v, adj[i])), Scale(1.0 - factor, v[i]))
  }

  function SmoothingIteration(v: seq<Vec3>, adj: seq<set<int>>, factor: real): (r: seq<Vec3>)
    requires SmoothableAdjacency(|v|, adj)
    ensures |r| == |v|
  {
    seq(|v|, i requires 0 <= i < |v| => SmoothedVertex(v, adj, factor, i))
  }

  /** n iterations over one fixed adjacency; none when n <= 0. */
  function Smoothed(v: seq<Vec3>, adj: seq<set<int>>, factor: real, n: int): (r: seq<Vec3>)
    requires n > 0 ==> SmoothableAdjacency(|v|, adj)
    ensures |r| == |v|
    decreases if n <= 0 then 0 else n
  {
    if n <= 0 then v else SmoothingIteration(Smoothed(v, adj, factor, n - 1), adj, factor)
  }

  lemma ScaleDivision(f: real, n: real, s: Vec3)
    requires n != 0.0
    ensures Scale(f / n, s) == Scale(f, Scale(1.0 / n, s))
  {
    assert f / n == f * (1.0 / n);
  }

  lemma HasMember(s: set<int>)
    requires s != {}
    ensures exists x :: x in s
  {
    if forall x :: x !in s {
      assert false;
    }
  }

  /** The inner loop of applySmoothingIteration: adds every neighbour of
      vertex i, in whatever order the set yields them, into slot i. */
  method AccumulateNeighbours(smoothedVertices: seq<Vec3>, i: nat, vertices: seq<Vec3>, neighbours: set<int>)
    returns (accumulated: seq<Vec3>)
    requires i < |smoothedVertices| == |vertices| && smoothedVertices[i] == Zero
    requires forall b :: b in neighbours ==> 0 <= b < |vertices|
    ensures accumulated == smoothedVertices[i := NeighbourSum(neighbours, vertices, |vertices|)]
  {
    accumulated := smoothedVertices;
    var rest := neighbours;
    NeighbourSumEmpty(vertices, |vertices|);
    assert neighbours - rest == {};
    while rest != {}
      invariant rest <= neighbours
      invariant accumulated == smoothedVertices[i := NeighbourSum(neighbours - rest, vertices, |vertices|)]
      decreases rest
    {
      HasMember(rest);
      var neighbourIndex :| neighbourIndex in rest;
      NeighbourSumInsert(neighbours - rest, neighbourIndex, vertices, |vertices|);
      assert (neighbours - rest) + {neighbourIndex} == neighbours - (rest - {neighbourIndex});
      accumulated := accumulated[i := Add(accumulated[i], vertices[neighbourIndex])];
      rest := rest - {neighbourIndex};
    }
    assert neighbours - rest == neighbours;
  }

  /** Models applySmoothingIteration: each output vertex is accumulated in
      place from its neighbours, scaled, then blended with the input vertex. */
  method ApplySmoothingIteration(vertices: seq<Vec3>, adjacencyMap: seq<set<int>>, smoothingFactor: real)
    returns (smoothedVertices: seq<Vec3>)
    requires SmoothableAdjacency(|vertices|, adjacencyMap)
    requires forall a, b :: 0 <= a < |vertices| && b in adjacencyMap[a] ==> 0 <= b < |vertices|
    ensures smoothedVertices == SmoothingIteration(vertices, adjacencyMap, smoothingFactor)
    ensures |smoothedVertices| == |vertices|
    ensures forall i :: 0 <= i < |vertices| ==>
      smoothedVertices[i] == Add(Scale(smoothingFactor, Mean(vertices, adjacencyMap[i])), Scale(1.0 - smoothingFactor, vertices[i]))
  {
    smoothedVertices := seq(|vertices|, _ => Zero);
    var i := 0;
    while i < |adjacencyMap|
      invariant 0 <= i <= |adjacencyMap| && |smoothedVertices| == |vertices|
      invariant forall k :: 0 <= k < i ==> smoothedVertices[k] == SmoothedVertex(vertices, adjacencyMap, smoothingFactor, k)
      invariant forall k :: i <= k < |vertices| ==> smoothedVertices[k] == Zero
    {
      smoothedVertices := AccumulateNeighbours(smoothedVertices, i, vertices, adjacencyMap[i]);
      var nNeighbours := |adjacencyMap[i]| as real;
      ScaleDivision(smoothingFactor, nNeighbours, smoothedVertices[i]);
      smoothedVertices := smoothedVertices[i := Scale(smoothingFactor / nNeighbours, smoothedVertices[i])];
      smoothedVertices := smoothedVertices[i := Add(smoothedVertices[i], Scale(1.0 - smoothingFactor, vertices[i]))];
      i := i + 1;
    }
  }

  /** What applySmoothing needs of its input: whole triangles of in-range
      indices and, when it iterates at all, no isolated vertex. */
  predicate SmoothingInput(vertices: seq<Vec3>, indices: seq<int>, nIterations: int) {
    ValidIndices(|vertices|, indices) && (nIterations > 0 ==> EveryVertexHasNeighbour(|vertices|, indices))
  }

  /** Models applySmoothing: adjacency built once from the original indices,
      then nIterations iterations. */
  method ApplySmoothing(vertices: seq<Vec3>, indices: seq<int>, nIterations: int, smoothingFactor: real)
    returns (smoothedVertices: seq<Vec3>)
    requires SmoothingInput(vertices, indices, nIterations)
    ensures smoothedVertices == Smoothed(vertices, Adjacency(|vertices|, indices), smoothingFactor, nIterations)
    ensures |smoothedVertices| == |vertices|
    ensures nIterations <= 0 ==> smoothedVertices == vertices
  {
    var adjacencyMap := BuildAdjacencyMap(vertices, indices);
    if nIterations > 0 {
      forall a | 0 <= a < |vertices| ensures adjacencyMap[a] != {} {
        assert adjacencyMap[a] == Neighbours(indices, |indices| / 3, a);
      }
      assert SmoothableAdjacency(|vertices|, adjacencyMap);
    }
    smoothedVertices := vertices;
    var i := 0;
    while i < nIterations
      invariant 0 <= i && (nIterations > 0 ==> i <= nIterations)
      invariant i > 0 ==> nIterations > 0
      invariant smoothedVertices == Smoothed(vertices, adjacencyMap, smoothingFactor, i)
      invariant |smoothedVertices| == |vertices|
    {
      smoothedVertices := ApplySmoothingIteration(smoothedVertices, adjacencyMap, smoothingFactor);
      i := i + 1;
    }
  }

  /** With smoothing factor 0 an iteration leaves every vertex where it is. */
  lemma ZeroFactorIsIdentity(v: seq<Vec3>, adj: seq<set<int>>)
    requires SmoothableAdjacency(|v|, adj)
    ensures SmoothingIteration(v, adj, 0.0) == v
  {
    var r := SmoothingIteration(v, adj, 0.0);
    forall i | 0 <= i < |v| ensures r[i] == v[i] {
      assert r[i] == SmoothedVertex(v, adj, 0.0, i);
    }
  }
}
