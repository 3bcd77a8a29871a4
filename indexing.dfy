/** Flattening of a 3-D box of lattice points into one index, first coordinate
    fastest, and its decoding by remainder and quotient. The marching-cubes
    voxel index and the z-fastest grid index are both instances. */
module Indexing {

  /** `c * n1 * n2 + b * n1 + a`: the index of (a, b, c) in a box whose first
      two extents are n1 and n2. */
  function Flatten(a: int, b: int, c: int, n1: int, n2: int): int {
    c * n1 * n2 + b * n1 + a
  }

  function First(i: int, n1: int): int
    requires n1 > 0
  {
    i % n1
  }

  function Second(i: int, n1: int, n2: int): int
    requires n1 > 0 && n2 > 0
  {
    (i / n1) % n2
  }

  function Third(i: int, n1: int, n2: int): int
    requires n1 > 0 && n2 > 0
  {
    i / (n1 * n2)
  }

  /** Quotient and remainder are determined by any decomposition n == q*d + r
      with 0 <= r < d. */
  lemma DivModUnique(n: int, d: int, q: int, r: int)
    requires d > 0 && 0 <= r < d && n == q * d + r
    ensures n / d == q && n % d == r
  {
    var q', r' := n / d, n % d;
    assert n == q' * d + r';
    if q' < q {
      assert (q - q') * d >= d by { MulAtLeast(q - q', d); }
      assert false;
    } else if q' > q {
      assert (q' - q) * d >= d by { MulAtLeast(q' - q, d); }
      assert false;
    }
  }

  lemma ProductNonNegative(a: int, b: int, c: int)
    requires a >= 0 && b >= 0 && c >= 0
    ensures a * b * c >= 0
  {
  }

  lemma MulAtLeast(k: int, d: int)
    requires k >= 1 && d > 0
    ensures k * d >= d
  {
  }

  /** Decoding an in-range triple gives the triple back. */
  lemma {:induction false} DecodeFlatten(a: int, b: int, c: int, n1: int, n2: int)
    requires 0 <= a < n1 && 0 <= b < n2 && 0 <= c
    ensures First(Flatten(a, b, c, n1, n2), n1) == a
    ensures Second(Flatten(a, b, c, n1, n2), n1, n2) == b
    ensures Third(Flatten(a, b, c, n1, n2), n1, n2) == c
  {
    var i := Flatten(a, b, c, n1, n2);
    assert i == (c * n2 + b) * n1 + a by { FlattenNested(a, b, c, n1, n2); }
    DivModUnique(i, n1, c * n2 + b, a);
    DivModUnique(c * n2 + b, n2, c, b);
    assert b * n1 + a < n1 * n2 by { RowBelowPlane(a, b, n1, n2); }
    DivModUnique(i, n1 * n2, c, b * n1 + a);
  }

  lemma FlattenNested(a: int, b: int, c: int, n1: int, n2: int)
    ensures Flatten(a, b, c, n1, n2) == (c * n2 + b) * n1 + a
    ensures Flatten(a, b, c, n1, n2) == c * (n1 * n2) + (b * n1 + a)
  {
    assert (c * n2 + b) * n1 == c * n2 * n1 + b * n1;
    assert c * n2 * n1 == c * n1 * n2;
  }

  lemma RowBelowPlane(a: int, b: int, n1: int, n2: int)
    requires 0 <= a < n1 && 0 <= b < n2
    ensures b * n1 + a < n1 * n2
  {
    assert b * n1 <= (n2 - 1) * n1;
  }

  /** Encoding the decoded parts of a non-negative index gives the index back,
      and the parts lie in their ranges. */
  lemma {:induction false} FlattenDecode(i: int, n1: int, n2: int)
    requires 0 <= i && n1 > 0 && n2 > 0
    ensures 0 <= First(i, n1) < n1 && 0 <= Second(i, n1, n2) < n2 && 0 <= Third(i, n1, n2)
    ensures Flatten(First(i, n1), Second(i, n1, n2), Third(i, n1, n2), n1, n2) == i
  {
    var a, q := i % n1, i / n1;
    var b, c := q % n2, q / n2;
    assert i == q * n1 + a;
    assert q == c * n2 + b;
    FlattenNested(a, b, c, n1, n2);
    RowBelowPlane(a, b, n1, n2);
    DivModUnique(i, n1 * n2, c, b * n1 + a);
    assert Third(i, n1, n2) == c;
  }

  /** A triple inside the n1 x n2 x n3 box flattens into [0, n1*n2*n3). */
  lemma {:induction false} FlattenInBox(a: int, b: int, c: int, n1: int, n2: int, n3: int)
    requires 0 <= a < n1 && 0 <= b < n2 && 0 <= c < n3
    ensures 0 <= Flatten(a, b, c, n1, n2) < n1 * n2 * n3
  {
    assert 0 <= b * n1 + a < n1 * n2 by {
      assert b * n1 <= (n2 - 1) * n1;
    }
    assert c * n1 * n2 <= (n3 - 1) * (n1 * n2);
    assert n1 * n2 * n3 == (n3 - 1) * (n1 * n2) + n1 * n2;
  }
}
