/**
 * The single-field terrain of src/2.js: createTerrain raises each vertex of
 * a 100 x 100 plane (101 vertices a side) to a noise height that fades out
 * radially, and getTerrainHeight reads that grid back by bilinear
 * interpolation of the four surrounding samples, reading any sample that is
 * not in the position attribute as 0.
 */
module DenseField {
  import opened Prelude

  /** Vertices per row of the plane: 100 segments give 101 vertices. */
  const RowStride: int := 101

  /** `this.terrainPos.getY(i) || 0`: the stored height of vertex i, or 0 when there is no vertex i. */
  function SampleY(terrainPos: seq<Vertex>, i: int): real {
    if 0 <= i < |terrainPos| then terrainPos[i].y else 0.0
  }

  /** The sample the lookup reads for grid column `col` and row `row`, at flat index col + row * 101. */
  function Corner(terrainPos: seq<Vertex>, col: int, row: int): real {
    SampleY(terrainPos, col + row * RowStride)
  }

  /** `(w + 50) / 100 * 100`: a world coordinate in grid units. */
  function GridCoord(w: real): real {
    (w + 50.0) / 100.0 * 100.0
  }

  function Lerp(a: real, b: real, f: real): real {
    a * (1.0 - f) + b * f
  }

  /** The four samples the lookup at (x, z) reads: h11, h21, h12, h22. */
  function CornerHeights(terrainPos: seq<Vertex>, x: real, z: real): seq<real> {
    var gridX, gridZ := GridCoord(x), GridCoord(z);
    var x1, x2 := gridX.Floor, Ceil(gridX);
    var z1, z2 := gridZ.Floor, Ceil(gridZ);
    [Corner(terrainPos, x1, z1), Corner(terrainPos, x2, z1),
     Corner(terrainPos, x1, z2), Corner(terrainPos, x2, z2)]
  }

  /** getTerrainHeight(x, z). */
  function HeightAt(terrainPos: seq<Vertex>, x: real, z: real): real {
    var gridX, gridZ := GridCoord(x), GridCoord(z);
    var x1, x2 := gridX.Floor, Ceil(gridX);
    var z1, z2 := gridZ.Floor, Ceil(gridZ);
    var h11 := Corner(terrainPos, x1, z1);
    var h21 := Corner(terrainPos, x2, z1);
    var h12 := Corner(terrainPos, x1, z2);
    var h22 := Corner(terrainPos, x2, z2);
    var fx := gridX - x1 as real;
    var fz := gridZ - z1 as real;
    var h1 := h11 * (1.0 - fx) + h21 * fx;
    var h2 := h12 * (1.0 - fx) + h22 * fx;
    h1 * (1.0 - fz) + h2 * fz
  }

  lemma LerpRising(a: real, b: real, f: real)
    requires a <= b && 0.0 <= f <= 1.0
    ensures a <= Lerp(a, b, f) <= b
  {
    MulMonotone(0.0, f, b - a);
    MulMonotone(f, 1.0, b - a);
    assert Lerp(a, b, f) == a + f * (b - a);
  }

  lemma LerpSymmetric(a: real, b: real, f: real)
    ensures Lerp(a, b, f) == Lerp(b, a, 1.0 - f)
  {
  }

  /** An interpolation weight in [0, 1] keeps the result between bounds of its two ends. */
  lemma LerpBetween(a: real, b: real, f: real, lo: real, hi: real)
    requires 0.0 <= f <= 1.0
    requires lo <= a <= hi && lo <= b <= hi
    ensures lo <= Lerp(a, b, f) <= hi
  {
    if a <= b {
      LerpRising(a, b, f);
    } else {
      LerpRising(b, a, 1.0 - f);
      LerpSymmetric(a, b, f);
    }
  }

  /** At a grid point the lookup returns the sample stored there, or 0 where the flat index has no vertex. */
  lemma HeightAtGridPoint(terrainPos: seq<Vertex>, col: int, row: int)
    ensures HeightAt(terrainPos, col as real - 50.0, row as real - 50.0) == Corner(terrainPos, col, row)
    ensures !(0 <= col + row * RowStride < |terrainPos|) ==>
      HeightAt(terrainPos, col as real - 50.0, row as real - 50.0) == 0.0
  {
    assert GridCoord(col as real - 50.0) == col as real;
    assert GridCoord(row as real - 50.0) == row as real;
  }

  /** The lookup lies between the least and the greatest of the four samples it reads. */
  lemma HeightAtWithinCorners(terrainPos: seq<Vertex>, x: real, z: real, lo: real, hi: real)
    requires forall i :: 0 <= i < 4 ==> lo <= CornerHeights(terrainPos, x, z)[i] <= hi
    ensures lo <= HeightAt(terrainPos, x, z) <= hi
  {
    var hs := CornerHeights(terrainPos, x, z);
    var gridX, gridZ := GridCoord(x), GridCoord(z);
    var fx := gridX - gridX.Floor as real;
    var fz := gridZ - gridZ.Floor as real;
    HeightAtAsLerp(terrainPos, x, z);
    LerpBetween(hs[0], hs[1], fx, lo, hi);
    LerpBetween(hs[2], hs[3], fx, lo, hi);
    LerpBetween(Lerp(hs[0], hs[1], fx), Lerp(hs[2], hs[3], fx), fz, lo, hi);
  }

  /** Samples of a + b * col + c * row + e * col * row. */
  function Bilinear(a: real, b: real, c: real, e: real, col: real, row: real): real {
    a + b * col + c * row + e * col * row
  }

  /** Interpolating an affine function between neighbouring grid lines reproduces it. */
  lemma LerpAffine(p: real, q: real, c1: int, c2: int, f: real)
    requires (c2 == c1 && f == 0.0) || c2 == c1 + 1
    ensures Lerp(p + q * c1 as real, p + q * c2 as real, f) == p + q * (c1 as real + f)
  {
    if c2 == c1 + 1 {
      assert q * c2 as real == q * c1 as real + q;
    }
  }

  /** Interpolating along a row of bilinear samples. */
  lemma LerpAlongRow(a: real, b: real, c: real, e: real, c1: int, c2: int, f: real, row: real)
    requires (c2 == c1 && f == 0.0) || c2 == c1 + 1
    ensures Lerp(Bilinear(a, b, c, e, c1 as real, row), Bilinear(a, b, c, e, c2 as real, row), f)
         == Bilinear(a, b, c, e, c1 as real + f, row)
  {
    assert Bilinear(a, b, c, e, c1 as real, row) == (a + c * row) + (b + e * row) * c1 as real;
    assert Bilinear(a, b, c, e, c2 as real, row) == (a + c * row) + (b + e * row) * c2 as real;
    assert Bilinear(a, b, c, e, c1 as real + f, row) == (a + c * row) + (b + e * row) * (c1 as real + f);
    LerpAffine(a + c * row, b + e * row, c1, c2, f);
  }

  /** Interpolating across two rows of bilinear samples. */
  lemma LerpAcrossRows(a: real, b: real, c: real, e: real, col: real, r1: int, r2: int, f: real)
    requires (r2 == r1 && f == 0.0) || r2 == r1 + 1
    ensures Lerp(Bilinear(a, b, c, e, col, r1 as real), Bilinear(a, b, c, e, col, r2 as real), f)
         == Bilinear(a, b, c, e, col, r1 as real + f)
  {
    assert Bilinear(a, b, c, e, col, r1 as real) == (a + b * col) + (c + e * col) * r1 as real;
    assert Bilinear(a, b, c, e, col, r2 as real) == (a + b * col) + (c + e * col) * r2 as real;
    assert Bilinear(a, b, c, e, col, r1 as real + f) == (a + b * col) + (c + e * col) * (r1 as real + f);
    LerpAffine(a + b * col, c + e * col, r1, r2, f);
  }

  /** The lookup, with its neighbouring grid lines and fractions named. */
  lemma HeightAtAsLerp(terrainPos: seq<Vertex>, x: real, z: real)
    ensures var gridX, gridZ := GridCoord(x), GridCoord(z);
      var x1, x2, z1, z2 := gridX.Floor, Ceil(gridX), gridZ.Floor, Ceil(gridZ);
      var fx, fz := gridX - x1 as real, gridZ - z1 as real;
      HeightAt(terrainPos, x, z)
        == Lerp(Lerp(Corner(terrainPos, x1, z1), Corner(terrainPos, x2, z1), fx),
                Lerp(Corner(terrainPos, x1, z2), Corner(terrainPos, x2, z2), fx), fz)
  {
  }

  /**
   * A grid sampled from a bilinear function is read back exactly: inside the
   * grid, the lookup at (x, z) is that function at the point's grid coordinates.
   */
  lemma HeightAtBilinear(terrainPos: seq<Vertex>, a: real, b: real, c: real, e: real, x: real, z: real)
    requires forall col: int, row: int :: 0 <= col <= 100 && 0 <= row <= 100 ==>
      Corner(terrainPos, col, row) == Bilinear(a, b, c, e, col as real, row as real)
    requires -50.0 <= x <= 50.0 && -50.0 <= z <= 50.0
    ensures HeightAt(terrainPos, x, z) == Bilinear(a, b, c, e, x + 50.0, z + 50.0)
  {
    var gridX, gridZ := GridCoord(x), GridCoord(z);
    assert gridX == x + 50.0 && gridZ == z + 50.0;
    var x1, x2, z1, z2 := gridX.Floor, Ceil(gridX), gridZ.Floor, Ceil(gridZ);
    var fx, fz := gridX - x1 as real, gridZ - z1 as real;
    assert 0 <= x1 <= x2 <= 100 && 0 <= z1 <= z2 <= 100;
    HeightAtAsLerp(terrainPos, x, z);
    LerpAlongRow(a, b, c, e, x1, x2, fx, z1 as real);
    LerpAlongRow(a, b, c, e, x1, x2, fx, z2 as real);
    LerpAcrossRows(a, b, c, e, gridX, z1, z2, fz);
  }

  /** `1.0 - Math.min(distanceFromCenter / 50, 1)`. */
  function RadialFalloff(d: NonNeg): (f: real)
    ensures 0.0 <= f <= 1.0
    ensures d >= 50.0 ==> f == 0.0
  {
    1.0 - Min(d / 50.0, 1.0)
  }

  /** The height createTerrain gives the vertex at (x, z): three octaves of noise, faded out radially. */
  function FieldHeight(m: Maths, simplex: (real, real) -> real, x: real, z: real): (h: real)
    ensures m.sqrt(x * x + z * z) >= 50.0 ==> h == 0.0
  {
    var distanceFromCenter := m.sqrt(x * x + z * z);
    var radialFalloff := RadialFalloff(distanceFromCenter);
    (simplex(x * 0.02, z * 0.02) * 4.0 + simplex(x * 0.05, z * 0.05) * 2.0 + simplex(x * 0.1, z * 0.1))
      * radialFalloff
  }

  /** The vertex v raised to the height createTerrain gives it. */
  function Raised(m: Maths, simplex: (real, real) -> real, v: Vertex): Vertex {
    v.(y := FieldHeight(m, simplex, v.x, v.z))
  }

  /** createTerrain: `this.terrainPos.setY(i, noise)` for every vertex, in place. */
  method CreateTerrain(m: Maths, simplex: (real, real) -> real, terrainPos: array<Vertex>)
    modifies terrainPos
    ensures forall i :: 0 <= i < terrainPos.Length ==> terrainPos[i] == Raised(m, simplex, old(terrainPos[i]))
  {
    ghost var before := terrainPos[..];
    for i := 0 to terrainPos.Length
      invariant forall k :: 0 <= k < i ==> terrainPos[k] == Raised(m, simplex, before[k])
      invariant forall k :: i <= k < terrainPos.Length ==> terrainPos[k] == before[k]
    {
      var x := terrainPos[i].x;
      var z := terrainPos[i].z;
      terrainPos[i] := terrainPos[i].(y := FieldHeight(m, simplex, x, z));
    }
  }
}
