/**
 * The grass buffer builders of src/9.js and src/2.js. Each blade is a line
 * strip of four vertices: both builders push, per vertex, a position and one
 * entry to each of four attribute arrays, and per blade three index pairs
 * linking consecutive vertices. Emit is the layout both builders produce;
 * SegmentsLaid and PairsLaid state it in closed form, and the two builder methods are proved
 * to produce Emit of the blades their random draws describe.
 */
module Grass {
  import opened Prelude
  import DenseField

  const SegmentsPerBlade: nat := 4

  /** Everything pushed for one vertex of a blade. */
  datatype Segment = Segment(
    x: real, y: real, z: real,
    offset: real, opacity: real, scale: real, bendFactor: real)

  const Flat := Segment(0.0, 0.0, 0.0, 0.0, 0.0, 0.0, 0.0)

  /** One blade: its vertices from the root (j = 0) to the tip (j = 3). */
  type Blade = s: seq<Segment> | |s| == SegmentsPerBlade witness [Flat, Flat, Flat, Flat]

  /** The six arrays createGrass fills: positions (three numbers per vertex), four attributes and the index list. */
  datatype GrassBuffers = GrassBuffers(
    vertices: seq<real>,
    offsets: seq<real>,
    indices: seq<int>,
    opacities: seq<real>,
    scales: seq<real>,
    bendFactors: seq<real>)

  const Empty := GrassBuffers([], [], [], [], [], [])

  /** The number of vertices the buffers describe, with every array of matching length. */
  predicate Holds(g: GrassBuffers, vertexCount: nat) {
    |g.vertices| == 3 * vertexCount
    && |g.offsets| == vertexCount && |g.opacities| == vertexCount
    && |g.scales| == vertexCount && |g.bendFactors| == vertexCount
  }

  /**
   * The pushes for segment j of a blade whose root vertex has index `root`:
   * a position, the four attributes, and for j > 0 the pair linking the
   * previous vertex of the blade to this one.
   */
  function PushSegment(g: GrassBuffers, s: Segment, root: int, j: nat): GrassBuffers {
    GrassBuffers(
      g.vertices + [s.x, s.y, s.z],
      g.offsets + [s.offset],
      if j > 0 then g.indices + [root + j - 1, root + j] else g.indices,
      g.opacities + [s.opacity],
      g.scales + [s.scale],
      g.bendFactors + [s.bendFactor])
  }

  /** The pushes for the first j segments of blade b. */
  function PushSegments(g: GrassBuffers, b: Blade, root: int, j: nat): (r: GrassBuffers)
    requires j <= SegmentsPerBlade
    ensures |r.vertices| == |g.vertices| + 3 * j && |r.offsets| == |g.offsets| + j
    ensures |r.opacities| == |g.opacities| + j && |r.scales| == |g.scales| + j
    ensures |r.bendFactors| == |g.bendFactors| + j
    ensures |r.indices| == |g.indices| + (if j == 0 then 0 else 2 * (j - 1))
    decreases j
  {
    if j == 0 then g else PushSegment(PushSegments(g, b, root, j - 1), b[j - 1], root, j - 1)
  }

  /** The buffers for a sequence of blades, laid out one after another. */
  function Emit(bs: seq<Blade>): (g: GrassBuffers)
    ensures Holds(g, 4 * |bs|)
    ensures |g.indices| == 6 * |bs|
    decreases |bs|
  {
    if bs == [] then Empty
    else
      var n := |bs| - 1;
      PushSegments(Emit(bs[..n]), bs[n], 4 * n, SegmentsPerBlade)
  }

  /** Emitting one more blade pushes it at root vertex `root`, the number of vertices already laid out. */
  lemma EmitSnoc(bs: seq<Blade>, b: Blade, root: int)
    requires root == 4 * |bs|
    ensures Emit(bs + [b]) == PushSegments(Emit(bs), b, root, SegmentsPerBlade)
  {
    assert (bs + [b])[..|bs|] == bs;
  }

  /** Vertex k as the arrays hold it. */
  function SegmentAt(g: GrassBuffers, k: nat): Segment
    requires Holds(g, |g.offsets|) && k < |g.offsets|
  {
    Segment(g.vertices[3 * k], g.vertices[3 * k + 1], g.vertices[3 * k + 2],
      g.offsets[k], g.opacities[k], g.scales[k], g.bendFactors[k])
  }

  /** Index pair q of the index list. */
  function PairAt(indices: seq<int>, q: nat): (int, int)
    requires 2 * q + 1 < |indices|
  {
    (indices[2 * q], indices[2 * q + 1])
  }

  /** Vertex 4b + j of the buffers for bs is segment j of blade b. */
  ghost predicate SegmentsLaid(g: GrassBuffers, bs: seq<Blade>)
    requires Holds(g, 4 * |bs|)
  {
    forall b, j :: 0 <= b < |bs| && 0 <= j < SegmentsPerBlade ==>
      SegmentAt(g, 4 * b + j) == bs[b][j]
  }

  /** Index pair q of the buffers for bs links vertices j - 1 and j of blade q / 3, where j = q % 3 + 1. */
  ghost predicate PairsLaid(indices: seq<int>, blades: nat)
    requires |indices| == 6 * blades
  {
    forall q: nat :: q < 3 * blades ==>
      PairAt(indices, q) == (4 * (q / 3) + q % 3, 4 * (q / 3) + q % 3 + 1)
  }

  /** The index pairs one blade pushes, written out. */
  lemma PushBladeIndices(g: GrassBuffers, b: Blade, root: int)
    ensures PushSegments(g, b, root, SegmentsPerBlade).indices
      == g.indices + [root, root + 1, root + 1, root + 2, root + 2, root + 3]
  {
    var r1 := PushSegments(g, b, root, 1);
    var r2 := PushSegments(g, b, root, 2);
    var r3 := PushSegments(g, b, root, 3);
    assert r1 == PushSegment(g, b[0], root, 0);
    assert r2 == PushSegment(r1, b[1], root, 1);
    assert r3 == PushSegment(r2, b[2], root, 2);
  }

  lemma SegmentKept(g0: GrassBuffers, g: GrassBuffers, k: nat)
    requires Holds(g0, |g0.offsets|) && Holds(g, |g.offsets|) && k < |g0.offsets|
    requires g0.vertices <= g.vertices && g0.offsets <= g.offsets && g0.opacities <= g.opacities
    requires g0.scales <= g.scales && g0.bendFactors <= g.bendFactors
    ensures SegmentAt(g, k) == SegmentAt(g0, k)
  {
  }

  /** Pushing segments of a blade leaves every vertex already in the buffers as it was. */
  lemma {:induction false} PushKeeps(g: GrassBuffers, b: Blade, root: int, j: nat, count: nat, k: nat)
    requires j <= SegmentsPerBlade && Holds(g, count) && k < count
    ensures Holds(PushSegments(g, b, root, j), count + j)
    ensures SegmentAt(PushSegments(g, b, root, j), k) == SegmentAt(g, k)
    decreases j
  {
    if j > 0 {
      PushKeeps(g, b, root, j - 1, count, k);
      SegmentKept(PushSegments(g, b, root, j - 1), PushSegments(g, b, root, j), k);
    }
  }

  /** Pushing the first j segments of a blade appends them as vertices count, ..., count + j - 1. */
  lemma {:induction false} PushAppends(g: GrassBuffers, b: Blade, root: int, j: nat, count: nat, i: nat)
    requires j <= SegmentsPerBlade && Holds(g, count) && i < j
    ensures Holds(PushSegments(g, b, root, j), count + j)
    ensures SegmentAt(PushSegments(g, b, root, j), count + i) == b[i]
    decreases j
  {
    var r0 := PushSegments(g, b, root, j - 1);
    var r := PushSegments(g, b, root, j);
    assert r == PushSegment(r0, b[j - 1], root, j - 1);
    if i < j - 1 {
      PushAppends(g, b, root, j - 1, count, i);
      SegmentKept(r0, r, count + i);
    }
  }

  /** Pushing one more blade onto buffers laid out for bs lays them out for bs + [b]. */
  lemma SegmentsLaidSnoc(g0: GrassBuffers, g: GrassBuffers, bs: seq<Blade>, b: Blade)
    requires Holds(g0, 4 * |bs|) && SegmentsLaid(g0, bs)
    requires g == PushSegments(g0, b, 4 * |bs|, SegmentsPerBlade)
    ensures Holds(g, 4 * |bs + [b]|) && SegmentsLaid(g, bs + [b])
  {
    var n := |bs|;
    forall c, j | 0 <= c < n + 1 && 0 <= j < SegmentsPerBlade
      ensures SegmentAt(g, 4 * c + j) == (bs + [b])[c][j]
    {
      if c < n {
        assert (bs + [b])[c] == bs[c];
        PushKeeps(g0, b, 4 * n, SegmentsPerBlade, 4 * n, 4 * c + j);
      } else {
        assert (bs + [b])[c] == b;
        PushAppends(g0, b, 4 * n, SegmentsPerBlade, 4 * n, j);
      }
    }
  }

  /** Emit lays the vertices of every blade out in order. */
  lemma {:induction false} EmitSegmentsLaid(bs: seq<Blade>)
    ensures SegmentsLaid(Emit(bs), bs)
    decreases |bs|
  {
    if bs != [] {
      var n := |bs| - 1;
      EmitSegmentsLaid(bs[..n]);
      assert bs == bs[..n] + [bs[n]];
      SegmentsLaidSnoc(Emit(bs[..n]), Emit(bs), bs[..n], bs[n]);
    }
  }

  /** One more blade's pairs, pushed after pairs laid out for n blades, lay them out for n + 1. */
  lemma PairsLaidSnoc(ix0: seq<int>, ix: seq<int>, n: nat)
    requires |ix0| == 6 * n && PairsLaid(ix0, n)
    requires ix == ix0 + [4 * n, 4 * n + 1, 4 * n + 1, 4 * n + 2, 4 * n + 2, 4 * n + 3]
    ensures |ix| == 6 * (n + 1) && PairsLaid(ix, n + 1)
  {
    forall q: nat | q < 3 * (n + 1)
      ensures PairAt(ix, q) == (4 * (q / 3) + q % 3, 4 * (q / 3) + q % 3 + 1)
    {
      if q < 3 * n {
        assert PairAt(ix, q) == PairAt(ix0, q);
      } else {
        assert q / 3 == n;
      }
    }
  }

  /** Emit links the vertices of each blade, and only those, in order. */
  lemma {:induction false} EmitPairsLaid(bs: seq<Blade>)
    ensures PairsLaid(Emit(bs).indices, |bs|)
    decreases |bs|
  {
    if bs != [] {
      var n := |bs| - 1;
      EmitPairsLaid(bs[..n]);
      PushBladeIndices(Emit(bs[..n]), bs[n], 4 * n);
      PairsLaidSnoc(Emit(bs[..n]).indices, Emit(bs).indices, n);
    }
  }

  lemma PairsStayInBlade(indices: seq<int>, blades: nat, q: nat)
    requires |indices| == 6 * blades && PairsLaid(indices, blades) && q < 3 * blades
    ensures var (u, v) := PairAt(indices, q);
      0 <= u && v == u + 1 && u / 4 == v / 4 && u / 4 == q / 3 && v < 4 * blades
  {
    var m, r := q / 3, q % 3;
    assert PairAt(indices, q) == (4 * m + r, 4 * m + r + 1);
    DivByFour(m, r);
    DivByFour(m, r + 1);
  }

  /**
   * Every index pair links a vertex to the next vertex of the same blade:
   * no pair spans two blades and every index names a vertex that exists.
   */
  lemma IndexPairsStayInBlade(bs: seq<Blade>, q: nat)
    requires q < 3 * |bs|
    ensures var g := Emit(bs);
      var (u, v) := PairAt(g.indices, q);
      0 <= u && v == u + 1 && u / 4 == v / 4 && u / 4 == q / 3 && v < |g.vertices| / 3
  {
    EmitPairsLaid(bs);
    PairsStayInBlade(Emit(bs).indices, |bs|, q);
  }

  lemma DivByFour(m: int, r: int)
    requires 0 <= r < 4
    ensures (4 * m + r) / 4 == m
  {
  }

  // ---- One blade ----

  /** How far up the blade segment j sits: `j / (segmentsPerBlade - 1)`. */
  function Progress(j: nat): real {
    j as real / 3.0
  }

  /** `0.3 + Math.random() * 0.7`. */
  function Opacity(r: Unit): (o: real)
    ensures 0.3 <= o < 1.0
  {
    0.3 + r * 0.7
  }

  /** `Math.random() * Math.PI * 2`. */
  function Phase(r: Unit): (o: real)
    ensures 0.0 <= o < 2.0 * PI
  {
    r * 3.141592653589793 * 2.0
  }

  /**
   * Segment j of a blade rooted at (x, y, z): its height along the blade,
   * its bend `t^2 * (0.3 + noise * 0.2)`, and a phase and an opacity from
   * two fresh draws at k + 2j and k + 2j + 1.
   */
  function BladeSegment(x: real, y: real, z: real, scale: real, noiseVal: real,
                        rand: nat -> Unit, k: nat, j: nat): Segment
  {
    var t := Progress(j);
    Segment(x, Lift(y, scale, t), z,
      Phase(rand(k + 2 * j)), Opacity(rand(k + 2 * j + 1)),
      scale, Bend(t, noiseVal))
  }

  /** `y + (bladeHeight * scale * t)` with a blade height of 0.4. */
  function Lift(y: real, scale: real, t: real): real {
    y + 0.4 * scale * t
  }

  /** `Math.pow(t, 2) * (0.3 + noiseVal * 0.2)`. */
  function Bend(t: real, noiseVal: real): real {
    t * t * (0.3 + noiseVal * 0.2)
  }

  /** A blade rooted at (x, y, z), drawing its phases and opacities from k on. */
  function BladeAt(x: real, y: real, z: real, scale: real, noiseVal: real,
                   rand: nat -> Unit, k: nat): Blade
  {
    [BladeSegment(x, y, z, scale, noiseVal, rand, k, 0), BladeSegment(x, y, z, scale, noiseVal, rand, k, 1),
     BladeSegment(x, y, z, scale, noiseVal, rand, k, 2), BladeSegment(x, y, z, scale, noiseVal, rand, k, 3)]
  }

  /**
   * Every vertex of the blade stands over its root with the blade's scale;
   * the root is unbent, the tip is 0.4 * scale above the root, and every
   * opacity and phase lies in the range its formula gives.
   */
  lemma BladeAtShape(x: real, y: real, z: real, scale: real, noiseVal: real, rand: nat -> Unit, k: nat)
    ensures var b := BladeAt(x, y, z, scale, noiseVal, rand, k);
      (forall j :: 0 <= j < 4 ==> b[j].x == x && b[j].z == z && b[j].scale == scale)
      && b[0].y == y && b[3].y == y + 0.4 * scale && b[0].bendFactor == 0.0
      && (forall j :: 0 <= j < 4 ==> 0.3 <= b[j].opacity < 1.0 && 0.0 <= b[j].offset < 2.0 * PI)
  {
  }

  lemma BladeAtSegments(x: real, y: real, z: real, scale: real, noiseVal: real, rand: nat -> Unit, k: nat)
    ensures forall j :: 0 <= j < SegmentsPerBlade ==>
      BladeAt(x, y, z, scale, noiseVal, rand, k)[j] == BladeSegment(x, y, z, scale, noiseVal, rand, k, j)
  {
  }

  lemma BladeAtSegment(x: real, y: real, z: real, scale: real, noiseVal: real,
                       rand: nat -> Unit, k: nat, j: nat)
    requires j < SegmentsPerBlade
    ensures BladeAt(x, y, z, scale, noiseVal, rand, k)[j] == BladeSegment(x, y, z, scale, noiseVal, rand, k, j)
  {
  }

  /**
   * One pass of the segment loop both builders run: when segment j of
   * `blade` is the one the loop body computes from (x, y, z), scale,
   * noiseVal and t = j / 3, with draws k + 2j and k + 2j + 1 (and (a, c) is
   * the index pair it pushes when j > 0), arrays g0 holding PushSegments of
   * j segments before the pass become arrays g1 holding PushSegments of j + 1.
   */
  lemma SegmentStep(before: GrassBuffers, blade: Blade, x: real, y: real, z: real, scale: real, noiseVal: real,
                    t: real, rand: nat -> Unit, k: nat, root: int, j: nat, g0: GrassBuffers, g1: GrassBuffers,
                    a: int, c: int)
    requires j < SegmentsPerBlade && t == Progress(j)
    requires blade[j] == BladeSegment(x, y, z, scale, noiseVal, rand, k, j)
    requires g0 == PushSegments(before, blade, root, j)
    requires g1.vertices == g0.vertices + [x, y + 0.4 * scale * t, z]
    requires g1.bendFactors == g0.bendFactors + [Bend(t, noiseVal)]
    requires g1.offsets == g0.offsets + [Phase(rand(k + 2 * j))]
    requires g1.opacities == g0.opacities + [Opacity(rand(k + 2 * j + 1))]
    requires g1.scales == g0.scales + [scale]
    requires g1.indices == if j > 0 then g0.indices + [a, c] else g0.indices
    requires j > 0 ==> a == root + j - 1 && c == root + j
    ensures g1 == PushSegments(before, blade, root, j + 1)
  {
    assert Lift(y, scale, t) == y + 0.4 * scale * t;
  }

  /** A positive width. */
  type Extent = r: real | r > 0.0 witness 1.0

  /** `Math.random() * w - w / 2` for the widths 80 and chunkSize. */
  function Spread(r: Unit, w: Extent): (v: real)
    ensures -(w as real) / 2.0 <= v < w / 2.0
  {
    ScaledBelow(r, w);
    r * w - w / 2.0
  }

  lemma ScaledBelow(r: Unit, w: Extent)
    ensures 0.0 <= r * w < w
  {
    assert w - r * w == (1.0 - r) * w;
  }

  /** Dividing a multiple of three by three. */
  lemma ThirdOfMultiple(n: int, m: int)
    requires n == 3 * m
    ensures n / 3 == m
  {
  }

  // ---- src/9.js ----

  /**
   * What createGrass(offsetX, offsetZ) of src/9.js reads besides its draws:
   * the chunk's world offset, getTerrainHeight, Math.sin and the noise field
   * of its own SimplexNoise. getTerrainHeight builds new noise on every call,
   * so `height(k, x, z)` is the height the blade whose first draw is k reads.
   */
  datatype ChunkPlacement = ChunkPlacement(
    offsetX: real, offsetZ: real,
    height: (nat, real, real) -> real, sin: real -> Sine, noise: (real, real) -> real)

  /** `0.6 + Math.abs(Math.sin(y * 0.5)) * 0.4`. */
  function HeightScale(sin: real -> Sine, y: real): (h: real)
    ensures 0.6 <= h <= 1.0
  {
    0.6 + Abs(sin(y * 0.5)) * 0.4
  }

  /** A blade scale of src/9.js lies in [0.48, 1.2). */
  lemma ScaleProduct(r: Unit, h: real)
    requires 0.6 <= h <= 1.0
    ensures 0.48 <= BladeScale(r, h) < 1.2
  {
    var a := 0.8 + r * 0.4;
    ScaleAbove(a, h);
    ScaleBelow(a, h);
    assert BladeScale(r, h) == a * h;
  }

  lemma ScaleAbove(a: real, h: real)
    requires 0.8 <= a && 0.6 <= h
    ensures 0.48 <= a * h
  {
    MulMonotone(0.8, a, h);
  }

  lemma ScaleBelow(a: real, h: real)
    requires 0.0 <= a < 1.2 && h <= 1.0
    ensures a * h < 1.2
  {
    MulMonotone(h, 1.0, a);
  }

  /** `(0.8 + Math.random() * 0.4) * heightScale`. */
  function BladeScale(r: Unit, heightScale: real): real {
    (0.8 + r * 0.4) * heightScale
  }

  /** The blade of src/9.js's loop whose first draw is k: eleven draws in all. */
  function Blade9(p: ChunkPlacement, rand: nat -> Unit, k: nat): Blade {
    Blade9Rooted(p, rand, k, Spread(rand(k), 800.0) + p.offsetX, Spread(rand(k + 1), 800.0) + p.offsetZ)
  }

  /** The blade of src/9.js whose first draw is k, once its root (x, z) is drawn. */
  function Blade9Rooted(p: ChunkPlacement, rand: nat -> Unit, k: nat, x: real, z: real): Blade {
    var y := p.height(k, x, z);
    BladeAt(x, y, z, BladeScale(rand(k + 2), HeightScale(p.sin, y)), p.noise(x * 0.1, z * 0.1), rand, k + 3)
  }

  /**
   * A blade of src/9.js roots inside its chunk (offset plus or minus half
   * of the 800-wide chunk), on the terrain, with one scale in [0.48, 1.2)
   * for all its vertices; it stands upright over its unbent root, its tip is
   * 0.4 * scale up, and every opacity and phase lies in its range.
   */
  lemma Blade9Shape(p: ChunkPlacement, rand: nat -> Unit, k: nat)
    ensures var b := Blade9(p, rand, k);
      -400.0 <= b[0].x - p.offsetX < 400.0 && -400.0 <= b[0].z - p.offsetZ < 400.0
      && b[0].y == p.height(k, b[0].x, b[0].z)
      && 0.48 <= b[0].scale < 1.2
      && b[3].y == b[0].y + 0.4 * b[0].scale
      && (forall j :: 0 <= j < 4 ==> b[j].x == b[0].x && b[j].z == b[0].z)
      && b[0].bendFactor == 0.0
      && (forall j :: 0 <= j < 4 ==> b[j].scale == b[0].scale && 0.3 <= b[j].opacity < 1.0 && 0.0 <= b[j].offset < 2.0 * PI)
  {
    Blade9RootedShape(p, rand, k, Spread(rand(k), 800.0) + p.offsetX, Spread(rand(k + 1), 800.0) + p.offsetZ);
  }

  /** The shape of a blade of src/9.js rooted at (x, z). */
  lemma Blade9RootedShape(p: ChunkPlacement, rand: nat -> Unit, k: nat, x: real, z: real)
    ensures var b := Blade9Rooted(p, rand, k, x, z);
      b[0].x == x && b[0].z == z && b[0].y == p.height(k, x, z)
      && 0.48 <= b[0].scale < 1.2
      && b[3].y == b[0].y + 0.4 * b[0].scale
      && (forall j :: 0 <= j < 4 ==> b[j].x == x && b[j].z == z)
      && b[0].bendFactor == 0.0
      && (forall j :: 0 <= j < 4 ==> b[j].scale == b[0].scale && 0.3 <= b[j].opacity < 1.0 && 0.0 <= b[j].offset < 2.0 * PI)
  {
    var y := p.height(k, x, z);
    var h := HeightScale(p.sin, y);
    ScaleProduct(rand(k + 2), h);
    BladeAtShape(x, y, z, BladeScale(rand(k + 2), h), p.noise(x * 0.1, z * 0.1), rand, k + 3);
  }

  /**
   * The segments of Blade9, from the values the loop of src/9.js computes for
   * the blade whose first draw is k.
   */
  lemma Blade9Segments(p: ChunkPlacement, rand: nat -> Unit, k: nat, x: real, z: real, y: real, scale: real)
    requires x == Spread(rand(k), 800.0) + p.offsetX && z == Spread(rand(k + 1), 800.0) + p.offsetZ
    requires y == p.height(k, x, z) && scale == BladeScale(rand(k + 2), HeightScale(p.sin, y))
    ensures Blade9(p, rand, k) == BladeAt(x, y, z, scale, p.noise(x * 0.1, z * 0.1), rand, k + 3)
  {
  }

  /** The grassCount blades of src/9.js, drawing from `start` on, eleven draws each. */
  function Blades9(p: ChunkPlacement, rand: nat -> Unit, start: nat, grassCount: nat): seq<Blade> {
    seq(grassCount, b requires 0 <= b => Blade9(p, rand, start + 11 * b))
  }

  /** One more blade of src/9.js is the one whose first draw is k = start + 11 * grassCount. */
  lemma Blades9Snoc(p: ChunkPlacement, rand: nat -> Unit, start: nat, grassCount: nat, k: nat)
    requires k == start + 11 * grassCount
    ensures Blades9(p, rand, start, grassCount + 1) == Blades9(p, rand, start, grassCount) + [Blade9(p, rand, k)]
  {
  }

  /** Blade b of the list is the one drawn from start + 11 * b. */
  lemma {:induction false} Blades9At(p: ChunkPlacement, rand: nat -> Unit, start: nat, grassCount: nat, b: nat)
    requires b < grassCount
    ensures Blades9(p, rand, start, grassCount)[b] == Blade9(p, rand, start + 11 * b)
    decreases grassCount
  {
  }

  /**
   * createGrass of src/9.js: the nested push loops, with Math.random as the
   * draws rand(start), rand(start + 1), ... The buffers are Emit of
   * grassCount blades, each with eleven draws of its own; `next` is the
   * first draw not used.
   */
  method CreateGrass9(p: ChunkPlacement, rand: nat -> Unit, start: nat, grassCount: nat)
    returns (g: GrassBuffers, next: nat)
    ensures g == Emit(Blades9(p, rand, start, grassCount))
    ensures next == start + 11 * grassCount
  {
    var vertices, offsets, indices, opacities, scales, bendFactors := [], [], [], [], [], [];
    var draw := start;
    for i := 0 to grassCount
      invariant draw == start + 11 * i
      invariant GrassBuffers(vertices, offsets, indices, opacities, scales, bendFactors)
        == Emit(Blades9(p, rand, start, i))
    {
      vertices, offsets, indices, opacities, scales, bendFactors :=
        PushBlade9(p, rand, draw, i, vertices, offsets, indices, opacities, scales, bendFactors);
      Blades9Snoc(p, rand, start, i, draw);
      EmitSnoc(Blades9(p, rand, start, i), Blade9(p, rand, draw), 4 * i);
      draw := draw + 11;
    }
    g := GrassBuffers(vertices, offsets, indices, opacities, scales, bendFactors);
    next := draw;
  }

  /**
   * One pass of the blade loop of createGrass in src/9.js, for blade i whose
   * draws start at k: a root inside the chunk, its height on the terrain and
   * a scale, and then the segment loop.
   */
  method PushBlade9(p: ChunkPlacement, rand: nat -> Unit, k: nat, i: nat,
                    vertices0: seq<real>, offsets0: seq<real>, indices0: seq<int>,
                    opacities0: seq<real>, scales0: seq<real>, bendFactors0: seq<real>)
    returns (vertices: seq<real>, offsets: seq<real>, indices: seq<int>,
             opacities: seq<real>, scales: seq<real>, bendFactors: seq<real>)
    requires |vertices0| == 12 * i
    ensures GrassBuffers(vertices, offsets, indices, opacities, scales, bendFactors)
      == PushSegments(GrassBuffers(vertices0, offsets0, indices0, opacities0, scales0, bendFactors0),
           Blade9(p, rand, k), 4 * i, SegmentsPerBlade)
  {
    var localX := Spread(rand(k), 800.0);
    var localZ := Spread(rand(k + 1), 800.0);
    var x := localX + p.offsetX;
    var z := localZ + p.offsetZ;
    var y := p.height(k, x, z);
    var heightScale := HeightScale(p.sin, y);
    var scale := BladeScale(rand(k + 2), heightScale);
    Blade9Segments(p, rand, k, x, z, y, scale);
    BladeAtSegments(x, y, z, scale, p.noise(x * 0.1, z * 0.1), rand, k + 3);
    vertices, offsets, indices, opacities, scales, bendFactors :=
      PushSegments9(p, rand, Blade9(p, rand, k), k + 3, i, x, y, z, scale,
        vertices0, offsets0, indices0, opacities0, scales0, bendFactors0);
  }

  /**
   * The segment loop of createGrass in src/9.js, for blade i rooted at
   * (x, y, z): one vertex and four attributes per segment, and from the
   * second segment on the index pair `vertices.length / 3 - 2`,
   * `vertices.length / 3 - 1`. Its phases and opacities are the draws k,
   * k + 1, ..., k + 7.
   */
  method PushSegments9(p: ChunkPlacement, rand: nat -> Unit, ghost blade: Blade, k: nat, i: nat,
                       x: real, y: real, z: real, scale: real,
                       vertices0: seq<real>, offsets0: seq<real>, indices0: seq<int>,
                       opacities0: seq<real>, scales0: seq<real>, bendFactors0: seq<real>)
    returns (vertices: seq<real>, offsets: seq<real>, indices: seq<int>,
             opacities: seq<real>, scales: seq<real>, bendFactors: seq<real>)
    requires |vertices0| == 12 * i
    requires forall j :: 0 <= j < SegmentsPerBlade ==>
      blade[j] == BladeSegment(x, y, z, scale, p.noise(x * 0.1, z * 0.1), rand, k, j)
    ensures GrassBuffers(vertices, offsets, indices, opacities, scales, bendFactors)
      == PushSegments(GrassBuffers(vertices0, offsets0, indices0, opacities0, scales0, bendFactors0),
           blade, 4 * i, SegmentsPerBlade)
  {
    ghost var before := GrassBuffers(vertices0, offsets0, indices0, opacities0, scales0, bendFactors0);
    vertices, offsets, indices, opacities, scales, bendFactors :=
      vertices0, offsets0, indices0, opacities0, scales0, bendFactors0;
    for j := 0 to SegmentsPerBlade
      invariant |vertices| == 12 * i + 3 * j
      invariant GrassBuffers(vertices, offsets, indices, opacities, scales, bendFactors)
        == PushSegments(before, blade, 4 * i, j)
    {
      ghost var v0, o0, i0, p0, s0, b0 := vertices, offsets, indices, opacities, scales, bendFactors;
      var t := Progress(j);
      vertices := vertices + [x, y + 0.4 * scale * t, z];
      var noiseVal := p.noise(x * 0.1, z * 0.1);
      var bendFactor := Bend(t, noiseVal);
      bendFactors := bendFactors + [bendFactor];
      var bladeOffset := Phase(rand(k + 2 * j));
      offsets := offsets + [bladeOffset];
      var opacity := Opacity(rand(k + 2 * j + 1));
      opacities := opacities + [opacity];
      scales := scales + [scale];
      if j > 0 {
        ThirdOfMultiple(|vertices|, 4 * i + j + 1);
        indices := indices + [|vertices| / 3 - 2, |vertices| / 3 - 1];
      }
      SegmentStep(before, blade, x, y, z, scale, noiseVal, t, rand, k, 4 * i, j,
        GrassBuffers(v0, o0, i0, p0, s0, b0), GrassBuffers(vertices, offsets, indices, opacities, scales, bendFactors),
        |vertices| / 3 - 2, |vertices| / 3 - 1);
    }
  }

  /**
   * In the buffers createGrass of src/9.js fills, blade b's root vertex lies
   * inside the chunk, on the terrain height its call of getTerrainHeight
   * reads, and its tip vertex stands bladeHeight * scale above it.
   */
  lemma Blades9StandOnTerrain(p: ChunkPlacement, rand: nat -> Unit, start: nat, grassCount: nat, b: nat)
    requires b < grassCount
    ensures var g := Emit(Blades9(p, rand, start, grassCount));
      var root, tip := SegmentAt(g, 4 * b), SegmentAt(g, 4 * b + 3);
      && -400.0 <= root.x - p.offsetX < 400.0 && -400.0 <= root.z - p.offsetZ < 400.0
      && root.y == p.height(start + 11 * b, root.x, root.z)
      && tip.x == root.x && tip.z == root.z && tip.y == root.y + 0.4 * root.scale
  {
    var bs := Blades9(p, rand, start, grassCount);
    EmitSegmentsLaid(bs);
    assert SegmentAt(Emit(bs), 4 * b) == bs[b][0];
    assert SegmentAt(Emit(bs), 4 * b + 3) == bs[b][3];
    Blades9At(p, rand, start, grassCount, b);
    Blade9Shape(p, rand, start + 11 * b);
  }

  // ---- src/2.js ----

  /**
   * What createGrass of src/2.js reads besides its draws: getTerrainHeight,
   * Math.sqrt and the 3-D noise field of its own SimplexNoise. OnTerrain
   * fills in getTerrainHeight as the lookup into the terrain's positions.
   */
  datatype FieldPlacement = FieldPlacement(
    height: (real, real) -> real, sqrt: real -> NonNeg, noise3d: (real, real, real) -> real)

  /** The placement createGrass sees once createTerrain has filled `terrainPos`. */
  function OnTerrain(terrainPos: seq<Vertex>, sqrt: real -> NonNeg, noise3d: (real, real, real) -> real): FieldPlacement {
    FieldPlacement((x: real, z: real) => DenseField.HeightAt(terrainPos, x, z), sqrt, noise3d)
  }

  /**
   * On the terrain of src/2.js, a blade roots at the lookup of its own (x, z),
   * so within any bounds of the heights createTerrain stored (and 0, which
   * the lookup reads for a missing vertex).
   */
  lemma Blade2OnTerrain(terrainPos: seq<Vertex>, sqrt: real -> NonNeg, noise3d: (real, real, real) -> real,
                        rand: nat -> Unit, k: nat, lo: real, hi: real)
    requires lo <= 0.0 <= hi
    requires forall i :: 0 <= i < |terrainPos| ==> lo <= terrainPos[i].y <= hi
    ensures var b := Blade2(OnTerrain(terrainPos, sqrt, noise3d), rand, k);
      b[0].y == DenseField.HeightAt(terrainPos, b[0].x, b[0].z) && lo <= b[0].y <= hi
  {
    var p := OnTerrain(terrainPos, sqrt, noise3d);
    Blade2Shape(p, rand, k);
    var b := Blade2(p, rand, k);
    DenseField.HeightAtWithinCorners(terrainPos, b[0].x, b[0].z, lo, hi);
  }

  /** The candidate whose first draw is k is dropped by the density test. */
  predicate Rejected2(p: FieldPlacement, rand: nat -> Unit, k: nat) {
    RejectedAt(p, rand, k, Spread(rand(k), 80.0), Spread(rand(k + 1), 80.0))
  }

  /** `Math.random() > (1 - distanceFromCenter / 120)` for the candidate at (x, z) whose first draw is k. */
  predicate RejectedAt(p: FieldPlacement, rand: nat -> Unit, k: nat, x: real, z: real) {
    var distanceFromCenter: real := p.sqrt(x * x + z * z);
    rand(k + 2) > 1.0 - distanceFromCenter / 120.0
  }

  /** The blade an accepted candidate of src/2.js becomes: twelve draws in all, three of them shared with the test. */
  function Blade2(p: FieldPlacement, rand: nat -> Unit, k: nat): Blade {
    var x := Spread(rand(k), 80.0);
    var z := Spread(rand(k + 1), 80.0);
    Blade2Rooted(p, rand, k, x, p.height(x, z), z)
  }

  /** The blade of src/2.js whose first draw is k, once its root (x, y, z) is known. */
  function Blade2Rooted(p: FieldPlacement, rand: nat -> Unit, k: nat, x: real, y: real, z: real): Blade {
    BladeAt(x, y, z, 0.8 + rand(k + 3) * 0.4, p.noise3d(x * 0.1, y * 0.1, z * 0.1), rand, k + 4)
  }

  /**
   * A blade of src/2.js roots at the point its first two draws spread over
   * [-40, 40), on the terrain, with one scale in [0.8, 1.2) for all its
   * vertices; it stands upright over its unbent root, its tip is 0.4 * scale
   * up, and every opacity and phase lies in its range.
   */
  lemma Blade2Shape(p: FieldPlacement, rand: nat -> Unit, k: nat)
    ensures var b := Blade2(p, rand, k);
      b[0].x == Spread(rand(k), 80.0) && b[0].z == Spread(rand(k + 1), 80.0)
      && -40.0 <= b[0].x < 40.0 && -40.0 <= b[0].z < 40.0
      && b[0].y == p.height(b[0].x, b[0].z)
      && 0.8 <= b[0].scale < 1.2
      && b[3].y == b[0].y + 0.4 * b[0].scale
      && (forall j :: 0 <= j < 4 ==> b[j].x == b[0].x && b[j].z == b[0].z)
      && b[0].bendFactor == 0.0
      && (forall j :: 0 <= j < 4 ==> b[j].scale == b[0].scale && 0.3 <= b[j].opacity < 1.0 && 0.0 <= b[j].offset < 2.0 * PI)
  {
    var x := Spread(rand(k), 80.0);
    var z := Spread(rand(k + 1), 80.0);
    Blade2RootedShape(p, rand, k, x, p.height(x, z), z);
  }

  /** The shape of a blade of src/2.js rooted at (x, y, z). */
  lemma Blade2RootedShape(p: FieldPlacement, rand: nat -> Unit, k: nat, x: real, y: real, z: real)
    ensures var b := Blade2Rooted(p, rand, k, x, y, z);
      b[0].x == x && b[0].y == y && b[0].z == z
      && 0.8 <= b[0].scale < 1.2
      && b[3].y == y + 0.4 * b[0].scale
      && (forall j :: 0 <= j < 4 ==> b[j].x == x && b[j].z == z)
      && b[0].bendFactor == 0.0
      && (forall j :: 0 <= j < 4 ==> b[j].scale == b[0].scale && 0.3 <= b[j].opacity < 1.0 && 0.0 <= b[j].offset < 2.0 * PI)
  {
    BladeAtShape(x, y, z, 0.8 + rand(k + 3) * 0.4, p.noise3d(x * 0.1, y * 0.1, z * 0.1), rand, k + 4);
  }

  /** The segments of Blade2, from the values the loop of src/2.js computes for the candidate whose first draw is k. */
  lemma Blade2Segments(p: FieldPlacement, rand: nat -> Unit, k: nat, x: real, z: real, y: real, scale: real)
    requires x == Spread(rand(k), 80.0) && z == Spread(rand(k + 1), 80.0) && y == p.height(x, z)
    requires scale == 0.8 + rand(k + 3) * 0.4
    ensures Blade2(p, rand, k) == BladeAt(x, y, z, scale, p.noise3d(x * 0.1, y * 0.1, z * 0.1), rand, k + 4)
  {
  }

  /** The density test on the values the loop of src/2.js computes for the candidate whose first draw is k. */
  lemma Rejected2Test(p: FieldPlacement, rand: nat -> Unit, k: nat, x: real, z: real, distanceFromCenter: real)
    requires x == Spread(rand(k), 80.0) && z == Spread(rand(k + 1), 80.0)
    requires distanceFromCenter == p.sqrt(x * x + z * z)
    ensures Rejected2(p, rand, k) <==> rand(k + 2) > 1.0 - distanceFromCenter / 120.0
  {
    assert Rejected2(p, rand, k) == RejectedAt(p, rand, k, x, z);
    RejectedAtIs(p, rand, k, x, z);
  }

  lemma RejectedAtIs(p: FieldPlacement, rand: nat -> Unit, k: nat, x: real, z: real)
    ensures RejectedAt(p, rand, k, x, z) <==> rand(k + 2) > 1.0 - p.sqrt(x * x + z * z) / 120.0
  {
  }

  /**
   * The first n candidates of src/2.js drawing from `start` on: the first
   * draws of the candidates kept, in order, and the first draw not used.
   */
  function Scatter2(p: FieldPlacement, rand: nat -> Unit, start: nat, n: nat): (r: (seq<nat>, nat))
    ensures |r.0| <= n
    ensures r.1 == start + 3 * n + 9 * |r.0|
    decreases n
  {
    if n == 0 then ([], start)
    else
      var (ks, draw) := Scatter2(p, rand, start, n - 1);
      if Rejected2(p, rand, draw) then (ks, draw + 3)
      else (ks + [draw], draw + 12)
  }

  /** One more candidate: dropped after its three draws, or kept after twelve. */
  lemma Scatter2Step(p: FieldPlacement, rand: nat -> Unit, start: nat, n: nat)
    ensures var (ks, draw) := Scatter2(p, rand, start, n);
      Scatter2(p, rand, start, n + 1)
        == if Rejected2(p, rand, draw) then (ks, draw + 3) else (ks + [draw], draw + 12)
  {
  }

  /** Every kept candidate passed the density test. */
  lemma {:induction false} KeptPassedTest(p: FieldPlacement, rand: nat -> Unit, start: nat, n: nat, i: nat)
    requires i < |Scatter2(p, rand, start, n).0|
    ensures !Rejected2(p, rand, Scatter2(p, rand, start, n).0[i])
    decreases n
  {
    var ks, draw := Scatter2(p, rand, start, n - 1).0, Scatter2(p, rand, start, n - 1).1;
    var kept := Scatter2(p, rand, start, n).0;
    if Rejected2(p, rand, draw) {
      assert kept == ks;
      KeptPassedTest(p, rand, start, n - 1, i);
      assert kept[i] == ks[i];
    } else if i < |ks| {
      assert kept[i] == (ks + [draw])[i] == ks[i];
      KeptPassedTest(p, rand, start, n - 1, i);
    } else {
      assert kept[i] == (ks + [draw])[i] == draw;
    }
  }

  /** The blades of the kept candidates whose first draws are ks. */
  function Blades2(p: FieldPlacement, rand: nat -> Unit, ks: seq<nat>): (bs: seq<Blade>)
    ensures |bs| == |ks|
  {
    seq(|ks|, i requires 0 <= i < |ks| => Blade2(p, rand, ks[i]))
  }

  lemma Blades2Snoc(p: FieldPlacement, rand: nat -> Unit, ks: seq<nat>, k: nat)
    ensures Blades2(p, rand, ks + [k]) == Blades2(p, rand, ks) + [Blade2(p, rand, k)]
  {
  }

  /**
   * createGrass of src/2.js: the candidate loop with its `continue`, and
   * `idx = vertices.length / 3` as the root of each blade's index pairs.
   */
  method CreateGrass2(p: FieldPlacement, rand: nat -> Unit, start: nat, grassCount: nat)
    returns (g: GrassBuffers, next: nat)
    ensures g == Emit(Blades2(p, rand, Scatter2(p, rand, start, grassCount).0))
    ensures next == Scatter2(p, rand, start, grassCount).1
  {
    var vertices, offsets, indices, opacities, scales, bendFactors := [], [], [], [], [], [];
    var draw := start;
    for i := 0 to grassCount
      invariant draw == Scatter2(p, rand, start, i).1
      invariant GrassBuffers(vertices, offsets, indices, opacities, scales, bendFactors)
        == Emit(Blades2(p, rand, Scatter2(p, rand, start, i).0))
    {
      ghost var kept := Scatter2(p, rand, start, i).0;
      Scatter2Step(p, rand, start, i);
      var x := Spread(rand(draw), 80.0);
      var z := Spread(rand(draw + 1), 80.0);
      var y := p.height(x, z);
      var distanceFromCenter: real := p.sqrt(x * x + z * z);
      Rejected2Test(p, rand, draw, x, z, distanceFromCenter);
      if rand(draw + 2) > 1.0 - distanceFromCenter / 120.0 {
        draw := draw + 3;
        continue;
      }
      ThirdOfMultiple(|vertices|, 4 * |kept|);
      vertices, offsets, indices, opacities, scales, bendFactors :=
        PushBlade2(p, rand, draw, x, y, z, vertices, offsets, indices, opacities, scales, bendFactors);
      Blades2Snoc(p, rand, kept, draw);
      EmitSnoc(Blades2(p, rand, kept), Blade2(p, rand, draw), 4 * |kept|);
      draw := draw + 12;
    }
    g := GrassBuffers(vertices, offsets, indices, opacities, scales, bendFactors);
    next := draw;
  }

  /**
   * The rest of a pass of the candidate loop of createGrass in src/2.js,
   * once the candidate at (x, y, z) whose first draw is k has passed the
   * density test: a scale, `idx = vertices.length / 3`, and the segment loop.
   */
  method PushBlade2(p: FieldPlacement, rand: nat -> Unit, k: nat, x: real, y: real, z: real,
                    vertices0: seq<real>, offsets0: seq<real>, indices0: seq<int>,
                    opacities0: seq<real>, scales0: seq<real>, bendFactors0: seq<real>)
    returns (vertices: seq<real>, offsets: seq<real>, indices: seq<int>,
             opacities: seq<real>, scales: seq<real>, bendFactors: seq<real>)
    requires x == Spread(rand(k), 80.0) && z == Spread(rand(k + 1), 80.0) && y == p.height(x, z)
    ensures GrassBuffers(vertices, offsets, indices, opacities, scales, bendFactors)
      == PushSegments(GrassBuffers(vertices0, offsets0, indices0, opacities0, scales0, bendFactors0),
           Blade2(p, rand, k), |vertices0| / 3, SegmentsPerBlade)
  {
    var scale := 0.8 + rand(k + 3) * 0.4;
    var idx := |vertices0| / 3;
    Blade2Segments(p, rand, k, x, z, y, scale);
    BladeAtSegments(x, y, z, scale, p.noise3d(x * 0.1, y * 0.1, z * 0.1), rand, k + 4);
    vertices, offsets, indices, opacities, scales, bendFactors :=
      PushSegments2(p, rand, Blade2(p, rand, k), k + 4, idx, x, y, z, scale,
        vertices0, offsets0, indices0, opacities0, scales0, bendFactors0);
  }

  /**
   * The segment loop of createGrass in src/2.js, for a blade rooted at
   * (x, y, z) whose first vertex gets index idx: one vertex and four
   * attributes per segment, and from the second segment on the index pair
   * `idx + j - 1`, `idx + j`. Its phases and opacities are the draws k,
   * k + 1, ..., k + 7.
   */
  method PushSegments2(p: FieldPlacement, rand: nat -> Unit, ghost blade: Blade, k: nat, idx: int,
                       x: real, y: real, z: real, scale: real,
                       vertices0: seq<real>, offsets0: seq<real>, indices0: seq<int>,
                       opacities0: seq<real>, scales0: seq<real>, bendFactors0: seq<real>)
    returns (vertices: seq<real>, offsets: seq<real>, indices: seq<int>,
             opacities: seq<real>, scales: seq<real>, bendFactors: seq<real>)
    requires forall j :: 0 <= j < SegmentsPerBlade ==>
      blade[j] == BladeSegment(x, y, z, scale, p.noise3d(x * 0.1, y * 0.1, z * 0.1), rand, k, j)
    ensures GrassBuffers(vertices, offsets, indices, opacities, scales, bendFactors)
      == PushSegments(GrassBuffers(vertices0, offsets0, indices0, opacities0, scales0, bendFactors0),
           blade, idx, SegmentsPerBlade)
  {
    ghost var before := GrassBuffers(vertices0, offsets0, indices0, opacities0, scales0, bendFactors0);
    vertices, offsets, indices, opacities, scales, bendFactors :=
      vertices0, offsets0, indices0, opacities0, scales0, bendFactors0;
    for j := 0 to SegmentsPerBlade
      invariant GrassBuffers(vertices, offsets, indices, opacities, scales, bendFactors)
        == PushSegments(before, blade, idx, j)
    {
      ghost var v0, o0, i0, p0, s0, b0 := vertices, offsets, indices, opacities, scales, bendFactors;
      var t := Progress(j);
      vertices := vertices + [x, y + 0.4 * scale * t, z];
      var noiseVal := p.noise3d(x * 0.1, y * 0.1, z * 0.1);
      var bendFactor := Bend(t, noiseVal);
      bendFactors := bendFactors + [bendFactor];
      var bladeOffset := Phase(rand(k + 2 * j));
      offsets := offsets + [bladeOffset];
      var opacity := Opacity(rand(k + 2 * j + 1));
      opacities := opacities + [opacity];
      scales := scales + [scale];
      if j > 0 {
        indices := indices + [idx + j - 1, idx + j];
      }
      SegmentStep(before, blade, x, y, z, scale, noiseVal, t, rand, k, idx, j,
        GrassBuffers(v0, o0, i0, p0, s0, b0), GrassBuffers(vertices, offsets, indices, opacities, scales, bendFactors),
        idx + j - 1, idx + j);
    }
  }

  /** Candidate i of a run that starts at `start` and has rejected everything before it. */
  predicate CandidateRejected(p: FieldPlacement, rand: nat -> Unit, start: nat, i: nat) {
    Rejected2(p, rand, start + 3 * i)
  }

  /** When the density test drops every candidate, nothing is pushed to any array. */
  lemma {:induction false} AllRejectedIsEmpty(p: FieldPlacement, rand: nat -> Unit, start: nat, n: nat)
    requires forall i :: 0 <= i < n ==> CandidateRejected(p, rand, start, i)
    ensures Scatter2(p, rand, start, n) == ([], start + 3 * n)
    ensures Emit(Blades2(p, rand, Scatter2(p, rand, start, n).0)) == Empty
    decreases n
  {
    if n > 0 {
      AllRejectedIsEmpty(p, rand, start, n - 1);
      assert CandidateRejected(p, rand, start, n - 1);
    }
  }

  /**
   * A kept candidate passed the density test, so a blade of src/2.js roots
   * no farther than 120 from the centre.
   */
  lemma AcceptedWithinDensityRadius(p: FieldPlacement, rand: nat -> Unit, k: nat)
    requires !Rejected2(p, rand, k)
    ensures var x, z := Spread(rand(k), 80.0), Spread(rand(k + 1), 80.0);
      var b := Blade2(p, rand, k);
      b[0].x == x && b[0].z == z && p.sqrt(x * x + z * z) <= 120.0
  {
    var x, z := Spread(rand(k), 80.0), Spread(rand(k + 1), 80.0);
    Blade2Shape(p, rand, k);
    Rejected2Test(p, rand, k, x, z, p.sqrt(x * x + z * z));
  }
}
