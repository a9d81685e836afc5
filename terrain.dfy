/**
 * The elevation function of src/9.js, written out twice in the source (the
 * vertex loop of createTerrain and getTerrainHeight, which have the same
 * text): five landform heights blended by squared, normalised noise weights,
 * a height-dependent detail term, and a floor that rises towards the edge
 * of the world. Noise and the Math functions are parameters.
 */
module Terrain {
  import opened Prelude

  /** The two SimplexNoise instances the height code samples. */
  datatype TerrainNoise = TerrainNoise(simplex: (real, real) -> real, blend: (real, real) -> real)

  /** The landform patterns, in the order their keys are written (and so visited). */
  datatype Pattern = Bowl | Waves | Crater | Spiral | Ridges

  const Patterns: seq<Pattern> := [Bowl, Waves, Crater, Spiral, Ridges]

  /** Position of a pattern in the blend: its blend noise is sampled 100 * Slot units along x. */
  function Slot(p: Pattern): nat {
    match p
    case Bowl => 0
    case Waves => 1
    case Crater => 2
    case Spiral => 3
    case Ridges => 4
  }

  /** Math.max(0, Math.pow(blendNoise.noise(x * 0.02 + offset, z * 0.02), 2)). */
  function RawWeight(n: TerrainNoise, x: real, z: real, p: Pattern): (w: real)
    ensures w >= 0.0
  {
    var v := n.blend(x * 0.02 + 100.0 * Slot(p) as real, z * 0.02);
    Max(0.0, v * v)
  }

  function RawWeights(n: TerrainNoise, x: real, z: real): (ws: seq<real>)
    ensures |ws| == |Patterns|
    ensures forall i :: 0 <= i < |ws| ==> ws[i] >= 0.0
  {
    seq(|Patterns|, i requires 0 <= i < |Patterns| => RawWeight(n, x, z, Patterns[i]))
  }

  /** `reduce((a, b) => a + b, 0)`: the sum, added up from the left. */
  function Sum(s: seq<real>): real
    decreases |s|
  {
    if s == [] then 0.0 else Sum(s[..|s| - 1]) + s[|s| - 1]
  }

  /** totalBlend. */
  function TotalBlend(n: TerrainNoise, x: real, z: real): real {
    Sum(RawWeights(n, x, z))
  }

  /** Noise whose blend weights never all vanish, so that normalising never divides by zero. */
  ghost predicate Nondegenerate(n: TerrainNoise) {
    forall x: real, z: real :: TotalBlend(n, x, z) > 0.0
  }

  /** Every weight divided by total, as `blend[key] /= totalBlend` leaves them. */
  function Normalized(w: seq<real>, total: real): (r: seq<real>)
    requires total != 0.0
    ensures |r| == |w|
  {
    seq(|w|, i requires 0 <= i < |w| => w[i] / total)
  }

  /**
   * The forEach over the keys of `blend` in place: each weight divided by the
   * total, which was summed before the loop.
   */
  method NormalizeBlend(blend: array<real>)
    requires Sum(blend[..]) != 0.0
    modifies blend
    ensures blend[..] == Normalized(old(blend[..]), Sum(old(blend[..])))
  {
    var totalBlend := Sum(blend[..]);
    var i := 0;
    while i < blend.Length
      invariant 0 <= i <= blend.Length
      invariant forall k :: 0 <= k < i ==> blend[k] == old(blend[k]) / totalBlend
      invariant forall k :: i <= k < blend.Length ==> blend[k] == old(blend[k])
    {
      blend[i] := blend[i] / totalBlend;
      i := i + 1;
    }
  }

  lemma {:induction false} SumOfNormalized(w: seq<real>, total: real)
    requires total != 0.0
    ensures Sum(Normalized(w, total)) == Sum(w) / total
    decreases |w|
  {
    if w != [] {
      var init := w[..|w| - 1];
      assert Normalized(w, total)[..|w| - 1] == Normalized(init, total);
      SumOfNormalized(init, total);
    }
  }

  lemma {:induction false} WeightBelowSum(w: seq<real>, i: nat)
    requires forall k :: 0 <= k < |w| ==> w[k] >= 0.0
    requires i < |w|
    ensures 0.0 <= w[i] <= Sum(w)
    ensures Sum(w) >= 0.0
    decreases |w|
  {
    var init := w[..|w| - 1];
    if i < |w| - 1 {
      WeightBelowSum(init, i);
    } else if init != [] {
      WeightBelowSum(init, 0);
    }
  }

  lemma QuotientAtMostOne(a: real, t: real)
    requires 0.0 <= a <= t && t > 0.0
    ensures 0.0 <= a / t <= 1.0
  {
    var q := a / t;
    assert q * t == a;
    if q > 1.0 {
      MulMonotone(1.0, q, t);
    }
    if q < 0.0 {
      MulMonotone(q, 0.0, t);
    }
  }

  /** Non-negative weights with a positive total normalise to a distribution. */
  lemma NormalizedIsDistribution(w: seq<real>)
    requires forall k :: 0 <= k < |w| ==> w[k] >= 0.0
    requires Sum(w) > 0.0
    ensures forall i :: 0 <= i < |w| ==> 0.0 <= Normalized(w, Sum(w))[i] <= 1.0
    ensures Sum(Normalized(w, Sum(w))) == 1.0
  {
    var total := Sum(w);
    forall i | 0 <= i < |w|
      ensures 0.0 <= Normalized(w, total)[i] <= 1.0
    {
      WeightBelowSum(w, i);
      QuotientAtMostOne(w[i], total);
    }
    SumOfNormalized(w, total);
    SelfQuotient(total);
  }

  lemma SelfQuotient(t: real)
    requires t > 0.0
    ensures t / t == 1.0
  {
    assert 1.0 * t == t;
  }

  /** Where the total blend is positive, the five normalised weights lie in [0, 1] and add up to 1. */
  lemma BlendWeightsNormalized(n: TerrainNoise, x: real, z: real)
    requires TotalBlend(n, x, z) > 0.0
    ensures var w := Normalized(RawWeights(n, x, z), TotalBlend(n, x, z));
      |w| == 5 && (forall i :: 0 <= i < 5 ==> 0.0 <= w[i] <= 1.0) && Sum(w) == 1.0
  {
    NormalizedIsDistribution(RawWeights(n, x, z));
  }

  /** Math.pow(distanceFromCenter / 150, 3) * 80. */
  function BowlBase(d: real): real {
    var q := d / 150.0;
    q * q * q * 80.0
  }

  /** The height of one landform pattern at (x, z). */
  function PatternHeight(m: Maths, n: TerrainNoise, x: real, z: real, p: Pattern): real {
    var d := m.sqrt(x * x + z * z);
    var angle := m.atan2(z, x);
    var bowlBase := BowlBase(d);
    match p
    case Bowl =>
      bowlBase + (n.simplex(x * 0.04, z * 0.04) * 8.0 + n.simplex(x * 0.08, z * 0.08) * 4.0)
    case Waves =>
      bowlBase * 0.7 + m.sin(d * 0.2) * 12.0 + n.simplex(x * 0.05, z * 0.05) * 3.0
    case Crater =>
      var crater1 := m.exp(-((d - 40.0) * (d - 40.0)) / 300.0) * 20.0;
      var crater2 := m.exp(-((d - 80.0) * (d - 80.0)) / 500.0) * 15.0;
      bowlBase * 0.8 + Max(crater1, crater2) + n.simplex(x * 0.06, z * 0.06) * 4.0
    case Spiral =>
      bowlBase * 0.9 + m.sin(angle * 5.0 + d * 0.1) * 15.0 + n.simplex(x * 0.05, z * 0.05) * 5.0
    case Ridges =>
      bowlBase * 0.85 + m.pow15(Abs(n.simplex(x * 0.03, z * 0.03))) * 30.0
  }

  /**
   * The craters (Math.exp is never negative) and the ridges (a power of an
   * absolute value) only ever raise their share of the bowl.
   */
  lemma PatternFloors(m: Maths, n: TerrainNoise, x: real, z: real)
    ensures var bowlBase := BowlBase(m.sqrt(x * x + z * z));
      && PatternHeight(m, n, x, z, Crater) >= bowlBase * 0.8 + n.simplex(x * 0.06, z * 0.06) * 4.0
      && PatternHeight(m, n, x, z, Ridges) >= bowlBase * 0.85
  {
  }

  function PatternHeights(m: Maths, n: TerrainNoise, x: real, z: real): (hs: seq<real>)
    ensures |hs| == |Patterns|
  {
    seq(|Patterns|, i requires 0 <= i < |Patterns| => PatternHeight(m, n, x, z, Patterns[i]))
  }

  /** `finalHeight += heights[pattern] * blend[pattern]` over the patterns, from 0. */
  function WeightedSum(hs: seq<real>, ws: seq<real>): real
    requires |hs| == |ws|
    decreases |hs|
  {
    if hs == [] then 0.0
    else WeightedSum(hs[..|hs| - 1], ws[..|ws| - 1]) + hs[|hs| - 1] * ws[|ws| - 1]
  }

  /** Raising every height while the weights stay non-negative never lowers the weighted sum. */
  lemma {:induction false} WeightedSumMonotone(hs: seq<real>, gs: seq<real>, ws: seq<real>)
    requires |hs| == |gs| == |ws|
    requires forall i :: 0 <= i < |ws| ==> ws[i] >= 0.0 && hs[i] <= gs[i]
    ensures WeightedSum(hs, ws) <= WeightedSum(gs, ws)
    decreases |hs|
  {
    if hs != [] {
      var k := |hs| - 1;
      WeightedSumMonotone(hs[..k], gs[..k], ws[..k]);
      MulMonotone(hs[k], gs[k], ws[k]);
    }
  }

  /** Weighting one height c throughout gives c times the total weight. */
  lemma {:induction false} WeightedSumOfConstant(hs: seq<real>, c: real, ws: seq<real>)
    requires |hs| == |ws|
    requires forall i :: 0 <= i < |hs| ==> hs[i] == c
    ensures WeightedSum(hs, ws) == c * Sum(ws)
    decreases |hs|
  {
    if hs != [] {
      var k := |hs| - 1;
      WeightedSumOfConstant(hs[..k], c, ws[..k]);
      assert c * Sum(ws) == c * Sum(ws[..k]) + c * ws[k];
    }
  }

  /** With non-negative weights, the weighted sum lies between lo and hi times the total weight. */
  lemma WeightedSumBounds(hs: seq<real>, ws: seq<real>, lo: real, hi: real)
    requires |hs| == |ws|
    requires forall i :: 0 <= i < |ws| ==> ws[i] >= 0.0
    requires forall i :: 0 <= i < |hs| ==> lo <= hs[i] <= hi
    ensures lo * Sum(ws) <= WeightedSum(hs, ws) <= hi * Sum(ws)
  {
    var los, his := seq(|hs|, _ => lo), seq(|hs|, _ => hi);
    WeightedSumMonotone(los, hs, ws);
    WeightedSumMonotone(hs, his, ws);
    WeightedSumOfConstant(los, lo, ws);
    WeightedSumOfConstant(his, hi, ws);
  }

  /** The blend of the five pattern heights before the detail term. */
  function BlendedHeight(m: Maths, n: TerrainNoise, x: real, z: real): real
    requires TotalBlend(n, x, z) > 0.0
  {
    WeightedSum(PatternHeights(m, n, x, z), Normalized(RawWeights(n, x, z), TotalBlend(n, x, z)))
  }

  /** The blend never leaves the range of the pattern heights it mixes. */
  lemma BlendWithinPatterns(m: Maths, n: TerrainNoise, x: real, z: real, lo: real, hi: real)
    requires TotalBlend(n, x, z) > 0.0
    requires forall p :: lo <= PatternHeight(m, n, x, z, p) <= hi
    ensures lo <= BlendedHeight(m, n, x, z) <= hi
  {
    var ws := RawWeights(n, x, z);
    var hs := PatternHeights(m, n, x, z);
    NormalizedIsDistribution(ws);
    assert forall i :: 0 <= i < |hs| ==> hs[i] == PatternHeight(m, n, x, z, Patterns[i]);
    WeightedSumBounds(hs, Normalized(ws, Sum(ws)), lo, hi);
  }

  /** Math.pow(distanceFromCenter / 200, 2) * 100. */
  function EdgeHeight(d: real): (h: real)
    ensures h >= 0.0
  {
    var q := d / 200.0;
    q * q * 100.0
  }

  /**
   * getTerrainHeight(x, z), and the height createTerrain gives the vertex at
   * world (x, z): `Math.max` with the edge floor never lets the terrain sink
   * below that floor, and so never below 0.
   */
  function Elevation(m: Maths, n: TerrainNoise, x: real, z: real): (e: real)
    requires TotalBlend(n, x, z) > 0.0
    ensures e >= EdgeHeight(m.sqrt(x * x + z * z)) >= 0.0
  {
    var d := m.sqrt(x * x + z * z);
    var blended := BlendedHeight(m, n, x, z);
    var detailNoise := n.simplex(x * 0.2, z * 0.2) * 2.0 + n.simplex(x * 0.4, z * 0.4);
    var finalHeight := blended + detailNoise * (1.0 + Abs(blended) * 0.1);
    Max(finalHeight, EdgeHeight(d))
  }

  /** The plane vertex `v` with y set to the elevation at its world position (x + offsetX, z + offsetZ); x and z are unchanged. */
  function Raised(m: Maths, n: TerrainNoise, v: Vertex, offsetX: real, offsetZ: real): Vertex
    requires Nondegenerate(n)
  {
    v.(y := Elevation(m, n, v.x + offsetX, v.z + offsetZ))
  }

  /**
   * createTerrain(offsetX, offsetZ): a copy of the plane's positions whose y
   * each vertex loop iteration overwrites (`positions.setY(i, finalHeight)`)
   * with the elevation at the vertex's world position.
   */
  method CreateTerrain(m: Maths, n: TerrainNoise, plane: seq<Vertex>, offsetX: real, offsetZ: real)
    returns (positions: array<Vertex>)
    requires Nondegenerate(n)
    ensures fresh(positions)
    ensures positions.Length == |plane|
    ensures forall i :: 0 <= i < |plane| ==> positions[i] == Raised(m, n, plane[i], offsetX, offsetZ)
  {
    positions := new Vertex[|plane|](i requires 0 <= i < |plane| => plane[i]);
    ghost var raised := seq(|plane|, k requires 0 <= k < |plane| => Raised(m, n, plane[k], offsetX, offsetZ));
    for i := 0 to positions.Length
      invariant positions[..i] == raised[..i]
      invariant positions[i..] == plane[i..]
    {
      positions[i] := Raised(m, n, positions[i], offsetX, offsetZ);
      assert positions[..i + 1] == raised[..i] + [raised[i]];
    }
    assert positions[..] == positions[..positions.Length];
  }
}
