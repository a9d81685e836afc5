/**
 * The chunk streaming of src/9.js. GrassScene keeps a map from chunk key to
 * chunk and the chunk coordinate the camera was last seen in. When the
 * camera's chunk changes, updateChunks keeps exactly the chunks of the 3 x 3
 * square around it whose centres lie within the view distance: it creates
 * the missing ones and removes the rest. Each frame also sets every resident
 * chunk's wind strength and advances its shader time.
 *
 * The camera position is a parameter of each operation (FlyControls moves
 * it outside this model), and so is the clock reading the wind uses.
 */
module ChunkManager {
  import opened Prelude
  import opened ChunkKey
  import Terrain
  import Grass

  /** this.chunkSize */
  const ChunkSize: int := 800
  /** this.chunksInView */
  const ChunksInView: int := 2
  /** this.maxViewDistance */
  const MaxViewDistance: real := 2000.0
  /** `Math.floor(this.chunksInView / 2)`: the half-width of the square of chunks kept around the camera. */
  const Radius: int := ChunksInView / 2
  /** The number of blades createGrass scatters over one chunk. */
  const GrassCount: nat := 50000

  /** Whether the centre of chunk (chunkX, chunkZ) lies within the view distance of the camera at (camX, camZ). */
  predicate InView(sqrt: real -> NonNeg, camX: real, camZ: real, chunkX: int, chunkZ: int) {
    var dx := (chunkX * ChunkSize) as real - camX;
    var dz := (chunkZ * ChunkSize) as real - camZ;
    sqrt(dx * dx + dz * dz) <= MaxViewDistance
  }

  /** `Math.floor(position / this.chunkSize)`: the chunk a camera coordinate lies in. */
  function ChunkOf(w: real): (c: int)
    ensures (c * ChunkSize) as real <= w < ((c + 1) * ChunkSize) as real
  {
    (w / ChunkSize as real).Floor
  }

  /**
   * Whether updateChunks, with the camera at (camX, camZ) in chunk `centre`,
   * wants chunk (x, z) resident: inside the square around `centre` and in view.
   */
  predicate Desired(sqrt: real -> NonNeg, centre: (int, int), camX: real, camZ: real, x: int, z: int) {
    centre.0 - Radius <= x <= centre.0 + Radius && centre.1 - Radius <= z <= centre.1 + Radius &&
    InView(sqrt, camX, camZ, x, z)
  }

  /** Adding Key(x, z) to a key set adds the cell (x, z) and no other cell. */
  lemma KeyAdded(keys: set<string>, x: int, z: int)
    ensures forall x', z' :: Key(x', z') in keys + {Key(x, z)} <==> Key(x', z') in keys || (x', z') == (x, z)
  {
    forall x', z' ensures Key(x', z') == Key(x, z) <==> (x', z') == (x, z) {
      KeyInjective(x', z', x, z);
    }
  }

  /** No key occurs twice in `keys`. */
  ghost predicate Distinct(keys: seq<string>) {
    forall i, j :: 0 <= i < j < |keys| ==> keys[i] != keys[j]
  }

  /** Two lists of keys without repeats, with no key in both, join into a list without repeats. */
  lemma DistinctAppend(a: seq<string>, b: seq<string>)
    requires Distinct(a) && Distinct(b)
    requires forall k :: k in a ==> k !in b
    ensures Distinct(a + b)
  {
    var c := a + b;
    forall i, j | 0 <= i < j < |c|
      ensures c[i] != c[j]
    {
      if i < |a| && |a| <= j {
        assert c[i] in a && c[j] in b;
      }
    }
  }

  /** When `keys` lists, once each, the keys `after` has and `before` has not, it lists as many as there are. */
  lemma {:induction false} CountListed(keys: seq<string>, before: set<string>, after: set<string>)
    requires Distinct(keys)
    requires forall k :: k in keys <==> k in after && k !in before
    ensures |after - before| == |keys|
    decreases |keys|
  {
    if keys == [] {
      assert after - before == {};
    } else {
      var last, rest := keys[|keys| - 1], keys[..|keys| - 1];
      assert keys == rest + [last];
      forall k ensures k in rest <==> k in after - {last} && k !in before {
        if k in rest {
          var i :| 0 <= i < |rest| && rest[i] == k;
          assert keys[i] != keys[|keys| - 1];
        }
      }
      CountListed(rest, before, after - {last});
      assert (after - {last}) - before == (after - before) - {last};
    }
  }

  /** One step of the inner loop of updateChunks, on the set of cells its keys name. */
  lemma ColumnStep(sqrt: real -> NonNeg, current: (int, int), camX: real, camZ: real, x: int, z: int,
                   newChunks: set<string>, added: set<string>, next: set<string>)
    requires current.0 - Radius <= x <= current.0 + Radius && current.1 - Radius <= z <= current.1 + Radius
    requires forall x', z' {:trigger Key(x', z') in added} :: Key(x', z') in added <==>
      Key(x', z') in newChunks || (x' == x && Desired(sqrt, current, camX, camZ, x', z') && z' < z)
    requires forall x', z' {:trigger Key(x', z') in next} :: Key(x', z') in next <==>
      Key(x', z') in added || (InView(sqrt, camX, camZ, x, z) && (x', z') == (x, z))
    ensures forall x', z' {:trigger Key(x', z') in next} :: Key(x', z') in next <==>
      Key(x', z') in newChunks || (x' == x && Desired(sqrt, current, camX, camZ, x', z') && z' < z + 1)
  {
  }

  /** The keys `created` names: the desired cells around (0, 0) of column x below row zEnd. */
  ghost predicate ColumnListed(sqrt: real -> NonNeg, camX: real, camZ: real, x: int, zEnd: int, created: seq<string>) {
    forall x', z' {:trigger Key(x', z') in created} :: Key(x', z') in created <==> x' == x && Desired(sqrt, (0, 0), camX, camZ, x', z') && z' < zEnd
  }

  /** The keys `created` names: the desired cells around (0, 0) of the columns left of xEnd. */
  ghost predicate SquareListed(sqrt: real -> NonNeg, camX: real, camZ: real, xEnd: int, created: seq<string>) {
    forall x', z' {:trigger Key(x', z') in created} :: Key(x', z') in created <==> Desired(sqrt, (0, 0), camX, camZ, x', z') && x' < xEnd
  }

  /** How createChunk(x, z) changes the resident map: one entry set when the chunk is in view, none otherwise. */
  predicate CreatedAt(before: map<string, Chunk>, after: map<string, Chunk>, x: int, z: int, inView: bool) {
    if inView then Key(x, z) in after && after == before[Key(x, z) := after[Key(x, z)]] else after == before
  }

  /** `0.3 + Math.sin(Date.now() * 0.0005) * 0.3`. */
  function WindStrength(sin: real -> Sine, now: int): (w: real)
    ensures 0.0 <= w <= 0.6
  {
    0.3 + sin(now as real * 0.0005) * 0.3
  }

  /**
   * One resident chunk: its chunk coordinate (`position`), its terrain mesh
   * positions, its grass buffers, and the two uniforms of its own grass
   * material, which animate writes every frame. `made` is the number of
   * Math.random draws taken before createChunk built it.
   */
  class Chunk {
    const x: int
    const z: int
    const terrain: seq<Vertex>
    const grass: Grass.GrassBuffers
    ghost const made: nat
    var time: real
    var windStrength: real

    /** The uniforms start as createGrass declares them: time 0 and wind strength 1. */
    constructor (x: int, z: int, terrain: seq<Vertex>, grass: Grass.GrassBuffers, ghost made: nat)
      ensures this.x == x && this.z == z && this.terrain == terrain && this.grass == grass && this.made == made
      ensures time == 0.0 && windStrength == 1.0
    {
      this.x := x;
      this.z := z;
      this.terrain := terrain;
      this.grass := grass;
      this.made := made;
      time := 0.0;
      windStrength := 1.0;
    }
  }

  /**
   * The chunk manager of GrassScene. The library randomness a chunk is built
   * from is fixed up front: `rand` is the sequence of Math.random draws and
   * `draw` counts the draws made so far. The SimplexNoise instances a new
   * chunk samples are taken at the draw count: `terrainNoise` and `grassNoise`
   * at the count when the chunk is made, for createTerrain and for the bend
   * noise of createGrass, and `heightNoise` at each blade's first draw, for
   * the getTerrainHeight call of that blade, which builds noise of its own.
   * `grassCount` is the blade count of createGrass. `plane` is the
   * PlaneGeometry the terrain starts from.
   */
  class GrassScene {
    const m: Maths
    const plane: seq<Vertex>
    const rand: nat -> Unit
    const terrainNoise: nat -> Terrain.TerrainNoise
    const heightNoise: nat -> Terrain.TerrainNoise
    const grassNoise: nat -> ((real, real) -> real)
    const grassCount: nat
    var draw: nat
    var chunks: map<string, Chunk>
    var lastChunkPosition: (int, int)

    /**
     * Every noise the height code samples can be normalised (the blend
     * weights of `terrainNoise` and of `heightNoise` never all vanish), the
     * blade count is positive, and every resident chunk is stored under the
     * key of its own position and holds the terrain and grass createChunk
     * builds for that position.
     */
    ghost predicate Valid()
      reads this`chunks
    {
      (forall i :: Terrain.Nondegenerate(terrainNoise(i))) &&
      (forall k :: Terrain.Nondegenerate(heightNoise(k))) &&
      grassCount > 0 &&
      (forall key :: key in chunks ==> key == Key(chunks[key].x, chunks[key].z)) &&
      (forall key {:trigger Made(chunks[key])} :: key in chunks ==> Made(chunks[key]))
    }

    /** What createGrass samples for a chunk at world offset (offsetX, offsetZ) made when `draw` draws were taken. */
    function Placement(offsetX: real, offsetZ: real, draw: nat): Grass.ChunkPlacement
      requires forall k :: Terrain.Nondegenerate(heightNoise(k))
    {
      Grass.ChunkPlacement(offsetX, offsetZ, (k: nat, x: real, z: real) =>
          assert Terrain.Nondegenerate(heightNoise(k)); Terrain.Elevation(m, heightNoise(k), x, z),
        m.sin, grassNoise(draw))
    }

    /**
     * The contents createChunk gives the chunk at its own position, from the
     * draws taken before it was made: the plane raised to the terrain at the
     * chunk's world offset, and the grass of createGrass at that offset.
     */
    ghost predicate Made(chunk: Chunk)
      requires Terrain.Nondegenerate(terrainNoise(chunk.made)) && forall k :: Terrain.Nondegenerate(heightNoise(k))
    {
      var offsetX, offsetZ := (chunk.x * ChunkSize) as real, (chunk.z * ChunkSize) as real;
      && |chunk.terrain| == |plane|
      && (forall i :: 0 <= i < |plane| ==>
            chunk.terrain[i] == Terrain.Raised(m, terrainNoise(chunk.made), plane[i], offsetX, offsetZ))
      && chunk.grass == Grass.Emit(Grass.Blades9(Placement(offsetX, offsetZ, chunk.made), rand, chunk.made, grassCount))
    }

    /**
     * Chunk (chunkX, chunkZ) as createChunk builds it when `d` draws have been
     * taken: its position, the uniforms at their initial values, and the
     * contents Made gives it.
     */
    ghost predicate Built(chunk: Chunk, chunkX: int, chunkZ: int, d: nat)
      requires Terrain.Nondegenerate(terrainNoise(d)) && forall k :: Terrain.Nondegenerate(heightNoise(k))
      reads chunk
    {
      && chunk.x == chunkX && chunk.z == chunkZ && chunk.made == d
      && chunk.time == 0.0 && chunk.windStrength == 1.0
      && Made(chunk)
    }

    /**
     * The grass of a chunk with the contents Made gives it, as every resident
     * chunk has: blade b roots inside the chunk's square, on getTerrainHeight
     * at its root, which is the elevation of the blade's own height noise, and
     * the vertex above the root is its tip, 0.4 * scale higher.
     */
    lemma GrassOnTerrain(chunk: Chunk, b: nat)
      requires Terrain.Nondegenerate(terrainNoise(chunk.made)) && forall k :: Terrain.Nondegenerate(heightNoise(k))
      requires Made(chunk)
      requires b < grassCount
      ensures var root, tip := Grass.SegmentAt(chunk.grass, 4 * b), Grass.SegmentAt(chunk.grass, 4 * b + 3);
        && -400.0 <= root.x - (chunk.x * ChunkSize) as real < 400.0
        && -400.0 <= root.z - (chunk.z * ChunkSize) as real < 400.0
        && root.y == Terrain.Elevation(m, heightNoise(chunk.made + 11 * b), root.x, root.z)
        && tip.x == root.x && tip.z == root.z && tip.y == root.y + 0.4 * root.scale
    {
      var offsetX, offsetZ := (chunk.x * ChunkSize) as real, (chunk.z * ChunkSize) as real;
      Grass.Blades9StandOnTerrain(Placement(offsetX, offsetZ, chunk.made), rand, chunk.made, grassCount, b);
    }

    /**
     * The constructor: the fields as it sets them, then createInitialChunks
     * with the camera where setup puts it, (0, 150) in the ground plane, then
     * the first frame of animate with the clock at `now`. The camera is still
     * in chunk (0, 0), so that frame keeps the initial chunks.
     */
    constructor (m: Maths, plane: seq<Vertex>, rand: nat -> Unit, terrainNoise: nat -> Terrain.TerrainNoise,
                 heightNoise: nat -> Terrain.TerrainNoise, grassNoise: nat -> ((real, real) -> real), now: int)
      requires forall i :: Terrain.Nondegenerate(terrainNoise(i))
      requires forall k :: Terrain.Nondegenerate(heightNoise(k))
      ensures Valid() && grassCount == GrassCount
      ensures lastChunkPosition == (0, 0)
      ensures forall x, z :: Key(x, z) in chunks.Keys <==> Desired(m.sqrt, (0, 0), 0.0, 150.0, x, z)
      ensures forall c :: c in chunks.Values ==> c.windStrength == WindStrength(m.sin, now) && c.time == 0.01
      ensures exists created :: MadeInOrder(0, draw, chunks, created) && Distinct(created) && forall k :: k in created <==> k in chunks
    {
      this.m := m;
      this.plane := plane;
      this.rand := rand;
      this.terrainNoise := terrainNoise;
      this.heightNoise := heightNoise;
      this.grassNoise := grassNoise;
      this.grassCount := GrassCount;
      draw := 0;
      chunks := map[];
      lastChunkPosition := (0, 0);
      new;
      ghost var created := CreateInitialChunks(0.0, 150.0);
      assert ChunkOf(0.0) == 0 && ChunkOf(150.0) == 0;
      ghost var none := Animate(0.0, 150.0, now);
      forall k | k in chunks
        ensures k in created
      {
        assert k == Key(chunks[k].x, chunks[k].z);
      }
      assert MadeInOrder(0, draw, chunks, created) && Distinct(created);
    }

    /** The Math.random draws createChunk takes for `chunkCount` chunks, 11 for each blade. */
    function DrawsFor(chunkCount: nat): nat {
      if chunkCount == 0 then 0 else DrawsFor(chunkCount - 1) + 11 * grassCount
    }

    /** The draws for n chunks are 11 * grassCount apiece. */
    lemma {:induction false} DrawsForIs(n: nat)
      ensures DrawsFor(n) == 11 * grassCount * n
    {
      if n > 0 {
        DrawsForIs(n - 1);
      }
    }

    /** The draws for c = a + b chunks are those for a chunks and then those for b more. */
    lemma {:induction false} DrawsForAdd(a: nat, b: nat, c: nat)
      requires c == a + b
      ensures DrawsFor(c) == DrawsFor(a) + DrawsFor(b)
    {
      if b > 0 {
        DrawsForAdd(a, b - 1, c - 1);
      }
    }

    /**
     * `created` lists keys of `after` in the order createChunk made their
     * chunks one after another from draw d0 on: the chunk of the i-th key was
     * made after the draws of i chunks, and the draws went from d0 to d1 by
     * one chunk's worth for each key. As every chunk takes draws, no key is
     * listed twice (MadeDistinct).
     */
    ghost predicate MadeInOrder(d0: nat, d1: nat, after: map<string, Chunk>, created: seq<string>) {
      && (forall k :: k in created ==> k in after)
      && (forall i :: 0 <= i < |created| ==> after[created[i]].made == d0 + DrawsFor(i))
      && d1 == d0 + DrawsFor(|created|)
    }

    /** Keys made in order from d0 on that are exactly the keys `after` holds and `before` does not. */
    ghost predicate CreatedFor(d0: nat, d1: nat, before: map<string, Chunk>, after: map<string, Chunk>, created: seq<string>) {
      && MadeInOrder(d0, d1, after, created)
      && Distinct(created)
      && (forall k :: k in created <==> k in after && k !in before)
    }

    /** Each chunk takes draws, so chunks made in order were made once each. */
    lemma MadeDistinct(d0: nat, d1: nat, after: map<string, Chunk>, created: seq<string>)
      requires grassCount > 0
      requires MadeInOrder(d0, d1, after, created)
      ensures Distinct(created)
    {
      forall i, j | 0 <= i < j < |created|
        ensures created[i] != created[j]
      {
        DrawsForIs(i);
        DrawsForIs(j);
        assert after[created[i]].made < after[created[j]].made;
      }
    }

    /** No chunk made takes no draw. */
    lemma MadeNone(d: nat, resident: map<string, Chunk>)
      ensures MadeInOrder(d, d, resident, [])
    {
    }

    /** One chunk made at draw d takes one chunk's draws. */
    lemma MadeOne(d: nat, after: map<string, Chunk>, key: string)
      requires key in after && after[key].made == d
      ensures MadeInOrder(d, d + 11 * grassCount, after, [key])
    {
    }

    /**
     * Chunks made in order from d0 to d1, still in place, then other chunks
     * made in order from d1 to d2, were made in order from d0 to d2.
     */
    lemma MadeStep(d0: nat, d1: nat, d2: nat, m1: map<string, Chunk>, m2: map<string, Chunk>, c1: seq<string>, c2: seq<string>)
      requires MadeInOrder(d0, d1, m1, c1) && MadeInOrder(d1, d2, m2, c2)
      requires forall k :: k in c1 ==> k in m2 && m2[k] == m1[k]
      requires forall k :: k in c1 ==> k !in c2
      ensures MadeInOrder(d0, d2, m2, c1 + c2)
    {
      var c := c1 + c2;
      DrawsForAdd(|c1|, |c2|, |c|);
      forall i | 0 <= i < |c|
        ensures m2[c[i]].made == d0 + DrawsFor(i)
      {
        if i < |c1| {
          assert c[i] == c1[i] && c1[i] in c1;
        } else {
          assert c[i] == c2[i - |c1|];
          DrawsForAdd(|c1|, i - |c1|, i);
        }
      }
    }

    /** Chunks made in order stay so in a map that keeps each of them. */
    lemma MadeKept(d0: nat, d1: nat, m1: map<string, Chunk>, m2: map<string, Chunk>, c: seq<string>)
      requires MadeInOrder(d0, d1, m1, c)
      requires forall k :: k in c ==> k in m2 && m2[k] == m1[k]
      ensures MadeInOrder(d0, d1, m2, c)
    {
      forall i | 0 <= i < |c|
        ensures m2[c[i]].made == d0 + DrawsFor(i)
      {
        assert c[i] in c;
      }
    }

    /** A step that adds no key lists none and draws nothing. */
    lemma CreatedNone(d: nat, resident: map<string, Chunk>)
      ensures CreatedFor(d, d, resident, resident, [])
    {
      MadeNone(d, resident);
    }

    /** A createChunk that adds one key, made at draw d, lists it and draws for one chunk. */
    lemma CreatedOne(d: nat, before: map<string, Chunk>, after: map<string, Chunk>, key: string)
      requires key !in before && key in after && after == before[key := after[key]]
      requires after[key].made == d
      ensures CreatedFor(d, d + 11 * grassCount, before, after, [key])
    {
      MadeOne(d, after, key);
    }

    /** Two steps that each list the keys they add, keeping the chunks before them, list together all the keys added. */
    lemma CreatedStep(d0: nat, d1: nat, d2: nat, m0: map<string, Chunk>, m1: map<string, Chunk>, m2: map<string, Chunk>,
                      c1: seq<string>, c2: seq<string>)
      requires forall k :: k in m0 ==> k in m1
      requires forall k :: k in m1 ==> k in m2 && m2[k] == m1[k]
      requires CreatedFor(d0, d1, m0, m1, c1) && CreatedFor(d1, d2, m1, m2, c2)
      ensures CreatedFor(d0, d2, m0, m2, c1 + c2)
    {
      MadeStep(d0, d1, d2, m1, m2, c1, c2);
      DistinctAppend(c1, c2);
    }

    /** Removing resident keys, but none that was created, keeps the list of created keys. */
    lemma CreatedKept(d0: nat, d1: nat, m0: map<string, Chunk>, m1: map<string, Chunk>, m2: map<string, Chunk>, c: seq<string>)
      requires forall k :: k in m2 ==> k in m1 && m2[k] == m1[k]
      requires forall k :: k in m1 && k !in m0 ==> k in m2
      requires CreatedFor(d0, d1, m0, m1, c)
      ensures CreatedFor(d0, d1, m0, m2, c)
    {
      MadeKept(d0, d1, m1, m2, c);
    }

    /**
     * One createChunk(x, z) of createInitialChunks extends the list of the
     * chunks its column has made, in order, by the key of (x, z) when it is in
     * view: that key is not yet listed, so the chunks listed stay in place.
     */
    lemma InitialCellListed(x: int, z: int, camX: real, camZ: real, d0: nat, d1: nat, d2: nat,
                            m1: map<string, Chunk>, m2: map<string, Chunk>, c1: seq<string>, c2: seq<string>)
      requires -Radius <= x <= Radius && -Radius <= z <= Radius
      requires MadeInOrder(d0, d1, m1, c1) && ColumnListed(m.sqrt, camX, camZ, x, z, c1)
      requires MadeInOrder(d1, d2, m2, c2) && c2 == if InView(m.sqrt, camX, camZ, x, z) then [Key(x, z)] else []
      requires CreatedAt(m1, m2, x, z, InView(m.sqrt, camX, camZ, x, z))
      ensures forall k :: k in c1 ==> k in m2 && m2[k] == m1[k]
      ensures MadeInOrder(d0, d2, m2, c1 + c2) && ColumnListed(m.sqrt, camX, camZ, x, z + 1, c1 + c2)
    {
      assert Key(x, z) !in c1;
      MadeStep(d0, d1, d2, m1, m2, c1, c2);
      forall x', z' ensures Key(x', z') == Key(x, z) <==> (x', z') == (x, z) {
        KeyInjective(x', z', x, z);
      }
    }

    /**
     * One column of createInitialChunks extends the list of the chunks made so
     * far, in order, by those of the column: a key listed before names a cell
     * of an earlier column, so it is not listed again and its chunk stays.
     */
    lemma InitialColumnListed(x: int, camX: real, camZ: real, d0: nat, d1: nat, d2: nat,
                              m1: map<string, Chunk>, m2: map<string, Chunk>, c1: seq<string>, c2: seq<string>)
      requires forall k :: k in m1 ==> k == Key(m1[k].x, m1[k].z)
      requires MadeInOrder(d0, d1, m1, c1) && SquareListed(m.sqrt, camX, camZ, x, c1)
      requires MadeInOrder(d1, d2, m2, c2) && ColumnListed(m.sqrt, camX, camZ, x, Radius + 1, c2)
      requires forall k :: k in m1 && k !in c2 ==> k in m2 && m2[k] == m1[k]
      ensures forall k :: k in c1 ==> k in m2 && m2[k] == m1[k]
      ensures MadeInOrder(d0, d2, m2, c1 + c2) && SquareListed(m.sqrt, camX, camZ, x + 1, c1 + c2)
    {
      forall k | k in c1
        ensures k !in c2 && k in m2 && m2[k] == m1[k]
      {
        assert k == Key(m1[k].x, m1[k].z);
      }
      MadeStep(d0, d1, d2, m1, m2, c1, c2);
    }

    /** The draws for the listed keys are the draws for every key added. */
    lemma CreatedCount(d0: nat, d1: nat, before: map<string, Chunk>, after: map<string, Chunk>, created: seq<string>)
      requires CreatedFor(d0, d1, before, after, created)
      ensures d1 == d0 + DrawsFor(|after.Keys - before.Keys|)
    {
      CountListed(created, before.Keys, after.Keys);
    }

    /**
     * createChunk(chunkX, chunkZ): nothing when the chunk centre is beyond the
     * view distance; otherwise a new chunk, with the terrain and grass built
     * at the chunk's world offset, stored under its key (replacing any chunk
     * stored there).
     */
    method CreateChunk(chunkX: int, chunkZ: int, camX: real, camZ: real)
      requires Valid()
      modifies this
      ensures Valid()
      ensures lastChunkPosition == old(lastChunkPosition)
      ensures !InView(m.sqrt, camX, camZ, chunkX, chunkZ) ==> chunks == old(chunks) && draw == old(draw)
      ensures InView(m.sqrt, camX, camZ, chunkX, chunkZ) ==>
        var key := Key(chunkX, chunkZ);
        && key in chunks && chunks == old(chunks)[key := chunks[key]]
        && fresh(chunks[key]) && chunks[key].time == 0.0
        && Built(chunks[key], chunkX, chunkZ, old(draw))
        && draw == old(draw) + 11 * grassCount
    {
      if !InView(m.sqrt, camX, camZ, chunkX, chunkZ) {
        return;
      }
      var chunk, next := BuildChunk(chunkX, chunkZ, draw);
      chunks := chunks[Key(chunkX, chunkZ) := chunk];
      draw := next;
    }

    /**
     * The body of createChunk once the chunk is in view: createTerrain and
     * createGrass at the chunk's world offset, from the draws after the first
     * `d`, and the chunk that holds them.
     */
    method BuildChunk(chunkX: int, chunkZ: int, d: nat) returns (chunk: Chunk, next: nat)
      requires Terrain.Nondegenerate(terrainNoise(d)) && forall k :: Terrain.Nondegenerate(heightNoise(k))
      ensures fresh(chunk) && Built(chunk, chunkX, chunkZ, d)
      ensures next == d + 11 * grassCount
    {
      var offsetX, offsetZ := (chunkX * ChunkSize) as real, (chunkZ * ChunkSize) as real;
      var terrain := Terrain.CreateTerrain(m, terrainNoise(d), plane, offsetX, offsetZ);
      var grass;
      grass, next := Grass.CreateGrass9(Placement(offsetX, offsetZ, d), rand, d, grassCount);
      chunk := new Chunk(chunkX, chunkZ, terrain[..], grass, d);
    }

    /** removeChunk(chunkX, chunkZ): the chunk under the key is dropped; nothing changes when there is none. */
    method RemoveChunk(chunkX: int, chunkZ: int)
      requires Valid()
      modifies this
      ensures Valid()
      ensures chunks == old(chunks) - {Key(chunkX, chunkZ)}
      ensures Key(chunkX, chunkZ) !in old(chunks) ==> chunks == old(chunks)
      ensures draw == old(draw) && lastChunkPosition == old(lastChunkPosition)
    {
      var key := Key(chunkX, chunkZ);
      if key in chunks {
        chunks := chunks - {key};
      }
    }

    /**
     * createInitialChunks: createChunk for every chunk of the square of
     * half-width Radius around chunk (0, 0). As createChunk sets its key
     * unconditionally, every such chunk in view is new, even one that was
     * already resident; every other resident chunk is left as it was. The
     * chunks are made one after another, so `created` lists the keys of the
     * chunks in view in the order their draws were taken.
     */
    method CreateInitialChunks(camX: real, camZ: real) returns (ghost created: seq<string>)
      requires Valid()
      modifies this
      ensures Valid()
      ensures lastChunkPosition == old(lastChunkPosition)
      ensures forall x, z :: Key(x, z) in chunks.Keys <==>
        Key(x, z) in old(chunks).Keys || Desired(m.sqrt, (0, 0), camX, camZ, x, z)
      ensures forall x, z :: Desired(m.sqrt, (0, 0), camX, camZ, x, z) ==>
        fresh(chunks[Key(x, z)]) && chunks[Key(x, z)].time == 0.0
      ensures forall x, z :: Key(x, z) in old(chunks) && !Desired(m.sqrt, (0, 0), camX, camZ, x, z) ==>
        chunks[Key(x, z)] == old(chunks)[Key(x, z)]
      ensures forall k :: k in chunks ==> (k in old(chunks) && chunks[k] == old(chunks)[k]) || (fresh(chunks[k]) && chunks[k].time == 0.0)
      ensures MadeInOrder(old(draw), draw, chunks, created) && Distinct(created)
      ensures forall x, z :: Key(x, z) in created <==> Desired(m.sqrt, (0, 0), camX, camZ, x, z)
    {
      created := [];
      var x := -Radius;
      while x <= Radius
        invariant -Radius <= x <= Radius + 1
        invariant Valid()
        invariant lastChunkPosition == old(lastChunkPosition)
        invariant forall k :: k in old(chunks) || k in created ==> k in chunks
        invariant forall k :: k in chunks ==>
                    if k in created then fresh(chunks[k]) && chunks[k].time == 0.0 else k in old(chunks) && chunks[k] == old(chunks)[k]
        invariant MadeInOrder(old(draw), draw, chunks, created)
        invariant SquareListed(m.sqrt, camX, camZ, x, created)
      {
        ghost var before, drawn := chunks, draw;
        assert forall k :: k in before ==> k == Key(before[k].x, before[k].z);
        ghost var column := InitialColumn(x, camX, camZ);
        InitialColumnListed(x, camX, camZ, old(draw), drawn, draw, before, chunks, created, column);
        created := created + column;
        x := x + 1;
      }
      forall x, z | Desired(m.sqrt, (0, 0), camX, camZ, x, z)
        ensures fresh(chunks[Key(x, z)]) && chunks[Key(x, z)].time == 0.0
      {
        assert Key(x, z) in created;
      }
      MadeDistinct(old(draw), draw, chunks, created);
    }

    /**
     * The inner loop of createInitialChunks: createChunk for every z of the
     * square, in column x. The desired cells of the column get new chunks,
     * listed in the order they are made; every other chunk stays as it was.
     */
    method InitialColumn(x: int, camX: real, camZ: real) returns (ghost created: seq<string>)
      requires Valid()
      requires -Radius <= x <= Radius
      modifies this
      ensures Valid()
      ensures lastChunkPosition == old(lastChunkPosition)
      ensures forall k :: k in chunks <==> k in old(chunks) || k in created
      ensures forall k :: k in old(chunks) && k !in created ==> chunks[k] == old(chunks)[k]
      ensures forall k :: k in created ==> fresh(chunks[k]) && chunks[k].time == 0.0
      ensures MadeInOrder(old(draw), draw, chunks, created)
      ensures ColumnListed(m.sqrt, camX, camZ, x, Radius + 1, created)
    {
      created := [];
      var z := -Radius;
      while z <= Radius
        invariant -Radius <= z <= Radius + 1
        invariant Valid()
        invariant lastChunkPosition == old(lastChunkPosition)
        invariant forall k :: k in chunks <==> k in old(chunks) || k in created
        invariant forall k :: k in old(chunks) && k !in created ==> chunks[k] == old(chunks)[k]
        invariant forall k :: k in created ==> fresh(chunks[k]) && chunks[k].time == 0.0
        invariant MadeInOrder(old(draw), draw, chunks, created)
        invariant ColumnListed(m.sqrt, camX, camZ, x, z, created)
      {
        ghost var before, drawn := chunks, draw;
        ghost var cell := InitialCell(x, z, camX, camZ);
        InitialCellListed(x, z, camX, camZ, old(draw), drawn, draw, before, chunks, created, cell);
        created := created + cell;
        z := z + 1;
      }
    }

    /**
     * One iteration of the inner loop of createInitialChunks: createChunk(x, z),
     * which sets the key of a chunk in view to a new chunk whether or not one
     * was resident there.
     */
    method InitialCell(x: int, z: int, camX: real, camZ: real) returns (ghost created: seq<string>)
      requires Valid()
      modifies this
      ensures Valid()
      ensures lastChunkPosition == old(lastChunkPosition)
      ensures CreatedAt(old(chunks), chunks, x, z, InView(m.sqrt, camX, camZ, x, z))
      ensures InView(m.sqrt, camX, camZ, x, z) ==> fresh(chunks[Key(x, z)]) && chunks[Key(x, z)].time == 0.0
      ensures InView(m.sqrt, camX, camZ, x, z) ==> Built(chunks[Key(x, z)], x, z, old(draw))
      ensures created == if InView(m.sqrt, camX, camZ, x, z) then [Key(x, z)] else []
      ensures MadeInOrder(old(draw), draw, chunks, created)
    {
      CreateChunk(x, z, camX, camZ);
      if InView(m.sqrt, camX, camZ, x, z) {
        created := [Key(x, z)];
        MadeOne(old(draw), chunks, Key(x, z));
      } else {
        created := [];
        MadeNone(draw, chunks);
      }
    }

    /**
     * updateChunks with the camera at (camX, camZ): nothing when the camera is
     * still in the chunk it was last seen in; otherwise the resident chunks
     * become exactly the desired ones around the camera's chunk, a chunk that
     * stays resident keeps its object, and every other resident chunk is new.
     */
    method UpdateChunks(camX: real, camZ: real) returns (ghost created: seq<string>)
      requires Valid()
      modifies this
      ensures Valid()
      ensures var current := (ChunkOf(camX), ChunkOf(camZ));
        if current == old(lastChunkPosition) then
          chunks == old(chunks) && draw == old(draw) && lastChunkPosition == old(lastChunkPosition) && created == []
        else
          && lastChunkPosition == current
          && (forall x, z :: Key(x, z) in chunks <==> Desired(m.sqrt, current, camX, camZ, x, z))
          && (forall k :: k in chunks && k in old(chunks) ==> chunks[k] == old(chunks)[k])
          && (forall k :: k in chunks && k !in old(chunks) ==> fresh(chunks[k]) && chunks[k].time == 0.0)
      ensures CreatedFor(old(draw), draw, old(chunks), chunks, created)
    {
      created := [];
      var currentChunkX, currentChunkZ := ChunkOf(camX), ChunkOf(camZ);
      if currentChunkX == lastChunkPosition.0 && currentChunkZ == lastChunkPosition.1 {
        CreatedNone(draw, chunks);
        return;
      }
      var current := (currentChunkX, currentChunkZ);
      var newChunks;
      newChunks, created := CreateMissing(current, camX, camZ);
      ghost var kept := chunks;
      RemoveUnwanted(newChunks);
      lastChunkPosition := current;
      assert forall k :: k in chunks ==> k in kept;
      CreatedKept(old(draw), draw, old(chunks), kept, chunks, created);
    }

    /**
     * The first half of updateChunks: the nested loops over the square around
     * `current`, collecting the keys of the chunks in view into newChunks and
     * creating each one that is not resident (`!this.chunks.has(key)`).
     */
    method CreateMissing(current: (int, int), camX: real, camZ: real) returns (newChunks: set<string>, ghost created: seq<string>)
      requires Valid()
      modifies this
      ensures Valid()
      ensures lastChunkPosition == old(lastChunkPosition)
      ensures forall x, z :: Key(x, z) in newChunks <==> Desired(m.sqrt, current, camX, camZ, x, z)
      ensures newChunks <= chunks.Keys
      ensures forall k :: k in chunks ==> k in newChunks || k in old(chunks)
      ensures forall k :: k in old(chunks) ==> k in chunks && chunks[k] == old(chunks)[k]
      ensures forall k :: k in chunks && k !in old(chunks) ==> fresh(chunks[k]) && chunks[k].time == 0.0
      ensures CreatedFor(old(draw), draw, old(chunks), chunks, created)
    {
      newChunks, created := {}, [];
      var x := current.0 - Radius;
      while x <= current.0 + Radius
        invariant current.0 - Radius <= x <= current.0 + Radius + 1
        invariant Valid()
        invariant lastChunkPosition == old(lastChunkPosition)
        invariant forall x', z' {:trigger Key(x', z') in newChunks} :: Key(x', z') in newChunks <==> Desired(m.sqrt, current, camX, camZ, x', z') && x' < x
        invariant newChunks <= chunks.Keys
        invariant forall k :: k in chunks ==> k in newChunks || k in old(chunks)
        invariant forall k :: k in old(chunks) ==> k in chunks && chunks[k] == old(chunks)[k]
        invariant forall k :: k in chunks && k !in old(chunks) ==> fresh(chunks[k]) && chunks[k].time == 0.0
        invariant CreatedFor(old(draw), draw, old(chunks), chunks, created)
      {
        ghost var resident, drawn, column := chunks, draw, [];
        newChunks, column := VisitColumn(current, x, camX, camZ, newChunks);
        CreatedStep(old(draw), drawn, draw, old(chunks), resident, chunks, created, column);
        created := created + column;
        x := x + 1;
      }
    }

    /** The inner loop of updateChunks: VisitCell for every z of the square, in column x. */
    method VisitColumn(current: (int, int), x: int, camX: real, camZ: real, newChunks: set<string>)
      returns (added: set<string>, ghost created: seq<string>)
      requires Valid()
      requires current.0 - Radius <= x <= current.0 + Radius
      requires newChunks <= chunks.Keys
      modifies this
      ensures Valid()
      ensures lastChunkPosition == old(lastChunkPosition)
      ensures forall x', z' {:trigger Key(x', z') in added} :: Key(x', z') in added <==>
        Key(x', z') in newChunks || (x' == x && Desired(m.sqrt, current, camX, camZ, x', z'))
      ensures added <= chunks.Keys
      ensures forall k :: k in chunks ==> k in added || k in old(chunks)
      ensures forall k :: k in old(chunks) ==> k in chunks && chunks[k] == old(chunks)[k]
      ensures forall k :: k in chunks && k !in old(chunks) ==> fresh(chunks[k]) && chunks[k].time == 0.0
      ensures CreatedFor(old(draw), draw, old(chunks), chunks, created)
    {
      added, created := newChunks, [];
      var z := current.1 - Radius;
      while z <= current.1 + Radius
        invariant current.1 - Radius <= z <= current.1 + Radius + 1
        invariant Valid()
        invariant lastChunkPosition == old(lastChunkPosition)
        invariant forall x', z' {:trigger Key(x', z') in added} :: Key(x', z') in added <==>
          Key(x', z') in newChunks || (x' == x && Desired(m.sqrt, current, camX, camZ, x', z') && z' < z)
        invariant added <= chunks.Keys
        invariant forall k :: k in chunks ==> k in added || k in old(chunks)
        invariant forall k :: k in old(chunks) ==> k in chunks && chunks[k] == old(chunks)[k]
        invariant forall k :: k in chunks && k !in old(chunks) ==> fresh(chunks[k]) && chunks[k].time == 0.0
        invariant CreatedFor(old(draw), draw, old(chunks), chunks, created)
      {
        ghost var before, resident, drawn, cell := added, chunks, draw, [];
        added, cell := VisitCell(x, z, camX, camZ, added);
        CreatedStep(old(draw), drawn, draw, old(chunks), resident, chunks, created, cell);
        created := created + cell;
        ColumnStep(m.sqrt, current, camX, camZ, x, z, newChunks, before, added);
        z := z + 1;
      }
    }

    /**
     * One iteration of the inner loop of updateChunks: a chunk in view has its
     * key added to newChunks, and is created when it is not resident.
     */
    method VisitCell(x: int, z: int, camX: real, camZ: real, newChunks: set<string>)
      returns (added: set<string>, ghost created: seq<string>)
      requires Valid()
      requires newChunks <= chunks.Keys
      modifies this
      ensures Valid()
      ensures lastChunkPosition == old(lastChunkPosition)
      ensures forall x', z' {:trigger Key(x', z') in added} :: Key(x', z') in added <==>
        Key(x', z') in newChunks || (InView(m.sqrt, camX, camZ, x, z) && (x', z') == (x, z))
      ensures added <= chunks.Keys
      ensures forall k :: k in chunks ==> k in added || k in old(chunks)
      ensures forall k :: k in old(chunks) ==> k in chunks && chunks[k] == old(chunks)[k]
      ensures forall k :: k in chunks && k !in old(chunks) ==> fresh(chunks[k]) && chunks[k].time == 0.0
      ensures CreatedFor(old(draw), draw, old(chunks), chunks, created)
    {
      added, created := newChunks, [];
      if InView(m.sqrt, camX, camZ, x, z) {
        var key := Key(x, z);
        KeyAdded(newChunks, x, z);
        added := newChunks + {key};
        if key !in chunks {
          CreateChunk(x, z, camX, camZ);
          created := [key];
          CreatedOne(old(draw), old(chunks), chunks, key);
          return;
        }
      }
      CreatedNone(draw, chunks);
    }

    /**
     * The second half of updateChunks: every resident chunk whose key is not
     * in newChunks is removed, by the coordinate its key reads back as.
     */
    method RemoveUnwanted(newChunks: set<string>)
      requires Valid()
      requires newChunks <= chunks.Keys
      modifies this
      ensures Valid()
      ensures chunks.Keys == newChunks
      ensures forall k :: k in chunks ==> chunks[k] == old(chunks)[k]
      ensures draw == old(draw) && lastChunkPosition == old(lastChunkPosition)
    {
      var pending := chunks.Keys;
      while pending != {}
        invariant Valid()
        invariant pending <= chunks.Keys
        invariant newChunks <= chunks.Keys
        invariant forall k :: k in chunks ==> k in pending || k in newChunks
        invariant forall k :: k in chunks ==> k in old(chunks) && chunks[k] == old(chunks)[k]
        invariant draw == old(draw) && lastChunkPosition == old(lastChunkPosition)
        decreases pending
      {
        var key :| key in pending;
        if key !in newChunks {
          var chunk := chunks[key];
          KeyRoundTrip(chunk.x, chunk.z);
          var position := Decode(key).value;
          RemoveChunk(position.0, position.1);
        }
        pending := pending - {key};
      }
    }

    /** The wind loop of animate: every resident chunk gets the frame's wind strength and its time advances by 0.01. */
    method UpdateWind(now: int)
      modifies chunks.Values
      ensures forall c :: c in chunks.Values ==> c.windStrength == WindStrength(m.sin, now) && c.time == old(c.time) + 0.01
    {
      var windStrength := WindStrength(m.sin, now);
      var pending := chunks.Values;
      while pending != {}
        invariant pending <= chunks.Values
        invariant forall c :: c in chunks.Values && c !in pending ==> c.windStrength == windStrength && c.time == old(c.time) + 0.01
        invariant forall c :: c in pending ==> c.time == old(c.time)
        decreases pending
      {
        var chunk :| chunk in pending;
        chunk.windStrength := windStrength;
        chunk.time := chunk.time + 0.01;
        pending := pending - {chunk};
      }
    }

    /**
     * One frame of animate with the camera at (camX, camZ) and the clock at
     * `now`: updateChunks, then the wind loop over the chunks then resident.
     */
    method Animate(camX: real, camZ: real, now: int) returns (ghost created: seq<string>)
      requires Valid()
      modifies this, chunks.Values
      ensures Valid()
      ensures var current := (ChunkOf(camX), ChunkOf(camZ));
        current != old(lastChunkPosition) ==>
          lastChunkPosition == current && forall x, z :: Key(x, z) in chunks <==> Desired(m.sqrt, current, camX, camZ, x, z)
      ensures (ChunkOf(camX), ChunkOf(camZ)) == old(lastChunkPosition) ==>
        chunks == old(chunks) && lastChunkPosition == old(lastChunkPosition) && draw == old(draw) && created == []
      ensures CreatedFor(old(draw), draw, old(chunks), chunks, created)
      ensures forall c :: c in chunks.Values ==> c.windStrength == WindStrength(m.sin, now)
      ensures forall c :: c in chunks.Values && c in old(chunks.Values) ==> c.time == old(c.time) + 0.01
      ensures forall c :: c in chunks.Values && c !in old(chunks.Values) ==> c.time == 0.01
      ensures forall k :: k in chunks && k in old(chunks) ==> chunks[k] == old(chunks)[k]
      ensures forall k :: k in chunks && k !in old(chunks) ==> fresh(chunks[k])
    {
      created := UpdateChunks(camX, camZ);
      UpdateWind(now);
    }
  }
}
