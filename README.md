# Grass scene: chunk streaming, terrain and grass buffers

This project models the sequential logic under the rendering calls of two versions of a three.js grass scene, and proves properties of it.

- **Chunk streaming** (`src/9.js`). `GrassScene` keeps a map from the string key `"x,z"` to a chunk, and the chunk the camera was last seen in. When the camera moves to another chunk, `updateChunks` does three things:
  - it creates every missing chunk of the 3 x 3 square around the camera whose centre is within the view distance;
  - it removes every other resident chunk, decoding its key with `split(',').map(Number)`;
  - it records the new chunk position.

  Each frame, `animate` also sets every chunk's wind strength and advances its shader time.
- **Terrain of `src/9.js`**. Five landform heights are blended by squared, normalised noise weights, and a detail term is added. The result is floored by a height that rises towards the edge of the world. `createTerrain` and `getTerrainHeight` both compute this elevation.
- **Terrain of `src/2.js`**.
  - `createTerrain` writes, in place, radially faded noise into the plane's vertices.
  - `getTerrainHeight` reads that grid back by bilinear interpolation of four samples, reading any sample outside the array as 0.
- **Grass buffers** (both versions). Nested loops push a position and four attributes per vertex into parallel arrays. They also push three index pairs per blade, linking consecutive vertices of the blade. `src/2.js` adds a density test that skips a candidate blade with `continue`.

Library functions are parameters whose values the model does not compute:
- `Math.random` is a draw sequence `rand: nat -> Unit` with values in [0, 1), read through a draw counter.
- SimplexNoise fields are arbitrary functions. A chunk's terrain and bend noise are taken at the draw count when it is made. `getTerrainHeight` in `src/9.js` builds new noise on every call, so each blade reads a height noise of its own, indexed by the blade's first draw.
- `Math.sqrt`, `Math.sin`, `Math.exp`, `Math.atan2` and `Math.pow(_, 1.5)` are arbitrary functions with the range the library guarantees:
  - `Math.sqrt`, `Math.exp` and `Math.pow(_, 1.5)` are never negative (`Math.exp` can underflow to 0);
  - `Math.sin` lies in [-1, 1];
  - `Math.atan2` is an angle in [-PI, PI].
- The camera position and the clock reading `Date.now()` are arguments of the operations that read them.

Modules:
- `Prelude`: these stand-ins.
- `ChunkKey`: the key and its decoding.
- `DenseField`: the `src/2.js` terrain.
- `Terrain`: the `src/9.js` elevation.
- `Grass`: both grass builders and the buffer layout they produce.
- `ChunkManager`: the classes `Chunk` and `GrassScene`.

How the parts are modelled:
- **In-place code is imperative.** The code that changes state step by step is written as methods with loops:
  - `NormalizeBlend` and `DenseField.CreateTerrain` update arrays in place;
  - `Terrain.CreateTerrain` fills a new array;
  - the grass builders append to sequences;
  - `GrassScene` is a class whose methods reassign its map and update the chunks' uniform fields.
- **Draws follow the code.** As the code does, the phase and the opacity are drawn per vertex, not per blade. The time uniform belongs to each chunk's own grass material, so a chunk created later starts from 0.
- **Each method is proved against a function.** Each method equals a function of its inputs: `Emit` of the blades the draws describe, `Normalized`, `Raised` or `Desired`. The lemmas state what the source promises about those functions.

## Model

The rows first give the properties, then the helper lemmas the proofs go through (one loop step, one unfolding, one arithmetic fact), then the definitions those are stated about.

| member | source | states |
|---|---|---|
| Prelude.Ceil | src/2.js:84-86 | Math.ceil: the least integer not below r, which is its floor or its floor + 1 |
| ChunkKey.NatToString | src/9.js:22 | a natural number is written as a non-empty string of decimal digits |
| ChunkKey.DigitsOfNatToString | src/9.js:22 | reading the digits written for n gives n back |
| ChunkKey.IntToStringHasNoComma | src/9.js:22 | the text of an integer, minus sign included, never holds the separator used to join a key |
| ChunkKey.Split | src/9.js:95 | `split(',')` always gives at least one piece |
| ChunkKey.SplitWithoutSeparator | src/9.js:95 | a string without the separator splits into itself alone |
| ChunkKey.SplitAtFirstSeparator | src/9.js:95 | splitting a + ',' + b, when a has no comma, gives a followed by the pieces of b |
| ChunkKey.NumberOfIntToString | src/9.js:95 | `Number` of the text of an integer is that integer, negatives included |
| ChunkKey.KeyRoundTrip | src/9.js:95 | `key.split(',').map(Number)` on `getChunkKey(x, z)` gives back (x, z) for every integer pair |
| ChunkKey.KeyInjective | src/9.js:21-23 | two coordinates have the same key exactly when they are equal |
| DenseField.HeightAtGridPoint | src/2.js:83-101 | at a grid point the lookup returns the sample at flat index col + row * 101, and 0 when that index has no vertex |
| DenseField.HeightAtWithinCorners | src/2.js:95-101 | the lookup lies between any lower and upper bound of the four corner samples it reads |
| DenseField.LerpAlongRow | src/2.js:98-99 | interpolating bilinear samples along a row gives the bilinear function at the interpolated column |
| DenseField.LerpAcrossRows | src/2.js:101 | interpolating bilinear samples across two rows gives the bilinear function at the interpolated row |
| DenseField.HeightAtBilinear | src/2.js:79-101 | inside the grid, a grid sampled from a bilinear function is read back exactly, at every point and not only at grid points |
| DenseField.RadialFalloff | src/2.js:56 | the falloff lies in [0, 1] and is 0 at distance 50 or more |
| DenseField.FieldHeight | src/2.js:55-62 | a vertex at distance 50 or more from the centre gets height 0 |
| DenseField.CreateTerrain | src/2.js:50-65 | every vertex of the position array, changed in place, is raised to the faded noise height of its own (x, z), and nothing else changes |
| Terrain.RawWeight | src/9.js:192-196 | each squared blend weight is non-negative |
| Terrain.RawWeights | src/9.js:191-197 | there are five blend weights, one per pattern, all non-negative |
| Terrain.Normalized | src/9.js:201-203 | normalising keeps one weight per pattern |
| Terrain.NormalizeBlend | src/9.js:199-203 | the in-place `blend[key] /= totalBlend` loop leaves each weight divided by the total summed before the loop |
| Terrain.SumOfNormalized | src/9.js:200-203 | the normalised weights add up to the old total divided by the total |
| Terrain.NormalizedIsDistribution | src/9.js:199-203 | non-negative weights with a positive total normalise to weights in [0, 1] that add up to 1 |
| Terrain.BlendWeightsNormalized | src/9.js:191-203 | where the total blend weight is positive, the five normalised blend weights each lie in [0, 1] and add up to 1 |
| Terrain.PatternHeights | src/9.js:206-239 | there is one height per pattern, in the order of the pattern keys |
| Terrain.WeightedSumMonotone | src/9.js:242-245 | with non-negative weights, raising any pattern height never lowers `finalHeight` |
| Terrain.WeightedSumOfConstant | src/9.js:242-245 | weighting one height c throughout gives c times the total weight |
| Terrain.WeightedSumBounds | src/9.js:242-245 | with non-negative weights, the weighted sum lies between lo and hi times the total weight when every height lies in [lo, hi] |
| Terrain.BlendWithinPatterns | src/9.js:191-245 | the blended height lies within any bounds of the five pattern heights |
| Terrain.EdgeHeight | src/9.js:255 | the edge floor is non-negative |
| Terrain.Elevation | src/9.js:275-354 | getTerrainHeight, which is also the height the createTerrain loop gives a vertex: `Math.max` with the edge floor keeps it at or above that floor, and so at or above 0 |
| Terrain.PatternFloors | src/9.js:221-238 | the crater pattern is never below its bowl share plus its noise, since Math.exp is never negative, and the ridge pattern never below its bowl share, since it adds a power of an absolute value |
| Terrain.CreateTerrain | src/9.js:178-259 | a fresh copy of the plane's positions, each vertex raised to the elevation at its world position (vertex plus chunk offset) |
| Grass.PushSegments | src/9.js:383-404 | pushing j segments adds 3j position numbers, j entries to each attribute array and 2(j - 1) indices |
| Grass.Emit | src/9.js:370-405 | n blades give 4n vertices, one entry per vertex in each of the four attribute arrays, and 6n indices |
| Grass.PushKeeps | src/9.js:385-399 | pushing a blade leaves every vertex already in the buffers unchanged |
| Grass.PushAppends | src/9.js:385-399 | pushing a blade appends its segments as the next vertices, in order |
| Grass.EmitSegmentsLaid | src/9.js:370-404 | in the buffers for a list of blades, vertex 4b + j is segment j of blade b, for every b and j |
| Grass.EmitPairsLaid | src/9.js:401-403 | index pair q links vertices 4(q / 3) + q % 3 and the one after it |
| Grass.PairsStayInBlade | src/9.js:401-403 | every pair of a closed-form index list is (k, k + 1), within blade q / 3, below the vertex count |
| Grass.IndexPairsStayInBlade | src/9.js:401-403 | every index pair of the buffers links a vertex to the next vertex of the same blade, so no pair spans two blades and every index names an existing vertex |
| Grass.Opacity | src/9.js:396 | every opacity lies in [0.3, 1.0) |
| Grass.Phase | src/9.js:393 | every blade offset lies in [0, 2 PI) |
| Grass.BladeAtShape | src/9.js:383-399 | all four vertices share x, z and scale; the root sits at y, unbent, and the tip at y + 0.4 * scale; every opacity and offset lies in its range |
| Grass.Spread | src/9.js:371-372 | `Math.random() * w - w / 2` lies in [-w/2, w/2) |
| Grass.HeightScale | src/9.js:379 | the height scale lies in [0.6, 1.0] |
| Grass.ScaleProduct | src/9.js:379-380 | a blade scale of `src/9.js` lies in [0.48, 1.2) |
| Grass.Blade9Shape | src/9.js:370-399 | a blade roots within 400 of the chunk offset on each axis, at the terrain height, and has the properties of BladeAtShape with one scale in [0.48, 1.2) |
| Grass.Blade9RootedShape | src/9.js:373-399 | the same, for a blade whose root is given |
| Grass.CreateGrass9 | src/9.js:356-405 | the six arrays built by the nested loops are exactly the layout of grassCount blades, each with eleven draws of its own, and `next` is the first draw left |
| Grass.PushBlade9 | src/9.js:371-404 | one pass of the blade loop pushes that blade at root vertex 4i |
| Grass.PushSegments9 | src/9.js:383-404 | the segment loop, with pairs `vertices.length / 3 - 2` and `vertices.length / 3 - 1`, pushes the blade's four segments |
| Grass.Blades9StandOnTerrain | src/9.js:370-387 | in the buffers createGrass fills, blade b's root vertex 4b lies within 400 of the chunk offset on each axis, at the height its own getTerrainHeight call reads, and vertex 4b + 3 is its tip, on the same x and z, `bladeHeight * scale` higher |
| Grass.Blade2Shape | src/2.js:119-148 | a blade roots in [-40, 40) on each axis, on the terrain height, with one scale in [0.8, 1.2) and the properties of BladeAtShape |
| Grass.Blade2OnTerrain | src/2.js:119-121 | on the terrain of src/2.js, a blade roots at the bilinear lookup of its own (x, z), and that root height lies within any bounds of the terrain's heights that include 0 |
| Grass.Blade2RootedShape | src/2.js:127-148 | the same, for a blade whose root is given |
| Grass.Scatter2 | src/2.js:118-125 | at most n of n candidates are kept, and a run uses three draws per candidate plus nine more per kept blade |
| Grass.Blades2 | src/2.js:118-155 | one blade per kept candidate |
| Grass.KeptPassedTest | src/2.js:125 | every kept candidate passed the density test |
| Grass.CreateGrass2 | src/2.js:104-155 | the six arrays are exactly the layout of the kept candidates' blades, nothing being pushed for a rejected one, and `next` is the first draw left |
| Grass.PushBlade2 | src/2.js:127-154 | an accepted candidate is pushed at root vertex `idx = vertices.length / 3` |
| Grass.PushSegments2 | src/2.js:131-154 | the segment loop, with pairs `idx + j - 1` and `idx + j`, pushes the blade's four segments |
| Grass.AllRejectedIsEmpty | src/2.js:118-125 | when every candidate is rejected, nothing is kept and all six arrays are empty |
| Grass.AcceptedWithinDensityRadius | src/2.js:124-125 | a kept blade roots no farther than 120 from the centre |
| ChunkManager.ChunkOf | src/9.js:67-68 | the camera's chunk coordinate c satisfies c * 800 <= position < (c + 1) * 800 |
| ChunkManager.WindStrength | src/9.js:520 | the wind strength always lies in [0, 0.6] |
| ChunkManager.Chunk.constructor | src/9.js:414-418 | a new chunk's uniforms are time 0 and wind strength 1.0 |
| ChunkManager.GrassScene.GrassOnTerrain | src/9.js:370-387 | every blade b of a chunk holding the contents createChunk gives it, as every resident chunk does, roots inside the chunk's 800 x 800 square, at getTerrainHeight of its root on that blade's own noise, with its tip 0.4 * scale above |
| ChunkManager.GrassScene.constructor | src/9.js:7-19 | after the initial chunks and the first frame, the scene is valid, so every chunk holds the terrain and the 50000-blade grass createChunk builds for its own cell; the resident cells are exactly those desired around chunk (0, 0) with the camera at (0, 150); the last position is (0, 0); every chunk has the frame's wind strength and time 0.01; the resident keys, listed once each, had their chunks made one after another from draw 0, the i-th after the draws of i chunks, and the draw count stands one chunk's draws past the last |
| ChunkManager.GrassScene.CreateChunk | src/9.js:25-45 | out of view, nothing changes; in view, exactly the key's entry is set to a new chunk at that position with time 0 and wind strength 1, holding the terrain and grass built at the chunk's world offset from the draws before it, and the draw count advances by 11 * grassCount |
| ChunkManager.GrassScene.RemoveChunk | src/9.js:47-55 | the key is removed; an absent key leaves the map unchanged |
| ChunkManager.GrassScene.CreateInitialChunks | src/9.js:57-64 | the resident cells become those before plus every cell of the square around (0, 0) in view; each such cell holds a new chunk with time 0, even one that was resident before, because createChunk sets its key unconditionally; the scene stays valid, so each new chunk holds createChunk's terrain and grass for its cell; every other resident chunk is left as it was; the ghost list `created` names exactly the cells in view, once each, in the order their chunks were made: the i-th chunk was made at the old draw count plus the draws of i chunks, and the draw count advances by one chunk's draws per listed key |
| ChunkManager.GrassScene.InitialColumn | src/9.js:60-62 | one column of createInitialChunks: the resident keys become those before plus the keys `created` lists, which are exactly the column's cells in view, in the order their chunks were made, the i-th at the old draw count plus the draws of i chunks, the draw count advancing by one chunk's draws per key; each listed key holds a new chunk with time 0 and, as the scene stays valid, createChunk's terrain and grass for its cell; every other chunk is left as it was |
| ChunkManager.GrassScene.InitialCell | src/9.js:61 | one createChunk(x, z) of createInitialChunks: when (x, z) is in view, the key's entry becomes a new chunk at (x, z), made at the old draw count, with time 0, wind strength 1 and createChunk's terrain and grass for the cell, `created` is that key and the draw count advances by one chunk's draws; out of view the map and the draw count are unchanged and `created` is empty |
| ChunkManager.GrassScene.UpdateChunks | src/9.js:66-102 | if the camera's chunk is unchanged, nothing changes and no draw is taken; otherwise the last position becomes it, the resident cells are exactly the desired ones, a chunk still desired keeps its object, every other chunk is new with time 0 and holds createChunk's terrain and grass for its cell, and the new keys are listed once each with the draw count advanced by 11 * grassCount per new key |
| ChunkManager.GrassScene.CreateMissing | src/9.js:73-91 | newChunks names exactly the desired cells; every one of them is resident; old chunks are untouched; the added chunks are new, with time 0 and createChunk's contents for their cells; the added keys are listed once each, with 11 * grassCount draws per key |
| ChunkManager.GrassScene.VisitColumn | src/9.js:77-90 | one column adds exactly its desired cells to newChunks, creating those not resident as new chunks with createChunk's contents, and lists the created keys once each, with 11 * grassCount draws per key; old chunks are untouched |
| ChunkManager.GrassScene.VisitCell | src/9.js:78-89 | a cell in view is added to newChunks, and created, as a new chunk with createChunk's contents and 11 * grassCount draws, only if it is not resident; the created key, if any, is listed |
| ChunkManager.GrassScene.RemoveUnwanted | src/9.js:93-98 | the resident keys become exactly newChunks, and the chunks kept are the same objects |
| ChunkManager.GrassScene.UpdateWind | src/9.js:519-526 | every resident chunk gets the frame's wind strength, and its time rises by exactly 0.01 |
| ChunkManager.GrassScene.Animate | src/9.js:501-529 | one frame: updateChunks with the camera's position, then the wind loop; when the camera's chunk is unchanged, the map and the draw count are unchanged; otherwise the keys created are listed once each, in the order their chunks were made from the old draw count on, and the draw count advances by one chunk's draws per key; a key still resident keeps its chunk object, whose time rises by 0.01, a new key holds a new chunk whose time is 0.01, and every chunk has the frame's wind strength and createChunk's contents for its cell |
| ChunkManager.GrassScene.CreatedCount | src/9.js:84-87 | the draws recorded by a list of created keys are one chunk's worth for each key the resident map gained: the draw count rises by DrawsFor of the number of new keys |
| ChunkManager.GrassScene.DrawsForIs | src/9.js:357-372 | the draws for n chunks are 11 * grassCount * n, eleven per blade of each chunk |
| ChunkManager.CountListed | src/9.js:84-87 | a list that names each key gained once, and nothing else, is as long as the set of keys gained |
| ChunkManager.GrassScene.DrawsForAdd | src/9.js:87 | helper: the draws for a + b chunks are those for a chunks plus those for b more |
| ChunkManager.GrassScene.CreatedNone | src/9.js:84-85 | helper (loop step): a cell that creates no chunk adds no key and takes no draw |
| ChunkManager.GrassScene.CreatedOne | src/9.js:86-87 | helper (loop step): a createChunk that adds one key lists it and takes one chunk's draws |
| ChunkManager.GrassScene.CreatedStep | src/9.js:77-90 | helper (loop step): two steps that each list the keys they add, in the order made, list together every key added, once each, in the order made |
| ChunkManager.GrassScene.CreatedKept | src/9.js:93-98 | helper: the removal loop, which removes no created key, keeps the list of created keys and the draw count |
| ChunkManager.GrassScene.MadeDistinct | src/9.js:370-372 | as every chunk takes 11 * grassCount > 0 draws, chunks made in order were made once each: the list has no repeats |
| ChunkManager.GrassScene.MadeNone | src/9.js:59-62 | helper: making no chunk takes no draw |
| ChunkManager.GrassScene.MadeOne | src/9.js:36-42 | helper: one chunk made at draw d is in order from d to one chunk's draws past d |
| ChunkManager.GrassScene.MadeStep | src/9.js:59-62 | helper (loop step): chunks made in order up to d1, kept in place, then others made in order from d1, were made in order from the start |
| ChunkManager.GrassScene.MadeKept | src/9.js:59-62 | helper: chunks made in order stay so in a map that keeps each of them |
| ChunkManager.GrassScene.InitialCellListed | src/9.js:60-62 | helper (loop step): one createChunk(x, z) of createInitialChunks extends the column's list with the key of (x, z) exactly when it is in view; the chunks listed before stay in place |
| ChunkManager.GrassScene.InitialColumnListed | src/9.js:59-62 | helper (loop step): one column of createInitialChunks extends the list with the column's cells in view; no key listed before is listed again, and their chunks stay in place |
| ChunkManager.DistinctAppend | src/9.js:84-87 | helper: two lists without repeats that share no key join into a list without repeats |
| DenseField.HeightAtAsLerp | src/2.js:79-101 | helper: the lookup is the interpolation across rows of the interpolations along rows of the four corner samples |
| Grass.EmitSnoc | src/9.js:370-405 | helper (loop step): one more blade is pushed with its root index equal to the number of vertices already laid out |
| Grass.PushBladeIndices | src/9.js:401-403 | helper: a blade rooted at vertex r pushes exactly the pairs (r, r+1), (r+1, r+2), (r+2, r+3) |
| Grass.BladeAtSegments | src/9.js:383-399 | helper: the blade's vertex j is the segment the loop body computes for j |
| Grass.SegmentStep | src/9.js:384-403 | helper (loop step): one pass of the segment loop turns the arrays for j segments into those for j + 1 |
| Grass.Blade9Segments | src/9.js:371-389 | helper: the blade the loop builds from its eleven draws is the one the model names |
| Grass.Blades9At | src/9.js:370 | helper: blade b of the list is the one drawn from start + 11b |
| Grass.Blade2Segments | src/2.js:119-138 | helper: the blade the loop builds from its draws is the one the model names |
| Grass.Rejected2Test | src/2.js:124-125 | helper: the model's rejection predicate is the `continue` test on the loop's values |
| Grass.Scatter2Step | src/2.js:118-128 | helper (loop step): one more candidate is either dropped after three draws or kept after twelve |
| DenseField.LerpRising | src/2.js:98-101 | helper: interpolating from a to b with a <= b and f in [0, 1] stays in [a, b] |
| DenseField.LerpSymmetric | src/2.js:98-101 | helper: interpolating from a to b by f is interpolating from b to a by 1 - f |
| DenseField.LerpBetween | src/2.js:98-101 | helper: an interpolation with f in [0, 1] stays between any bounds of its two ends |
| DenseField.LerpAffine | src/2.js:98-101 | helper: interpolating an affine function between neighbouring grid lines reproduces it |
| Terrain.WeightBelowSum | src/9.js:200 | helper: every non-negative weight lies between 0 and the total, and the total is non-negative |
| Terrain.QuotientAtMostOne | src/9.js:202 | helper: a part of a positive total divided by that total lies in [0, 1] |
| Terrain.SelfQuotient | src/9.js:202 | helper: a positive total divided by itself is 1 |
| Grass.SegmentKept | src/9.js:385-399 | helper: appending to the arrays leaves every earlier vertex as it was |
| Grass.SegmentsLaidSnoc | src/9.js:383-404 | helper (loop step): one more blade extends the closed-form layout: vertex 4b + j is segment j of blade b |
| Grass.PairsLaidSnoc | src/9.js:401-403 | helper (loop step): one more blade's pairs extend the closed-form index layout |
| Grass.DivByFour | src/9.js:401-403 | helper: vertex 4m + r, for r < 4, belongs to blade m |
| Grass.BladeAtSegment | src/9.js:383-399 | helper: the same, for one j |
| Grass.ScaledBelow | src/9.js:371 | helper: a draw times a positive width lies in [0, width) |
| Grass.ThirdOfMultiple | src/9.js:402 | helper: `vertices.length / 3` is the vertex count, because three numbers are pushed per vertex |
| Grass.ScaleAbove | src/9.js:380 | helper: the lower bound of that product |
| Grass.ScaleBelow | src/9.js:380 | helper: the upper bound of that product |
| Grass.Blades9Snoc | src/9.js:370 | helper (loop step): the blade for loop pass i draws from start + 11i |
| Grass.Blades2Snoc | src/2.js:128-154 | helper (loop step): keeping one more candidate appends its blade |
| ChunkManager.KeyAdded | src/9.js:84-85 | helper (loop step): adding key (x, z) to the key set adds the cell (x, z) and no other |
| ChunkManager.ColumnStep | src/9.js:77-90 | helper (loop step): one pass of the inner loop adds the cell (x, z) to the collected cells exactly when it is desired |
| Grass.RejectedAtIs | src/2.js:124-125 | helper: the density test at (x, z) is `Math.random() > 1 - distanceFromCenter / 120` on the candidate's third draw |
| ChunkKey.IntToString | src/9.js:22 | definition (no contract of its own): the template literal's text of an integer, a minus sign before the digits of its magnitude; IntToStringHasNoComma and NumberOfIntToString state its properties |
| ChunkKey.Key | src/9.js:21-23 | definition: getChunkKey, the two texts joined by a comma; KeyInjective and KeyRoundTrip state its properties |
| ChunkKey.ToNumber | src/9.js:95 | definition: `Number` on the pieces that splitting a key gives, which are the texts of integers: an optionally signed digit string reads as its integer; NumberOfIntToString states its property |
| ChunkKey.Decode | src/9.js:95 | definition: `key.split(',').map(Number)` taken as the pair [x, z]; KeyRoundTrip states its property |
| DenseField.HeightAt | src/2.js:77-102 | definition: getTerrainHeight of src/2.js, the bilinear interpolation of the four corner samples; HeightAtAsLerp, HeightAtGridPoint, HeightAtWithinCorners and HeightAtBilinear state its properties |
| DenseField.Raised | src/2.js:51-64 | definition: a vertex with its y set to the faded noise height of its own (x, z); CreateTerrain is proved against it |
| Terrain.Sum | src/9.js:200 | definition: `reduce((a, b) => a + b, 0)`, summed from the left; SumOfNormalized and WeightBelowSum state its properties |
| Terrain.TotalBlend | src/9.js:200 | definition: totalBlend, the sum of the five raw weights; BlendWeightsNormalized states its role |
| Terrain.PatternHeight | src/9.js:206-239 | definition: the five landform height formulas; PatternFloors and BlendWithinPatterns state properties of them |
| Terrain.WeightedSum | src/9.js:242-245 | definition: `finalHeight += heights[pattern] * blend[pattern]` from 0; WeightedSumMonotone, WeightedSumOfConstant and WeightedSumBounds state its properties |
| Terrain.Raised | src/9.js:180-258 | definition: the plane vertex with y set to the elevation at its world position (x + offsetX, z + offsetZ), x and z unchanged; CreateTerrain is proved against it |
| Grass.PushSegment | src/9.js:385-403 | definition: the pushes of one segment, with the index pair for j > 0; PushSegments and SegmentStep state what they add |
| Grass.BladeAt | src/9.js:383-399 | definition: the four segments the segment loop computes for a root, a scale and a bend noise; BladeAtShape and BladeAtSegments state its properties |
| Grass.Blade9 | src/9.js:370-380 | definition: the blade of src/9.js drawn from draw k on; Blade9Shape and Blade9Segments state its properties |
| Grass.Blade2 | src/2.js:119-127 | definition: the blade of src/2.js drawn from draw k on; Blade2Shape and Blade2Segments state its properties |
| Grass.Rejected2 | src/2.js:119-125 | definition: the density test of the candidate whose first draw is k; Rejected2Test ties it to the loop's `continue` |
| Grass.OnTerrain | src/2.js:121 | definition: the placement whose height is getTerrainHeight read from the terrain positions; Blade2OnTerrain states what follows |
| ChunkManager.InView | src/9.js:26-35 | definition: the distance test of createChunk (and of updateChunks, lines 78-83) on the chunk centre; CreateChunk, Desired and the loops state what it decides |
| ChunkManager.Desired | src/9.js:76-83 | definition: the cells updateChunks wants, in the square around the camera's chunk and in view; UpdateChunks, CreateMissing and CreateInitialChunks are stated with it |
| Prelude.Abs | src/9.js:236 | definition: Math.abs; also used at src/9.js:252 and 379 |
| Prelude.Max | src/9.js:256 | definition: Math.max of two numbers; also used at src/9.js:225 |
| Prelude.Min | src/2.js:56 | definition: Math.min of two numbers |
| Terrain.Slot | src/9.js:192-196 | definition: the position of a pattern in the blend, whose noise is sampled 100 * Slot units further along x |
| Terrain.BowlBase | src/9.js:188 | definition: bowlBase, `Math.pow(distanceFromCenter / 150, 3) * 80`, which the landform patterns build on; PatternFloors states its role |
| Terrain.BlendedHeight | src/9.js:241-245 | definition: the weighted sum of the five pattern heights by the normalised weights; BlendWithinPatterns states its bounds |
| Grass.Blades9 | src/9.js:370 | definition: the list of grassCount blades, blade i drawn from start + 11i; Blades9At and Blades9StandOnTerrain state its properties |
| Grass.Blade9Rooted | src/9.js:373-399 | definition: the blade of src/9.js for a given root and its remaining draws; Blade9RootedShape states its properties |
| Grass.BladeScale | src/9.js:380 | definition: `(0.8 + Math.random() * 0.4) * heightScale`; ScaleProduct states its range |
| Grass.Progress | src/9.js:384 | definition: `j / (segmentsPerBlade - 1)`, the fraction of the blade up to segment j |
| Grass.Lift | src/9.js:386 | definition: the height of segment j above the root, progress times bladeHeight times scale |
| Grass.Bend | src/9.js:388-389 | definition: the bend factor `Math.pow(t, 2) * (0.3 + noiseVal * 0.2)` of a segment at progress t |
| Grass.BladeSegment | src/9.js:383-399 | definition: segment j as the loop body computes it; BladeAtSegment states that BladeAt holds it |
| Grass.Blade2Rooted | src/2.js:127-148 | definition: the blade of src/2.js for a given root and its remaining draws; Blade2RootedShape states its properties |
| Grass.RejectedAt | src/2.js:124-125 | definition: the density test at (x, z) on a draw; RejectedAtIs states it |
| Grass.CandidateRejected | src/2.js:118-125 | definition: candidate i of a run in which every earlier candidate was dropped, so its first draw is start + 3i, fails the density test; AllRejectedIsEmpty is stated with it |
| DenseField.SampleY | src/2.js:89-92 | definition: `getY(i) || 0`, the y of vertex i of the position array, 0 when the index has no vertex |
| DenseField.Corner | src/2.js:89-92 | definition: the flat index col + row * 101 of a grid corner |
| DenseField.CornerHeights | src/2.js:89-92 | definition: the four samples around a point; HeightAtWithinCorners states the lookup lies between them |
| DenseField.GridCoord | src/2.js:79-80 | definition: the world coordinate mapped to a grid coordinate, `(x + 50) / 100 * 100` |
| DenseField.Lerp | src/2.js:98-101 | definition: linear interpolation from a to b by f; LerpRising, LerpSymmetric, LerpBetween and LerpAffine state its properties |
| ChunkManager.GrassScene.Placement | src/9.js:376-390 | definition: what createGrass samples for a chunk at a world offset: getTerrainHeight on each blade's own height noise, Math.sin and the chunk's bend noise; GrassOnTerrain states what follows |
| ChunkManager.GrassScene.Made | src/9.js:37-41 | definition: the contents createChunk gives a chunk: the plane raised at the chunk's world offset and the grass of createGrass there, from the draws before it was made; Valid keeps it for every resident chunk |
| ChunkManager.GrassScene.Built | src/9.js:37-42 | definition: a chunk as createChunk builds it, with its position, its initial uniforms and the contents Made gives it; CreateChunk and BuildChunk ensure it |
| ChunkManager.GrassScene.Valid | src/9.js:37-42 | definition: the scene's invariant: every noise can be normalised, the blade count is positive (it is 50000), and every resident chunk sits under its own key holding the contents Made gives it; every method keeps it |
| ChunkManager.GrassScene.BuildChunk | src/9.js:36-41 | definition: the chunk object literal, with createTerrain and createGrass at the chunk's world offset; it ensures Built and that 11 * grassCount draws are taken |
| ChunkManager.GrassScene.DrawsFor | src/9.js:370-372 | definition: the draws createChunk takes for a number of chunks; DrawsForIs and DrawsForAdd state its properties |
| ChunkManager.GrassScene.CreatedFor | src/9.js:84-87 | definition: a list naming once each key a map gained, whose chunks were made in order (MadeInOrder) from the first draw count to the second; CreatedCount relates it to the set of new keys |
| ChunkManager.Distinct | src/9.js:84-87 | definition: a list of keys without repeats; DistinctAppend, MadeDistinct and CountListed state its properties |
| ChunkManager.GrassScene.MadeInOrder | src/9.js:36-42 | definition: the keys listed are resident, and the chunk of the i-th was made after the draws of i chunks from the first draw count, the second count being one chunk's draws per key past the first; MadeDistinct, MadeStep and MadeKept state its properties |
| ChunkManager.ColumnListed | src/9.js:60-62 | definition: the keys listed are exactly those of the cells of column x in view below row zEnd |
| ChunkManager.SquareListed | src/9.js:59-62 | definition: the keys listed are exactly those of the cells of the square in view left of column xEnd |

## Left out

- Rendering and control: the scene, camera, renderer, fog, lights, FlyControls/OrbitControls, key and resize listeners, `requestAnimationFrame` and the rotation in `animate`. Only the camera's ground-plane position matters for the model, and it is an argument.
- The GLSL shaders, which run on the GPU.
- `scene.add`/`scene.remove`, `computeVertexNormals`, `Float32BufferAttribute`, `setIndex` and the mesh objects, which are library calls. What is modelled instead:
  - a chunk holds its terrain positions and its grass arrays;
  - the position attribute is a sequence or array of vertices.
- The vertex layout of `PlaneGeometry`, which the plane argument leaves open. In three.js a plane lies in the x-y plane, so `getZ` reads 0 and `setY` overwrites the plane's own second coordinate. The model does not fix this layout.
- SimplexNoise internals. Each noise instance is an arbitrary function, and the randomness its constructor consumes is not counted among the `Math.random` draws.
- Floating point. Numbers are exact reals:
  - `Math.pow(v, 2)` and `Math.pow(v, 3)` are written as products;
  - Float32 rounding of the buffers is not modelled;
  - the NaN a zero total blend weight would give is not modelled.
- A zero total blend weight. The source divides by it. `Terrain.Elevation` and `Terrain.Raised` require a positive total. `GrassScene` keeps as part of `Valid` that every terrain noise and every height noise it samples has a positive total everywhere (`Terrain.Nondegenerate`), and its constructor requires that of its noise arguments.
- `switchTerrain`, which nothing calls, and which passes a pattern as an offset and discards the result.
- The `if (chunk.grass.material.uniforms)` test in `animate`. It always holds, because every grass material is created with uniforms.
- The order of `Map` and `Set` iteration. The removal and wind loops visit the resident set in an arbitrary order. Their results do not depend on it.
- `Math.sqrt` in the view-distance test is an arbitrary non-negative function. So the model says which chunks are desired in terms of that function, not in terms of a squared distance.
- A chunk keeps its terrain positions as a value, the sequence of raised plane vertices, not as the mesh's buffer.
- The blade count of createGrass, the constant 50000 of src/9.js:357, is the scene field `grassCount`, which the constructor sets to 50000.
- ChunkManager.GrassScene.UpdateChunks: states the draws it takes through the ghost list of the keys it created (`CreatedFor`); `CreatedCount` turns that into the count of new keys in the map.
- Terrain.PatternHeights: states only that there is one height per pattern. The five height formulas are the definition of `PatternHeight`, and the lemmas take them as given.
