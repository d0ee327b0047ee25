# survival-io-game simulation core in Dafny

This project models the simulation logic of the survival-io-game browser client, a 2D top-down
gathering game. It is written as Dafny modules, one per part of the client:

- `Types` (`types.dfy`): the shared value types.
  - positions and velocities (`Vector2`);
  - the four resource kinds and the five biomes;
  - the four-slot inventory, a class whose counts the interaction system increments in place.
- `ResourceNodes` (`resource_node.dfy`): the resource node.
  - A node is a class. Its hit counter and gathered flag are the only fields written after
    construction.
  - `hit()` is proved against the value-level step `HitStep`.
- `Noise` (`noise.dfy`): the seeded noise source.
  - The seed loop hashes the seed string's UTF-16 code units with JavaScript's `<<` and `&`.
  - `ToInt32`, `ToUint32`, left shift and bitwise and are written out as in sections 7.1.6,
    7.1.7, 13.9.1 and 13.12 of ECMA-262.
  - The seed loop is proved to compute the 32-bit `31 * seed + c` fold.
  - `noise2D` is proved to lie in [-1, 1) for any value of its sine hash.
- `WorldGen` (`world_generator.dfy`): the world generator.
  - The biome threshold chain.
  - `generateBiomes`: nested loops that fill the biome map, keyed by cell origins (multiples of 100).
  - `spawnResources` and `addResource`: nested loops that append jittered nodes per biome.
  - `getBiomeAt`, a floor-to-cell lookup.
  - `getNearbyResources`, an order-preserving filter.
  - Every loop is proved against a function of the inputs. The properties the source promises
    are lemmas about those functions: which keys the map has, which nodes each biome spawns, and
    that every spawned node is fresh and lies inside its cell.
- `Spatial` (`spatial.dfy`): the proximity queries.
  - "ungathered and within radius";
  - the nearest-node choice: a left-to-right scan in which only a strictly nearer node replaces
    the current choice.
  - Lemmas prove that this choice is the first element of the source's stable sort by distance.
- `Interaction` (`interaction.dfy`): the interaction system.
  - `attemptGather` hits the nearest node in reach. It updates the inventory and the `gathering`
    record.
  - `getNearestResource` names the same node.
  - `reset` clears the record.
  - One press is also stated on values (`Gather`). Repeated presses on a fresh node are proved to
    gather it on exactly the `hitsRequired`-th press.
- `Players` (`player.dfy`): player motion.
  - The direction from the four keys, with diagonals normalised.
  - Acceleration with a speed cap of 200, or friction with a snap to zero.
  - Then the position step.
  - `update` is a method built from its four phases, and each phase is proved against a
    function.
- `Cameras` (`camera.dfy`): the camera.
  - A smoothing step towards the centred target, clamped to the world.
  - World/screen conversions.
  - The inclusive visibility test.
- `Input` (`input_manager.dfy`): the input manager.
  - The set of held keys, changed by the keydown, keyup and blur handler bodies.
  - The queries that map the key groups to the four direction flags.
- `RealArith` (`real_arith.dfy`): small lemmas of real arithmetic that the player proofs use.

Numbers are modelled as exact reals, and distances are compared squared. The square root of
`Player.ts` is a parameter `sqrt` that must satisfy `IsSqrt`: on every non-negative x it returns
the non-negative root. `Math.sin` inside `noise2D` is an arbitrary parameter `sine`. The
`Math.random` draws are a stream `rand: nat -> real` plus a counter `drawn` of the draws used.

The scenario methods and lemmas named after the unit tests restate those tests' expectations and
prove them.

One unit test disagrees with the code; it is recorded under "## Findings" below. The model
follows the code.

## Model

| member | source | states |
|---|---|---|
| Types.ResourceAmount.Incremented | src/renderer/systems/InteractionSystem.ts:70 | the count of the given kind goes up by one and the other three counts are unchanged |
| Types.Inventory.constructor | src/renderer/entities/PlayerWithInventory.ts:9-11 | a new inventory holds zero of every kind |
| Types.Inventory.Increment | src/renderer/systems/InteractionSystem.ts:70 | `resources[t]++`: the new counts are the old ones with kind t incremented |
| ResourceNodes.HitStep | src/renderer/entities/ResourceNode.ts:35-43 | a gathered node is unchanged and reports false; otherwise exactly one more hit and gathered iff hits >= hitsRequired; reports true exactly on the ungathered-to-gathered transition; gathered never reverts; only the two counters change |
| ResourceNodes.HitPreservesInvariant | src/renderer/entities/ResourceNode.ts:35-43 | the invariant `1 <= hitsRequired`, `0 <= currentHits <= hitsRequired`, gathered iff `currentHits == hitsRequired` is kept by a hit |
| ResourceNodes.HitsUntilGathered | src/renderer/entities/ResourceNode.ts:35-43 | from zero hits with k >= 1 required, the first k-1 hits leave the node ungathered and report false, and the k-th reports true |
| ResourceNodes.ResourceNode.constructor | src/renderer/entities/ResourceNode.ts:22-30 | every field is copied from the props |
| ResourceNodes.ResourceNode.Hit | src/renderer/entities/ResourceNode.ts:35-43 | the new field values and the returned flag are exactly those of `HitStep` on the old field values |
| ResourceNodeScenario.ThreeHitWoodNode | src/renderer/entities/__tests__/ResourceNode.test.ts:4-20 | a three-hit node: not gathered after two hits, gathered after the third; only the third hit reports true |
| Noise.ToInt32 | src/renderer/world/WorldGenerator.ts:9-10 | the result is in signed 32-bit range and congruent to the argument modulo 2^32 |
| Noise.ShiftLeft | src/renderer/world/WorldGenerator.ts:9 | `a << n` is in signed 32-bit range |
| Noise.BitAnd | src/renderer/world/WorldGenerator.ts:10 | `a & b` is in signed 32-bit range |
| Noise.BitAndSelf | src/renderer/world/WorldGenerator.ts:10 | `x & x` equals ToInt32(x) |
| Noise.SeedStep | src/renderer/world/WorldGenerator.ts:9-10 | one loop iteration, `((seed << 5) - seed) + c` then `& itself`; no contract of its own, its meaning is `Noise.SeedStepIsHorner` |
| Noise.SeedStepIsHorner | src/renderer/world/WorldGenerator.ts:9-10 | one iteration of the seed loop turns seed into ToInt32(31 * seed + c) |
| Noise.SeedHash | src/renderer/world/WorldGenerator.ts:7-11 | the fold of ToInt32(31 * seed + c) from 0 stays in signed 32-bit range |
| Noise.SeedHashSnoc | src/renderer/world/WorldGenerator.ts:8-11 | the hash of one more code unit is one more loop iteration on the hash of the prefix |
| Noise.SimplexNoise.constructor | src/renderer/world/WorldGenerator.ts:5-12 | after the loop the seed is the hash of the whole string, in signed 32-bit range |
| Noise.SimplexNoise.Noise2D | src/renderer/world/WorldGenerator.ts:14-18 | for any sine value the result lies in [-1, 1) |
| Noise.DefaultSeedEncoding | src/renderer/world/WorldGenerator.ts:5 | the constructor's default seed units are those of "default", one per character |
| WorldGen.WorldSeedEncoding | src/renderer/world/WorldGenerator.ts:35 | the code units hashed are those of "survival-seed-123", one per character |
| WorldGen.Classify | src/renderer/world/WorldGenerator.ts:53-57 | swamp iff v < -0.4, forest iff -0.4 <= v < -0.15, plains iff -0.15 <= v < 0.15, desert iff 0.15 <= v < 0.5, snow iff 0.5 <= v |
| WorldGen.BiomeGrid | src/renderer/world/WorldGenerator.ts:44-62 | a key is present exactly for cell origins: multiples of 100 with 0 <= x < width and 0 <= y < height; each maps to the classified noise of that origin |
| WorldGen.BiomeGridNonEmpty | src/renderer/world/__tests__/WorldGenerator.test.ts:6-8 | a world of positive width and height has the cell (0, 0), so its map is non-empty |
| WorldGen.CellOf | src/renderer/world/WorldGenerator.ts:156-158 | the owning cell's origin is a multiple of 100 on each axis, at or below the point and less than one cell away |
| WorldGen.LookupBiome | src/renderer/world/WorldGenerator.ts:155-160 | the entry of the owning cell, or None when the map has none; no contract of its own, its meaning on a generated map is `WorldGen.LookupBiomeOnGrid` |
| WorldGen.LookupBiomeOnGrid | src/renderer/world/WorldGenerator.ts:155-160 | on a generated map the lookup finds a biome exactly when the owning cell lies inside the world, and then it is that cell's biome |
| WorldGen.LookupBiomeInsideWorld | src/renderer/world/WorldGenerator.ts:155-160 | every point with 0 <= x < width and 0 <= y < height has a biome |
| WorldGen.LookupBiomeNegative | src/renderer/world/WorldGenerator.ts:155-160 | every point with a negative coordinate gets null |
| WorldGen.JitterRange | src/renderer/world/WorldGenerator.ts:138-139 | a draw in [0, 1) gives an offset in [20, cellSize - 20) |
| WorldGen.Place | src/renderer/world/WorldGenerator.ts:138-149 | the node `addResource` pushes, from two jitter draws and one id draw; no contract of its own, its meaning is `WorldGen.PlaceFresh` |
| WorldGen.RepeatAdd | src/renderer/world/WorldGenerator.ts:78-80 | n calls of `addResource` append n nodes and use 3n draws |
| WorldGen.Chance | src/renderer/world/WorldGenerator.ts:82-84 | one draw against p: below it one placed node and four draws in all, otherwise no node and one draw |
| WorldGen.CellSpawn | src/renderer/world/WorldGenerator.ts:76-122 | the if-chain over the biome as the nodes and draws of one cell; no contract of its own, its meaning is `WorldGen.CellSpawnFresh`, `WorldGen.ForestCellSpawn` and `WorldGen.CellSpawnCount` |
| WorldGen.PlaceFresh | src/renderer/world/WorldGenerator.ts:138-148 | an added node has zero hits, is not gathered, carries the cell's biome and coordinates and the requested kind, and with unit draws lies in [cell + 20, cell + 80) on both axes |
| WorldGen.CellSpawnFresh | src/renderer/world/WorldGenerator.ts:76-121 | every node a cell spawns is fresh, tagged with the cell's biome, of a (kind, hitsRequired) pair that biome allows, and with unit draws inside the cell |
| WorldGen.ForestCellSpawn | src/renderer/world/WorldGenerator.ts:76-84 | a forest cell yields exactly three wood nodes with 3 hits each, then at most one stone node with 5 hits |
| WorldGen.CellSpawnCount | src/renderer/world/WorldGenerator.ts:76-121 | per cell: forest 3-4 nodes, plains at most 3, desert, snow and swamp at most 2 |
| WorldGen.SpawnColumns | src/renderer/world/WorldGenerator.ts:70-124 | the nested cell loops of `spawnResources` as the nodes and draws of the whole pass; no contract of its own, its meaning is `WorldGen.SpawnColumnsFresh` |
| WorldGen.FilterNearby | src/renderer/world/WorldGenerator.ts:166-169 | each result is a listed node that is ungathered and in range, each such node is in the result, and the result is the nodes at `NearbyIndices`, in list order |
| WorldGen.SpawnColumnsFresh | src/renderer/world/WorldGenerator.ts:67-125 | every node of the whole spawning pass comes from a cell of the map and is fresh in that cell's biome; with unit draws it lies inside its cell |
| WorldGen.WorldGenerator.constructor | src/renderer/world/WorldGenerator.ts:32-39 | the noise is seeded with the hash of the fixed seed string; the map is the biome grid; the nodes are the spawning pass over that grid from draw 0; no node is listed twice and every node keeps its invariant |
| WorldGen.WorldGenerator.AddResource | src/renderer/world/WorldGenerator.ts:130-150 | one fresh node object with the jittered position and the id parts is appended; three draws are used; the earlier nodes are kept |
| WorldGen.WorldGenerator.Random | src/renderer/world/WorldGenerator.ts:138 | `Math.random()` returns the next value of the draw stream and uses it up |
| WorldGen.WorldGenerator.GenerateBiomes | src/renderer/world/WorldGenerator.ts:44-62 | the map becomes the old map updated with the biome of every cell origin |
| WorldGen.WorldGenerator.SpawnResources | src/renderer/world/WorldGenerator.ts:67-125 | the node list grows by exactly the nodes of the spawning pass over the map, skipping cells without a biome; the draw counter advances accordingly; validity is kept |
| WorldGen.WorldGenerator.SpawnCell | src/renderer/world/WorldGenerator.ts:76-122 | the per-biome if-chain appends exactly the cell's spawn for that biome |
| WorldGen.WorldGenerator.AddChance | src/renderer/world/WorldGenerator.ts:82-84 | one draw for the test, then a node only when the draw is below p |
| WorldGen.WorldGenerator.AddTrees | src/renderer/world/WorldGenerator.ts:78-80 | the three-tree loop appends three wood nodes with 3 hits each |
| WorldGen.WorldGenerator.AddBushes | src/renderer/world/WorldGenerator.ts:90-94 | the two-bush loop appends what two chance-0.7 food tests yield |
| WorldGen.WorldGenerator.GetBiomeAt | src/renderer/world/WorldGenerator.ts:155-160 | on the grid the constructor builds: a biome exactly when the owning cell lies in the world, and then that cell's classified noise |
| WorldGen.WorldGenerator.GetNearbyResources | src/renderer/world/WorldGenerator.ts:165-170 | exactly the nodes that are not gathered and within the radius: each result is such a node of the list, each such node is in the result, and they appear in list order |
| Spatial.NearbyIndices | src/renderer/world/WorldGenerator.ts:166-169 | the positions of the eligible nodes: all eligible, strictly increasing, and none missing |
| Spatial.FirstMinIndex | src/renderer/systems/InteractionSystem.ts:57-61 | the first position of a minimum distance, which is what index 0 of a stable ascending sort holds |
| Spatial.NearestIndex | src/renderer/systems/InteractionSystem.ts:51-61 | the left-to-right scan for the nearest eligible node; no contract of its own, its meaning is `Spatial.NearestIndexMeaning` |
| Spatial.NearestIndexMeaning | src/renderer/systems/InteractionSystem.ts:51-61 | the scan names no node exactly when none is eligible; otherwise an eligible node of minimum distance with every earlier eligible node strictly farther |
| Spatial.NearestUnique | src/renderer/systems/InteractionSystem.ts:57-61 | at most one node is the nearest in that sense, so the tie-break is determined |
| Spatial.NearestRespectsOrder | src/renderer/systems/InteractionSystem.ts:57-61 | the first minimum of the distance keys over the filtered list is the nearest node |
| Spatial.NearestIndexIgnoresHits | src/renderer/systems/InteractionSystem.ts:57-61 | the choice depends only on positions and gathered flags, not on hit counts |
| Interaction.GatherMeaning | src/renderer/systems/InteractionSystem.ts:44-79 | nothing in reach: nothing changes; otherwise the nearest (earliest among ties) node takes one hit and no other node changes; one unit of its kind is added exactly when the hit completed it |
| Interaction.Gather | src/renderer/systems/InteractionSystem.ts:44-79 | one press on values; no contract of its own, its meaning is `Interaction.GatherMeaning` |
| Interaction.GatherNeverLoses | src/renderer/systems/InteractionSystem.ts:68-71 | a count never decreases and goes up by at most one |
| Interaction.GatherPreservesSoundness | src/renderer/systems/InteractionSystem.ts:66 | every node keeps its invariant across a press |
| Interaction.GatherUntilDone | src/renderer/systems/InteractionSystem.ts:66-78 | pressing n times at a fresh nearest node with k required hits: for n < k only its hit count is n and the inventory is unchanged; at n = k it is gathered and exactly one unit of its kind was added |
| Interaction.SortedFirst | src/renderer/systems/InteractionSystem.ts:57-61 | `nearby.sort(...)[0]`: one of the nodes of the query; that it is the nearest is `Interaction.SortedFirstIsNearest` (the same sort is at `InteractionSystem.ts:93-97`) |
| Interaction.SortedFirstIsNearest | src/renderer/systems/InteractionSystem.ts:45-61 | the filtered list is empty exactly when the scan names none; otherwise the first of its stable sort by distance is the node the scan names |
| Interaction.InteractionSystem.constructor | src/renderer/systems/InteractionSystem.ts:10-27 | the record starts with no node, progress 0 and inactive |
| Interaction.InteractionSystem.GetNearestResource | src/renderer/systems/InteractionSystem.ts:84-98 | null exactly when no ungathered node is within 60; otherwise the node a press would hit; it reads and changes nothing |
| Interaction.InteractionSystem.AttemptGather | src/renderer/systems/InteractionSystem.ts:44-79 | nodes and inventory change as one press does on values; nothing in reach leaves the record unchanged; completion gives node null and inactive; a partial hit gives the hit node and active; progress is never touched; the node hit is the one `getNearestResource` named; validity is kept |
| Interaction.InteractionSystem.HitChosen | src/renderer/systems/InteractionSystem.ts:66-78 | one hit on the chosen node and no other node changes; on completion its kind is incremented and the record cleared, otherwise the record points at the node |
| Interaction.InteractionSystem.Reset | src/renderer/systems/InteractionSystem.ts:103-105 | the record becomes node null, progress 0, inactive |
| Players.RawMove | src/renderer/entities/Player.ts:39-45 | each component is -1, 0 or 1: -1 iff only the negative key is held, 1 iff only the positive one, 0 iff both or neither (opposite keys cancel) |
| Players.MoveDirection | src/renderer/entities/Player.ts:48-52 | a diagonal becomes a unit vector parallel to the raw direction (`d.x * m.y == d.y * m.x`) with the same signs; any other direction is kept |
| Players.Accelerate | src/renderer/entities/Player.ts:55-64 | the speed is at most 200; a pushed velocity within the cap is kept; above the cap it lands exactly on the cap in the same direction |
| Players.Decay | src/renderer/entities/Player.ts:67-72 | the component times 0.85, or exactly 0 when that has magnitude below 0.1; never larger in magnitude, never changes sign, zero stays zero |
| Players.NextVelocity | src/renderer/entities/Player.ts:39-73 | the velocity after one frame: accelerate when a direction is held, friction otherwise; no contract of its own, its meaning is `Players.MovingRespectsSpeedCap`, `Players.IdleDecays` and `Players.SingleKeyFromRest` |
| Players.MovingRespectsSpeedCap | src/renderer/entities/Player.ts:55-64 | with a direction held, the squared speed after an update is at most 200^2 |
| Players.IdleDecays | src/renderer/entities/Player.ts:65-73 | with no direction each component decays on its own, the speed never grows and a resting player stays at rest |
| Players.SingleKeyFromRest | src/renderer/entities/Player.ts:39-64 | from rest a single key gives min(800 dt, 200) along that key's axis only |
| Players.SingleKeySigns | src/renderer/entities/__tests__/Player.test.ts:21-43 | one 0.016 s frame from rest: right gives vx > 0, left vx < 0, up vy < 0, down vy > 0, the other component 0 |
| Players.DiagonalFromRest | src/renderer/entities/Player.ts:48-64 | from rest a diagonal below the cap reaches speed 800 dt, the same as a single key |
| Players.DiagonalTestFrame | src/renderer/entities/__tests__/Player.test.ts:45-52 | the diagonal frame of the test gives speed 12.8, above the 6.4 the test allows |
| Players.FrictionTestFrame | src/renderer/entities/__tests__/Player.test.ts:54-65 | friction takes (100, 100) to (85, 85) |
| Players.Player.constructor | src/renderer/entities/Player.ts:20-32 | at (x, y), at rest, radius 20 and colour "#32b8c6" |
| Players.Player.Update | src/renderer/entities/Player.ts:37-78 | the velocity becomes the next-velocity function of the old velocity, time step and input; the position advances by the new velocity times the time step; radius and colour are kept |
| Players.Player.Direction | src/renderer/entities/Player.ts:39-52 | the local move components are the normalised direction |
| Players.Player.ApplyAcceleration | src/renderer/entities/Player.ts:55-64 | the velocity becomes the capped pushed velocity |
| Players.Player.ApplyFriction | src/renderer/entities/Player.ts:65-73 | each component decays |
| Players.Player.Advance | src/renderer/entities/Player.ts:76-77 | the position moves by velocity times the time step |
| Players.Player.GetSpeed | src/renderer/entities/Player.ts:83-85 | a non-negative value whose square is vx^2 + vy^2 |
| Players.Player.SpeedOfThreeFour | src/renderer/entities/__tests__/Player.test.ts:77-81 | velocity (3, 4) has speed 5 |
| Cameras.FollowAxis | src/renderer/systems/Camera.ts:53-58 | after a step and the clamp the coordinate is >= 0; at most world - size when the view fits; 0 when the view is larger than the world |
| Cameras.FollowAxisApproaches | src/renderer/systems/Camera.ts:49-54 | away from the edges one step covers exactly 0.1 of the distance to the centred position, leaving 0.9 of it |
| Cameras.FollowAxisAtRest | src/renderer/systems/Camera.ts:49-58 | a camera already at a reachable desired position stays there |
| Cameras.Follow | src/renderer/systems/Camera.ts:49-58 | the smoothing step and clamp on both axes; no contract of its own, its meaning is `Cameras.FollowInBounds` |
| Cameras.FollowInBounds | src/renderer/systems/Camera.ts:57-58 | the clamp bounds on both axes at once |
| Cameras.Camera.constructor | src/renderer/systems/Camera.ts:20-28 | the sizes are stored, the camera is at the origin and follows nothing |
| Cameras.Camera.SetTarget | src/renderer/systems/Camera.ts:33-40 | follows the target and sits at its position minus half the view; the target is then drawn at the view's centre |
| Cameras.Camera.Update | src/renderer/systems/Camera.ts:45-59 | without a target nothing changes; otherwise one step towards the centred target, clamped, so both coordinates are >= 0 |
| Cameras.Camera.WorldToScreen | src/renderer/systems/Camera.ts:64-69 | world point minus the camera corner; no contract of its own, its meaning is `Cameras.Camera.ScreenRoundTrip` and `Cameras.Camera.WorldToScreenTranslates` |
| Cameras.Camera.ScreenToWorld | src/renderer/systems/Camera.ts:74-79 | screen point plus the camera corner; no contract of its own, its meaning is `Cameras.Camera.ScreenRoundTrip` |
| Cameras.Camera.ScreenRoundTrip | src/renderer/systems/Camera.ts:64-79 | converting to the screen and back, or back and forth, gives the same point |
| Cameras.Camera.WorldToScreenTranslates | src/renderer/systems/Camera.ts:64-69 | the conversion keeps offsets between points and puts the camera corner at the screen origin |
| Cameras.Camera.Resize | src/renderer/systems/Camera.ts:84-87 | only width and height change, to the given values |
| Cameras.Camera.IsVisible | src/renderer/systems/Camera.ts:92-99 | inside the view grown by the margin, edges included, the margin 0 when not given; no contract of its own, its meaning is `Cameras.Camera.IsVisibleOnScreen` |
| Cameras.Camera.IsVisibleOnScreen | src/renderer/systems/Camera.ts:92-99 | visible iff the screen coordinates lie in the closed rectangle [-m, width + m] x [-m, height + m] |
| Cameras.Camera.IsVisibleWidens | src/renderer/systems/Camera.ts:92-99 | a wider margin never hides a visible point |
| Cameras.InitialDimensions | src/renderer/systems/__tests__/Camera.test.ts:13-16 | a new 800 x 600 camera reports those sizes |
| Cameras.CentresOnTarget | src/renderer/systems/__tests__/Camera.test.ts:18-23 | a player at (1000, 1000) puts the camera at (600, 700) |
| Cameras.ConvertsCoordinates | src/renderer/systems/__tests__/Camera.test.ts:25-41 | with the camera at (100, 100), world (150, 150) is screen (50, 50) and back |
| Cameras.RespectsWorldBoundaries | src/renderer/systems/__tests__/Camera.test.ts:43-51 | a player at (100, 100) drives the camera to exactly (0, 0), so both coordinates are >= 0 |
| Cameras.DetectsVisibleObjects | src/renderer/systems/__tests__/Camera.test.ts:53-61 | at the origin (400, 300) is visible and (2000, 2000) is not |
| Cameras.HandlesResize | src/renderer/systems/__tests__/Camera.test.ts:63-67 | after resizing to 1024 x 768 the camera reports those sizes |
| Input.Added | src/renderer/systems/InputManager.ts:27 | `keys.add`: the members are the old ones plus the key; no duplicates arise; a held key changes nothing; the held keys keep their order in front |
| Input.Removed | src/renderer/systems/InputManager.ts:36 | `keys.delete`: the members are the old ones minus the key; no duplicates arise; an absent key changes nothing; where the held key was cut out is `Input.RemovedSplices` |
| Input.RemovedUndoesAdded | src/renderer/systems/InputManager.ts:26-37 | keyup after the keydown of a key that was not held restores the earlier set |
| Input.RemovedShrinks | src/renderer/systems/InputManager.ts:36 | deleting a held key removes exactly one entry |
| Input.RemovedConcat | src/renderer/systems/InputManager.ts:36 | deleting a key from two runs of keys put together is deleting it from each run |
| Input.RemovedAt | src/renderer/systems/InputManager.ts:36 | a key found at one position and nowhere else is cut out there; the keys before and after it keep their order |
| Input.RemovedSplices | src/renderer/systems/InputManager.ts:36 | deleting a held key from a duplicate-free set cuts it out at its position and keeps the other keys in order |
| Input.AnyIn | src/renderer/systems/InputManager.ts:60-62 | true iff some key of the array is held |
| Input.StateOf | src/renderer/systems/InputManager.ts:67-74 | the four direction flags of a held set; no contract of its own, its meaning is `Input.StateOfKeys` |
| Input.IsGameKey | src/renderer/systems/InputManager.ts:48-55 | membership in the twelve game keys; no contract of its own, its meaning is `Input.GameKeysMeaning` |
| Input.StateOfKeys | src/renderer/systems/InputManager.ts:11-14 | up iff "w", "W" or "ArrowUp" is held; down, left and right likewise for their keys |
| Input.GameKeysMeaning | src/renderer/systems/InputManager.ts:48-55 | twelve distinct game keys, and a key is one exactly when holding it alone sets a direction flag |
| Input.InputManager.constructor | src/renderer/systems/InputManager.ts:8 | no key is held |
| Input.InputManager.KeyDown | src/renderer/systems/InputManager.ts:26-33 | the key joins the set (a second keydown changes nothing); the default action is suppressed exactly for game keys |
| Input.InputManager.KeyUp | src/renderer/systems/InputManager.ts:35-37 | just that key leaves the set |
| Input.InputManager.Blur | src/renderer/systems/InputManager.ts:40-42 | the set becomes empty |
| Input.InputManager.IsAnyKeyPressed | src/renderer/systems/InputManager.ts:60-62 | true iff some key of the array is pressed |
| Input.InputManager.GetInputState | src/renderer/systems/InputManager.ts:67-74 | each flag holds iff one of its three keys is pressed |
| Input.InputManager.IsKeyPressed | src/renderer/systems/InputManager.ts:79-81 | `keys.has(key)`: membership in the held set; no contract of its own |
| Input.InputManager.GetPressedKeys | src/renderer/systems/InputManager.ts:86-88 | every pressed key exactly once, in the order the keys went down |
| Input.StartsIdle | src/renderer/systems/__tests__/InputManager.test.ts:27-33 | a new manager reports no direction |
| Input.WIsUp | src/renderer/systems/__tests__/InputManager.test.ts:35-43 | keydown "w" sets up, and its default is suppressed |
| Input.ArrowUpIsUp | src/renderer/systems/__tests__/InputManager.test.ts:45-53 | keydown "ArrowUp" sets up |
| Input.SimultaneousKeys | src/renderer/systems/__tests__/InputManager.test.ts:55-67 | "w" and "d" together set up and right |
| Input.SpecificKey | src/renderer/systems/__tests__/InputManager.test.ts:69-77 | after keydown "w", "w" is pressed and "x" is not |

## Left out

- `getBiomeColor` (`WorldGenerator.ts:175-184`), `BiomeColors.ts` and `Biome.getBiomeConfig`: rendering tables with no behaviour.
- The DOM wiring: `InteractionSystem.setupListeners`, `InputManager.setupEventListeners` registration and the event objects. The keydown, keyup and blur bodies are methods, and `KeyDown` returns whether `preventDefault` would be called.
- `console.log` calls: output only.
- `Math.sin`, `Math.random` and `Math.sqrt`/`Math.hypot` are parameters (`sine`, `rand`, `sqrt`) or squared comparisons. IEEE-754 rounding is not modelled: every claim holds for exact arithmetic.
- Probabilities of the spawn draws are not modelled. The in-cell position bound assumes draws in [0, 1) (`UnitDraws`).
- The node id is the structured `NodeId` (biome, kind, cell origin, suffix draw) rather than the formatted string. Uniqueness of the random suffix is not modelled.
- Seed strings are given to the hash as their UTF-16 code units: `WorldSeed` for the generator's seed and `DefaultSeed` for the constructor's default `'default'`. `WorldSeedEncoding` and `DefaultSeedEncoding` tie those units to the text. The concrete hash value of "survival-seed-123" is not computed.
- The game engine loop, timing, the canvas and all drawing, UI, Electron and build files: outside the simulation core.
- The stable `sort` in `attemptGather` and `getNearestResource` is modelled only through its first element (`FirstMinIndex`): the rest of the sorted order is never used.
- The `getNearbyResources` callback the interaction system receives is modelled as the `WorldGenerator` whose method it is.
- The player's `update` is built from helper methods, one per phase, and `attemptGather` ends in the helper `HitChosen`. This keeps the proofs small; the order of field writes is the source's.
- Positions and velocities are values: the source's shared `{x, y}` objects (the camera's or a player's position mutated through another reference) are not modelled as aliases.
- The JavaScript `Set` of keys is a duplicate-free sequence in insertion order, which is the order `Array.from` iterates.
- `Input.SimultaneousKeys` and `Input.SpecificKey` state only what their tests check (up and right are set; "x" is not pressed). They do not also state that down and left stay unset or that "x" is not a game key.
- The `progress` field of the gathering record is carried but never changed, as in the source.
- The world's `width` and `height` are integers in the model; the source accepts any number. The cell loops only compare integer cell origins with them, so a fractional size yields the same cells as its ceiling. NaN and infinite sizes are not modelled.
- `WorldGen.CellSpawnCount` states the per-cell counts; how probable each count is, is not modelled.

## Findings

| source | as written | input that shows it | evidently intended | confidence | as-written member | corrected member |
|---|---|---|---|---|---|---|
| src/renderer/entities/__tests__/Player.test.ts:45-52 | the diagonal test expects a speed of at most 200 * 0.016 * 2 = 6.4 after one frame from rest | up and right held for 0.016 s from rest: the normalised diagonal accelerates at the full 800, giving speed 800 * 0.016 = 12.8 | the code's own promise (`Player.ts:48-52`): a diagonal is no faster than a single key, both reaching 800 dt below the cap; the test bound is too tight, the code is right | not executed | Players.DiagonalTestFrame | Players.DiagonalFromRest |
