/// World generation: a grid of 100-unit cells, each given a biome from the
/// noise field, then populated with resource nodes according to its biome.
module WorldGen {
  import opened Types
  import opened ResourceNodes
  import opened Noise
  import opened Spatial

  const CellSize: int := 100
  /// Scale applied to cell coordinates before sampling the noise.
  const BiomeScale: real := 0.003
  /// The seed string the generator hands to its noise source.
  const WorldSeedText: string := "survival-seed-123"
  /// The same string as the UTF-16 code units `charCodeAt` reads.
  const WorldSeed: seq<CodeUnit> := [115, 117, 114, 118, 105, 118, 97, 108, 45, 115, 101, 101, 100, 45, 49, 50, 51]

  /// The seed text is plain ASCII: one code unit per character.
  lemma WorldSeedEncoding()
    ensures |WorldSeed| == |WorldSeedText|
    ensures forall i :: 0 <= i < |WorldSeedText| ==> WorldSeed[i] == WorldSeedText[i] as int
  {
  }

  // ---------------------------------------------------------------------
  // Biome classification

  /// The ordered threshold chain from a noise value to a biome.
  function Classify(v: real): (b: BiomeType)
    ensures b == Swamp <==> v < -0.4
    ensures b == Forest <==> -0.4 <= v < -0.15
    ensures b == Plains <==> -0.15 <= v < 0.15
    ensures b == Desert <==> 0.15 <= v < 0.5
    ensures b == Snow <==> 0.5 <= v
  {
    if v < -0.4 then Swamp
    else if v < -0.15 then Forest
    else if v < 0.15 then Plains
    else if v < 0.5 then Desert
    else Snow
  }

  // ---------------------------------------------------------------------
  // The biome grid

  /// The map key `${x},${y}` of a cell origin.
  datatype CellKey = CellKey(x: int, y: int)

  /// The cell origins the generation loops visit for a world of this size.
  predicate IsCellOrigin(k: CellKey, width: int, height: int)
  {
    0 <= k.x < width && 0 <= k.y < height && k.x % CellSize == 0 && k.y % CellSize == 0
  }

  /// The biome the generator gives the cell at `k`.
  function CellBiome(noise: SimplexNoise, sine: real -> real, k: CellKey): BiomeType
    reads noise
  {
    Classify(noise.Noise2D(sine, k.x as real * BiomeScale, k.y as real * BiomeScale))
  }

  /// The biome map a fresh generator holds after `generateBiomes`.
  function BiomeGrid(noise: SimplexNoise, sine: real -> real, width: int, height: int): (m: map<CellKey, BiomeType>)
    reads noise
    ensures forall k :: k in m <==> IsCellOrigin(k, width, height)
    ensures forall k :: k in m ==> m[k] == CellBiome(noise, sine, k)
  {
    map x: int, y: int | 0 <= x < width && 0 <= y < height && x % CellSize == 0 && y % CellSize == 0
      :: CellKey(x, y) := CellBiome(noise, sine, CellKey(x, y))
  }

  /// Any world with positive extent has at least the cell at the origin.
  lemma BiomeGridNonEmpty(noise: SimplexNoise, sine: real -> real, width: int, height: int)
    requires width > 0 && height > 0
    ensures CellKey(0, 0) in BiomeGrid(noise, sine, width, height)
    ensures |BiomeGrid(noise, sine, width, height)| > 0
  {
    assert IsCellOrigin(CellKey(0, 0), width, height);
  }

  /// The cell that owns a world point: both coordinates floored to a
  /// multiple of the cell size.
  function CellOf(x: real, y: real): (k: CellKey)
    ensures k.x % CellSize == 0 && k.y % CellSize == 0
    ensures k.x as real <= x < (k.x + CellSize) as real
    ensures k.y as real <= y < (k.y + CellSize) as real
  {
    CellKey((x / CellSize as real).Floor * CellSize, (y / CellSize as real).Floor * CellSize)
  }

  /// `getBiomeAt`: the owning cell's entry, or null (None) when absent.
  function LookupBiome(m: map<CellKey, BiomeType>, x: real, y: real): Option<BiomeType>
  {
    var k := CellOf(x, y);
    if k in m then Some(m[k]) else None
  }

  /// On a generated grid the lookup finds a biome exactly when the owning
  /// cell is one of the grid's cells, and then it is that cell's biome.
  lemma LookupBiomeOnGrid(noise: SimplexNoise, sine: real -> real, width: int, height: int, x: real, y: real)
    ensures var k := CellOf(x, y);
      var r := LookupBiome(BiomeGrid(noise, sine, width, height), x, y);
      (r.Some? <==> 0 <= k.x < width && 0 <= k.y < height) &&
      (r.Some? ==> r.value == CellBiome(noise, sine, k))
  {
  }

  /// Every point of the world rectangle has a biome.
  lemma LookupBiomeInsideWorld(noise: SimplexNoise, sine: real -> real, width: int, height: int, x: real, y: real)
    requires 0.0 <= x < width as real && 0.0 <= y < height as real
    ensures LookupBiome(BiomeGrid(noise, sine, width, height), x, y).Some?
  {
    var k := CellOf(x, y);
    LookupBiomeOnGrid(noise, sine, width, height, x, y);
  }

  /// No point with a negative coordinate has a biome.
  lemma LookupBiomeNegative(noise: SimplexNoise, sine: real -> real, width: int, height: int, x: real, y: real)
    requires x < 0.0 || y < 0.0
    ensures LookupBiome(BiomeGrid(noise, sine, width, height), x, y).None?
  {
    LookupBiomeOnGrid(noise, sine, width, height, x, y);
  }

  // ---------------------------------------------------------------------
  // Resource spawning, as a function of the random draws

  /// The nodes a stretch of the spawning code appends, and the index of the
  /// next unused random draw.
  datatype Spawn = Spawn(nodes: seq<NodeView>, next: nat)

  /// `Math.random() * (cellSize - 40) + 20`: a draw in [0, 1) becomes an
  /// offset in [20, cellSize - 20).
  function Jitter(r: real, cellSize: int): real
  {
    r * (cellSize - 40) as real + 20.0
  }

  /// A draw in [0, 1) jitters to an offset in [20, cellSize - 20).
  lemma JitterRange(r: real, cellSize: int)
    requires 0.0 <= r < 1.0 && cellSize > 40
    ensures 20.0 <= Jitter(r, cellSize) < (cellSize - 20) as real
  {
    var k := (cellSize - 40) as real;
    assert (1.0 - r) * k > 0.0;
  }

  /// `addResource`: three draws, for the x offset, the y offset and the id
  /// suffix, then one fresh ungathered node.
  function Place(kind: ResourceType, cellX: int, cellY: int, cellSize: int, biome: BiomeType, hits: int,
                 rand: nat -> real, next: nat): NodeView
  {
    var offsetX := Jitter(rand(next), cellSize);
    var offsetY := Jitter(rand(next + 1), cellSize);
    NodeView(NodeId(biome, kind, cellX, cellY, rand(next + 2)), kind,
             Vector2(cellX as real + offsetX, cellY as real + offsetY), biome, hits, 0, false)
  }

  /// `for (i = 0; i < n; i++) addResource(...)`
  function RepeatAdd(n: nat, kind: ResourceType, x: int, y: int, biome: BiomeType, hits: int,
                     rand: nat -> real, next: nat): (s: Spawn)
    ensures |s.nodes| == n && s.next == next + 3 * n
  {
    if n == 0 then Spawn([], next)
    else
      var rest := RepeatAdd(n - 1, kind, x, y, biome, hits, rand, next + 3);
      Spawn([Place(kind, x, y, CellSize, biome, hits, rand, next)] + rest.nodes, rest.next)
  }

  /// One more iteration appends one more node, placed with the draws after
  /// the first `3 * n`.
  lemma {:induction false} RepeatAddSnoc(n: nat, kind: ResourceType, x: int, y: int, biome: BiomeType, hits: int, rand: nat -> real, next: nat)
    ensures RepeatAdd(n + 1, kind, x, y, biome, hits, rand, next).nodes
            == RepeatAdd(n, kind, x, y, biome, hits, rand, next).nodes + [Place(kind, x, y, CellSize, biome, hits, rand, next + 3 * n)]
  {
    if n > 0 {
      RepeatAddSnoc(n - 1, kind, x, y, biome, hits, rand, next + 3);
      ConcatAssoc([Place(kind, x, y, CellSize, biome, hits, rand, next)],
                  RepeatAdd(n - 1, kind, x, y, biome, hits, rand, next + 3).nodes,
                  [Place(kind, x, y, CellSize, biome, hits, rand, next + 3 * n)]);
    }
  }

  /// `for (i = 0; i < n; i++) if (Math.random() < p) addResource(...)`
  function RepeatChance(n: nat, p: real, kind: ResourceType, x: int, y: int, biome: BiomeType, hits: int,
                        rand: nat -> real, next: nat): (s: Spawn)
    ensures |s.nodes| <= n
  {
    if n == 0 then Spawn([], next)
    else
      var first := Chance(p, kind, x, y, biome, hits, rand, next);
      var rest := RepeatChance(n - 1, p, kind, x, y, biome, hits, rand, first.next);
      Spawn(first.nodes + rest.nodes, rest.next)
  }

  /// `if (Math.random() < p) addResource(...)`: one draw for the test, then
  /// the three of `addResource` when it passes.
  function Chance(p: real, kind: ResourceType, x: int, y: int, biome: BiomeType, hits: int,
                  rand: nat -> real, next: nat): (s: Spawn)
    ensures rand(next) < p ==> s == Spawn([Place(kind, x, y, CellSize, biome, hits, rand, next + 1)], next + 4)
    ensures rand(next) >= p ==> s == Spawn([], next + 1)
  {
    if rand(next) < p then Spawn([Place(kind, x, y, CellSize, biome, hits, rand, next + 1)], next + 4)
    else Spawn([], next + 1)
  }

  lemma RepeatChanceUnfold(n: nat, p: real, kind: ResourceType, x: int, y: int, biome: BiomeType, hits: int,
                           rand: nat -> real, next: nat)
    requires n > 0
    ensures var first := Chance(p, kind, x, y, biome, hits, rand, next);
      var rest := RepeatChance(n - 1, p, kind, x, y, biome, hits, rand, first.next);
      RepeatChance(n, p, kind, x, y, biome, hits, rand, next) == Spawn(first.nodes + rest.nodes, rest.next)
  {
  }

  /// One spawning stage followed by another that starts at the first one's
  /// next draw.
  function Then(a: Spawn, b: Spawn): Spawn
  {
    Spawn(a.nodes + b.nodes, b.next)
  }

  /// What `spawnResources` appends for one cell of the given biome.
  function CellSpawn(biome: BiomeType, x: int, y: int, rand: nat -> real, next: nat): Spawn
  {
    match biome
    case Forest =>
      var trees := RepeatAdd(3, Wood, x, y, Forest, 3, rand, next);
      Then(trees, Chance(0.5, Stone, x, y, Forest, 5, rand, trees.next))
    case Plains =>
      var trees := Chance(0.3, Wood, x, y, Plains, 3, rand, next);
      Then(trees, RepeatChance(2, 0.7, Food, x, y, Plains, 1, rand, trees.next))
    case Desert =>
      var cacti := Chance(0.4, Mineral, x, y, Desert, 10, rand, next);
      Then(cacti, Chance(0.3, Stone, x, y, Desert, 7, rand, cacti.next))
    case Snow =>
      var pines := Chance(0.6, Wood, x, y, Snow, 4, rand, next);
      Then(pines, Chance(0.4, Stone, x, y, Snow, 6, rand, pines.next))
    case Swamp =>
      var deadTrees := Chance(0.4, Wood, x, y, Swamp, 3, rand, next);
      Then(deadTrees, Chance(0.2, Mineral, x, y, Swamp, 10, rand, deadTrees.next))
  }

  /// The loop body for one cell: look its biome up, skip it when absent.
  function CellSpawnAt(m: map<CellKey, BiomeType>, x: int, y: int, rand: nat -> real, next: nat): Spawn
  {
    match LookupBiome(m, x as real, y as real)
    case None => Spawn([], next)
    case Some(b) => CellSpawn(b, x, y, rand, next)
  }

  /// The inner loop: cells (x, y), (x, y + 100), ... below `height`.
  function SpawnColumn(m: map<CellKey, BiomeType>, x: int, y: int, height: int, rand: nat -> real, next: nat): Spawn
    decreases height - y
  {
    if y >= height then Spawn([], next)
    else
      var cell := CellSpawnAt(m, x, y, rand, next);
      Then(cell, SpawnColumn(m, x, y + CellSize, height, rand, cell.next))
  }

  /// The outer loop: columns x, x + 100, ... below `width`.
  function SpawnColumns(m: map<CellKey, BiomeType>, x: int, width: int, height: int, rand: nat -> real, next: nat): Spawn
    decreases width - x
  {
    if x >= width then Spawn([], next)
    else
      var column := SpawnColumn(m, x, 0, height, rand, next);
      Then(column, SpawnColumns(m, x + CellSize, width, height, rand, column.next))
  }

  // ---------------------------------------------------------------------
  // What spawning guarantees about every node it creates

  /// The (biome, kind, hitsRequired) combinations the spawning code uses.
  predicate AllowedSpawn(biome: BiomeType, kind: ResourceType, hits: int)
  {
    match biome
    case Forest => (kind == Wood && hits == 3) || (kind == Stone && hits == 5)
    case Plains => (kind == Wood && hits == 3) || (kind == Food && hits == 1)
    case Desert => (kind == Mineral && hits == 10) || (kind == Stone && hits == 7)
    case Snow => (kind == Wood && hits == 4) || (kind == Stone && hits == 6)
    case Swamp => (kind == Wood && hits == 3) || (kind == Mineral && hits == 10)
  }

  /// A node as spawned into a cell of biome `biome`: untouched, tagged with
  /// the cell's biome, of an allowed kind, and with a valid hit counter.
  predicate FreshInCell(v: NodeView, biome: BiomeType, x: int, y: int)
  {
    v.currentHits == 0 && !v.isGathered &&
    v.biome == biome && v.id.biome == biome && v.id.kind == v.kind &&
    v.id.cellX == x && v.id.cellY == y &&
    AllowedSpawn(biome, v.kind, v.hitsRequired) &&
    NodeInvariant(v)
  }

  /// The node lies in the cell's interior band [origin + 20, origin + 80).
  predicate InsideCell(v: NodeView)
  {
    (v.id.cellX + 20) as real <= v.position.x < (v.id.cellX + 80) as real &&
    (v.id.cellY + 20) as real <= v.position.y < (v.id.cellY + 80) as real
  }

  /// Every draw of the random source is in [0, 1), as `Math.random` promises.
  ghost predicate UnitDraws(rand: nat -> real)
  {
    forall i: nat :: 0.0 <= rand(i) < 1.0
  }

  /// Every node of `vs` is fresh in the cell (x, y) of biome `biome`.
  predicate AllFresh(vs: seq<NodeView>, biome: BiomeType, x: int, y: int)
  {
    forall i :: 0 <= i < |vs| ==> FreshInCell(vs[i], biome, x, y)
  }

  /// Every node of `vs` has kind `kind`.
  predicate AllOfKind(vs: seq<NodeView>, kind: ResourceType)
  {
    forall i :: 0 <= i < |vs| ==> vs[i].kind == kind
  }

  /// Every node of `vs` lies inside its cell.
  predicate AllInside(vs: seq<NodeView>)
  {
    forall i :: 0 <= i < |vs| ==> InsideCell(vs[i])
  }

  lemma ConcatAll(a: seq<NodeView>, b: seq<NodeView>, biome: BiomeType, x: int, y: int, kind: ResourceType)
    ensures AllFresh(a, biome, x, y) && AllFresh(b, biome, x, y) ==> AllFresh(a + b, biome, x, y)
    ensures AllOfKind(a, kind) && AllOfKind(b, kind) ==> AllOfKind(a + b, kind)
    ensures AllInside(a) && AllInside(b) ==> AllInside(a + b)
  {
    forall i | 0 <= i < |a + b|
      ensures (a + b)[i] == if i < |a| then a[i] else b[i - |a|]
    {
    }
  }

  lemma PlaceInsideCell(kind: ResourceType, x: int, y: int, biome: BiomeType, hits: int, rand: nat -> real, next: nat)
    requires UnitDraws(rand)
    ensures InsideCell(Place(kind, x, y, CellSize, biome, hits, rand, next))
  {
    JitterRange(rand(next), CellSize);
    JitterRange(rand(next + 1), CellSize);
  }

  /// A placed node is fresh in its cell, of the requested kind, and (for
  /// unit draws) inside the cell.
  lemma PlaceFresh(kind: ResourceType, x: int, y: int, biome: BiomeType, hits: int, rand: nat -> real, next: nat)
    requires AllowedSpawn(biome, kind, hits)
    ensures var v := Place(kind, x, y, CellSize, biome, hits, rand, next);
      AllFresh([v], biome, x, y) && AllOfKind([v], kind) && (UnitDraws(rand) ==> AllInside([v]))
  {
    if UnitDraws(rand) {
      PlaceInsideCell(kind, x, y, biome, hits, rand, next);
    }
  }

  lemma {:induction false} RepeatAddFresh(n: nat, kind: ResourceType, x: int, y: int, biome: BiomeType, hits: int,
                                          rand: nat -> real, next: nat)
    requires AllowedSpawn(biome, kind, hits)
    ensures var s := RepeatAdd(n, kind, x, y, biome, hits, rand, next);
      AllFresh(s.nodes, biome, x, y) && AllOfKind(s.nodes, kind) && (UnitDraws(rand) ==> AllInside(s.nodes))
  {
    if n > 0 {
      var rest := RepeatAdd(n - 1, kind, x, y, biome, hits, rand, next + 3);
      var v := Place(kind, x, y, CellSize, biome, hits, rand, next);
      assert RepeatAdd(n, kind, x, y, biome, hits, rand, next).nodes == [v] + rest.nodes;
      PlaceFresh(kind, x, y, biome, hits, rand, next);
      RepeatAddFresh(n - 1, kind, x, y, biome, hits, rand, next + 3);
      ConcatAll([v], rest.nodes, biome, x, y, kind);
    }
  }

  lemma ChanceFresh(p: real, kind: ResourceType, x: int, y: int, biome: BiomeType, hits: int,
                    rand: nat -> real, next: nat)
    requires AllowedSpawn(biome, kind, hits)
    ensures var s := Chance(p, kind, x, y, biome, hits, rand, next);
      AllFresh(s.nodes, biome, x, y) && AllOfKind(s.nodes, kind) && (UnitDraws(rand) ==> AllInside(s.nodes))
  {
    PlaceFresh(kind, x, y, biome, hits, rand, next + 1);
  }

  lemma {:induction false} RepeatChanceFresh(n: nat, p: real, kind: ResourceType, x: int, y: int, biome: BiomeType, hits: int,
                                             rand: nat -> real, next: nat)
    requires AllowedSpawn(biome, kind, hits)
    ensures var s := RepeatChance(n, p, kind, x, y, biome, hits, rand, next);
      AllFresh(s.nodes, biome, x, y) && AllOfKind(s.nodes, kind) && (UnitDraws(rand) ==> AllInside(s.nodes))
  {
    if n > 0 {
      var first := Chance(p, kind, x, y, biome, hits, rand, next);
      ChanceFresh(p, kind, x, y, biome, hits, rand, next);
      RepeatChanceFresh(n - 1, p, kind, x, y, biome, hits, rand, first.next);
      ConcatAll(first.nodes, RepeatChance(n - 1, p, kind, x, y, biome, hits, rand, first.next).nodes, biome, x, y, kind);
    }
  }

  /// Every node a cell spawns is fresh, tagged with the cell's biome, of an
  /// allowed kind and hit count, and (for unit draws) inside the cell.
  lemma CellSpawnFresh(biome: BiomeType, x: int, y: int, rand: nat -> real, next: nat)
    ensures var s := CellSpawn(biome, x, y, rand, next);
      AllFresh(s.nodes, biome, x, y) && (UnitDraws(rand) ==> AllInside(s.nodes))
  {
    var a: Spawn, b: Spawn;
    match biome {
      case Forest =>
        a := RepeatAdd(3, Wood, x, y, Forest, 3, rand, next);
        RepeatAddFresh(3, Wood, x, y, Forest, 3, rand, next);
        b := Chance(0.5, Stone, x, y, Forest, 5, rand, a.next);
        ChanceFresh(0.5, Stone, x, y, Forest, 5, rand, a.next);
      case Plains =>
        a := Chance(0.3, Wood, x, y, Plains, 3, rand, next);
        ChanceFresh(0.3, Wood, x, y, Plains, 3, rand, next);
        b := RepeatChance(2, 0.7, Food, x, y, Plains, 1, rand, a.next);
        RepeatChanceFresh(2, 0.7, Food, x, y, Plains, 1, rand, a.next);
      case Desert =>
        a := Chance(0.4, Mineral, x, y, Desert, 10, rand, next);
        ChanceFresh(0.4, Mineral, x, y, Desert, 10, rand, next);
        b := Chance(0.3, Stone, x, y, Desert, 7, rand, a.next);
        ChanceFresh(0.3, Stone, x, y, Desert, 7, rand, a.next);
      case Snow =>
        a := Chance(0.6, Wood, x, y, Snow, 4, rand, next);
        ChanceFresh(0.6, Wood, x, y, Snow, 4, rand, next);
        b := Chance(0.4, Stone, x, y, Snow, 6, rand, a.next);
        ChanceFresh(0.4, Stone, x, y, Snow, 6, rand, a.next);
      case Swamp =>
        a := Chance(0.4, Wood, x, y, Swamp, 3, rand, next);
        ChanceFresh(0.4, Wood, x, y, Swamp, 3, rand, next);
        b := Chance(0.2, Mineral, x, y, Swamp, 10, rand, a.next);
        ChanceFresh(0.2, Mineral, x, y, Swamp, 10, rand, a.next);
    }
    assert CellSpawn(biome, x, y, rand, next).nodes == a.nodes + b.nodes;
    ConcatAll(a.nodes, b.nodes, biome, x, y, Wood);
  }

  /// A forest cell yields exactly three wood nodes needing three hits each,
  /// then at most one stone node needing five.
  lemma ForestCellSpawn(x: int, y: int, rand: nat -> real, next: nat)
    ensures var s := CellSpawn(Forest, x, y, rand, next);
      (|s.nodes| == 3 || |s.nodes| == 4) &&
      (forall i :: 0 <= i < 3 ==> s.nodes[i].kind == Wood && s.nodes[i].hitsRequired == 3) &&
      (|s.nodes| == 4 ==> s.nodes[3].kind == Stone && s.nodes[3].hitsRequired == 5)
  {
    var trees := RepeatAdd(3, Wood, x, y, Forest, 3, rand, next);
    var rocks := Chance(0.5, Stone, x, y, Forest, 5, rand, trees.next);
    RepeatAddFresh(3, Wood, x, y, Forest, 3, rand, next);
    ChanceFresh(0.5, Stone, x, y, Forest, 5, rand, trees.next);
    var s := CellSpawn(Forest, x, y, rand, next);
    assert s.nodes == trees.nodes + rocks.nodes;
    forall i | 0 <= i < 3
      ensures s.nodes[i].kind == Wood && s.nodes[i].hitsRequired == 3
    {
      assert s.nodes[i] == trees.nodes[i];
      assert FreshInCell(trees.nodes[i], Forest, x, y);
    }
    if |s.nodes| == 4 {
      assert s.nodes[3] == rocks.nodes[0];
      assert FreshInCell(rocks.nodes[0], Forest, x, y);
    }
  }

  /// How many nodes a cell of each biome can yield.
  lemma CellSpawnCount(biome: BiomeType, x: int, y: int, rand: nat -> real, next: nat)
    ensures var n := |CellSpawn(biome, x, y, rand, next).nodes|;
      match biome
      case Forest => 3 <= n <= 4
      case Plains => n <= 3
      case Desert => n <= 2
      case Snow => n <= 2
      case Swamp => n <= 2
  {
  }

  /// A node spawned for a cell of the map: the cell named in its id is in
  /// the map and the node is fresh in that cell's biome.
  predicate SpawnedFromMap(v: NodeView, m: map<CellKey, BiomeType>)
  {
    var k := CellKey(v.id.cellX, v.id.cellY);
    k in m && FreshInCell(v, m[k], k.x, k.y)
  }

  predicate AllFromMap(vs: seq<NodeView>, m: map<CellKey, BiomeType>)
  {
    forall i :: 0 <= i < |vs| ==> SpawnedFromMap(vs[i], m)
  }

  lemma ConcatFromMap(a: seq<NodeView>, b: seq<NodeView>, m: map<CellKey, BiomeType>)
    ensures AllFromMap(a, m) && AllFromMap(b, m) ==> AllFromMap(a + b, m)
    ensures AllInside(a) && AllInside(b) ==> AllInside(a + b)
  {
    forall i | 0 <= i < |a + b|
      ensures (a + b)[i] == if i < |a| then a[i] else b[i - |a|]
    {
    }
  }

  /// A cell origin is its own owning cell.
  lemma CellOfOrigin(x: int, y: int)
    requires x % CellSize == 0 && y % CellSize == 0
    ensures CellOf(x as real, y as real) == CellKey(x, y)
  {
    var k := CellOf(x as real, y as real);
    assert k.x <= x < k.x + CellSize;
    assert k.y <= y < k.y + CellSize;
  }

  /// What the spawning pass guarantees of a run of nodes: each comes from a
  /// cell of the map, and (for draws in [0, 1)) lies inside its cell.
  ghost predicate WellSpawned(vs: seq<NodeView>, m: map<CellKey, BiomeType>, rand: nat -> real)
  {
    AllFromMap(vs, m) && (UnitDraws(rand) ==> AllInside(vs))
  }

  lemma WellSpawnedConcat(a: seq<NodeView>, b: seq<NodeView>, m: map<CellKey, BiomeType>, rand: nat -> real)
    requires WellSpawned(a, m, rand) && WellSpawned(b, m, rand)
    ensures WellSpawned(a + b, m, rand)
  {
    ConcatFromMap(a, b, m);
  }

  lemma CellSpawnAtFresh(m: map<CellKey, BiomeType>, x: int, y: int, rand: nat -> real, next: nat)
    requires x % CellSize == 0 && y % CellSize == 0
    ensures WellSpawned(CellSpawnAt(m, x, y, rand, next).nodes, m, rand)
  {
    CellOfOrigin(x, y);
    match LookupBiome(m, x as real, y as real)
    case None =>
    case Some(b) =>
      CellSpawnFresh(b, x, y, rand, next);
      var s := CellSpawn(b, x, y, rand, next);
      assert CellKey(x, y) in m && m[CellKey(x, y)] == b;
      forall i | 0 <= i < |s.nodes|
        ensures SpawnedFromMap(s.nodes[i], m)
      {
        assert FreshInCell(s.nodes[i], b, x, y);
      }
  }

  lemma {:induction false} SpawnColumnFresh(m: map<CellKey, BiomeType>, x: int, y: int, height: int, rand: nat -> real, next: nat)
    requires x % CellSize == 0 && y % CellSize == 0
    ensures WellSpawned(SpawnColumn(m, x, y, height, rand, next).nodes, m, rand)
    decreases height - y
  {
    if y < height {
      var cell := CellSpawnAt(m, x, y, rand, next);
      var rest := SpawnColumn(m, x, y + CellSize, height, rand, cell.next);
      assert SpawnColumn(m, x, y, height, rand, next).nodes == cell.nodes + rest.nodes;
      CellSpawnAtFresh(m, x, y, rand, next);
      NextOrigin(y);
      SpawnColumnFresh(m, x, y + CellSize, height, rand, cell.next);
      WellSpawnedConcat(cell.nodes, rest.nodes, m, rand);
    }
  }

  /// Every node the whole spawning pass creates sits in a cell of the map,
  /// starts untouched in that cell's biome with an allowed kind and hit
  /// count, and (for draws in [0, 1)) lies inside its cell.
  lemma {:induction false} SpawnColumnsFresh(m: map<CellKey, BiomeType>, x: int, width: int, height: int, rand: nat -> real, next: nat)
    requires x % CellSize == 0
    ensures WellSpawned(SpawnColumns(m, x, width, height, rand, next).nodes, m, rand)
    decreases width - x
  {
    if x < width {
      var column := SpawnColumn(m, x, 0, height, rand, next);
      var rest := SpawnColumns(m, x + CellSize, width, height, rand, column.next);
      assert SpawnColumns(m, x, width, height, rand, next).nodes == column.nodes + rest.nodes;
      SpawnColumnFresh(m, x, 0, height, rand, next);
      NextOrigin(x);
      SpawnColumnsFresh(m, x + CellSize, width, height, rand, column.next);
      WellSpawnedConcat(column.nodes, rest.nodes, m, rand);
    }
  }

  // ---------------------------------------------------------------------
  // Helpers about node sequences

  /// Every node of `vs` satisfies the node invariant.
  predicate AllSound(vs: seq<NodeView>)
  {
    forall i :: 0 <= i < |vs| ==> NodeInvariant(vs[i])
  }

  lemma SoundConcat(a: seq<NodeView>, b: seq<NodeView>, m: map<CellKey, BiomeType>)
    requires AllSound(a) && AllFromMap(b, m)
    ensures AllSound(a + b)
  {
    forall i | 0 <= i < |a + b|
      ensures NodeInvariant((a + b)[i])
    {
      if i >= |a| {
        assert (a + b)[i] == b[i - |a|];
        assert SpawnedFromMap(b[i - |a|], m);
      }
    }
  }

  /// A map holding the grid's cells on top of `before` is `before` updated
  /// with the whole grid.
  lemma GridFromCells(m: map<CellKey, BiomeType>, before: map<CellKey, BiomeType>,
                      noise: SimplexNoise, sine: real -> real, width: int, height: int)
    requires forall k :: k in m <==> k in before || IsCellOrigin(k, width, height)
    requires forall k :: k in m ==>
      m[k] == if IsCellOrigin(k, width, height) then CellBiome(noise, sine, k) else before[k]
    ensures m == before + BiomeGrid(noise, sine, width, height)
  {
  }

  lemma EmptyUnion(m: map<CellKey, BiomeType>)
    ensures map[] + m == m
  {
  }

  lemma ConcatAssoc(a: seq<NodeView>, b: seq<NodeView>, c: seq<NodeView>)
    ensures (a + b) + c == a + (b + c)
  {
  }

  lemma ViewsAppend(nodes: seq<ResourceNode>, n: ResourceNode)
    ensures Views(nodes + [n]) == Views(nodes) + [n.View()]
  {
    assert forall i :: 0 <= i < |nodes| ==> (nodes + [n])[i] == nodes[i];
  }

  lemma DistinctAppend(nodes: seq<ResourceNode>, n: ResourceNode)
    requires n !in nodes
    ensures Distinct(nodes + [n]) == Distinct(nodes)
  {
    assert (nodes + [n])[..|nodes|] == nodes;
  }

  /// The next cell origin along an axis is again a multiple of the cell size.
  lemma NextOrigin(a: int)
    requires a % CellSize == 0
    ensures (a + CellSize) % CellSize == 0
  {
    var p := a / CellSize;
    assert a + CellSize == CellSize * (p + 1);
  }

  /// Multiples of the cell size that differ by less than one cell are
  /// ordered the same way as their cells.
  lemma CellStep(a: int, b: int)
    requires a % CellSize == 0 && b % CellSize == 0 && a < b + CellSize
    ensures a <= b
  {
    var p := a / CellSize;
    var q := b / CellSize;
    assert a == CellSize * p && b == CellSize * q;
  }

  /// The nodes of `nodes` that are ungathered and within `radius` of
  /// (x, y), in their original order.
  function FilterNearby(nodes: seq<ResourceNode>, x: real, y: real, radius: real): (r: seq<ResourceNode>)
    reads nodes
    ensures forall i :: 0 <= i < |r| ==> r[i] in nodes && Eligible(r[i].View(), x, y, radius)
    ensures forall k :: 0 <= k < |nodes| && Eligible(nodes[k].View(), x, y, radius) ==> nodes[k] in r
    ensures var ix := NearbyIndices(Views(nodes), x, y, radius);
      |r| == |ix| && forall i :: 0 <= i < |r| ==> r[i] == nodes[ix[i]]
  {
    var vs := Views(nodes);
    var ix := NearbyIndices(vs, x, y, radius);
    var r := seq(|ix|, i requires 0 <= i < |ix| => nodes[ix[i]]);
    assert forall i :: 0 <= i < |r| ==> r[i] == nodes[ix[i]] && vs[ix[i]] == r[i].View();
    assert forall k :: 0 <= k < |nodes| && Eligible(nodes[k].View(), x, y, radius) ==> nodes[k] in r by {
      forall k | 0 <= k < |nodes| && Eligible(nodes[k].View(), x, y, radius)
        ensures nodes[k] in r
      {
        assert Eligible(vs[k], x, y, radius);
        var i :| 0 <= i < |ix| && ix[i] == k;
        assert r[i] == nodes[k];
      }
    }
    r
  }

  /// The cells `generateBiomes` has filled before reaching (x, y): the
  /// columns left of x, and the part of column x above y.
  predicate Visited(k: CellKey, width: int, height: int, x: int, y: int)
  {
    IsCellOrigin(k, width, height) && (k.x < x || (k.x == x && k.y < y))
  }

  /// The loop state of `generateBiomes` at (x, y): the visited cells hold
  /// their biome, every other key keeps its old entry.
  ghost predicate GridUpTo(m: map<CellKey, BiomeType>, before: map<CellKey, BiomeType>,
                     noise: SimplexNoise, sine: real -> real, width: int, height: int, x: int, y: int)
    reads noise
  {
    (forall k :: k in m <==> k in before || Visited(k, width, height, x, y)) &&
    (forall k :: k in m ==> m[k] == if Visited(k, width, height, x, y) then CellBiome(noise, sine, k) else before[k])
  }

  /// Filling cell (x, y) moves the loop state one cell down the column.
  lemma GridStep(m: map<CellKey, BiomeType>, before: map<CellKey, BiomeType>,
                 noise: SimplexNoise, sine: real -> real, width: int, height: int, x: int, y: int)
    requires 0 <= x < width && 0 <= y < height && x % CellSize == 0 && y % CellSize == 0
    requires GridUpTo(m, before, noise, sine, width, height, x, y)
    ensures GridUpTo(m[CellKey(x, y) := CellBiome(noise, sine, CellKey(x, y))], before, noise, sine, width, height, x, y + CellSize)
    ensures (y + CellSize) % CellSize == 0
  {
    NextOrigin(y);
    var m' := m[CellKey(x, y) := CellBiome(noise, sine, CellKey(x, y))];
    forall k
      ensures Visited(k, width, height, x, y + CellSize) <==> Visited(k, width, height, x, y) || k == CellKey(x, y)
    {
      if IsCellOrigin(k, width, height) && k.x == x && k.y < y + CellSize {
        CellStep(k.y, y);
      }
    }
  }

  /// A finished column: the state at (x, y >= height) is the state at the
  /// top of column x + 100.
  lemma GridNextColumn(m: map<CellKey, BiomeType>, before: map<CellKey, BiomeType>,
                       noise: SimplexNoise, sine: real -> real, width: int, height: int, x: int, y: int)
    requires x % CellSize == 0 && y >= height
    requires GridUpTo(m, before, noise, sine, width, height, x, y)
    ensures GridUpTo(m, before, noise, sine, width, height, x + CellSize, 0)
  {
    forall k
      ensures Visited(k, width, height, x + CellSize, 0) <==> Visited(k, width, height, x, y)
    {
      if IsCellOrigin(k, width, height) && k.x < x + CellSize {
        CellStep(k.x, x);
      }
    }
  }

  /// After the last column the map is the old one updated with the grid.
  lemma GridDone(m: map<CellKey, BiomeType>, before: map<CellKey, BiomeType>,
                 noise: SimplexNoise, sine: real -> real, width: int, height: int, x: int)
    requires x >= width
    requires GridUpTo(m, before, noise, sine, width, height, x, 0)
    ensures m == before + BiomeGrid(noise, sine, width, height)
  {
    assert forall k :: Visited(k, width, height, x, 0) <==> IsCellOrigin(k, width, height);
    GridFromCells(m, before, noise, sine, width, height);
  }

  // ---------------------------------------------------------------------
  // The generator object

  class WorldGenerator {
    const width: int
    const height: int
    const simplex: SimplexNoise
    /// The `Math.sin` the noise source samples.
    const sine: real -> real
    /// The `Math.random` draws, in call order; `drawn` of them are used up.
    const rand: nat -> real
    var drawn: nat
    var biomeMap: map<CellKey, BiomeType>
    var resourceNodes: seq<ResourceNode>

    /// No node object is listed twice and every node keeps its invariant.
    ghost predicate Valid()
      reads this, resourceNodes
    {
      Distinct(resourceNodes) && AllSound(Views(resourceNodes))
    }

    /// `new WorldGenerator(width, height)`: seed the noise with the fixed
    /// string, fill the biome grid, then spawn every cell's resources.
    constructor (width: int, height: int, sine: real -> real, rand: nat -> real)
      ensures this.width == width && this.height == height && this.sine == sine && this.rand == rand
      ensures simplex.seed == SeedHash(WorldSeed)
      ensures biomeMap == BiomeGrid(simplex, sine, width, height)
      ensures Views(resourceNodes) == SpawnColumns(biomeMap, 0, width, height, rand, 0).nodes
      ensures drawn == SpawnColumns(biomeMap, 0, width, height, rand, 0).next
      ensures Valid()
    {
      this.width := width;
      this.height := height;
      this.sine := sine;
      this.rand := rand;
      simplex := new SimplexNoise(WorldSeed);
      biomeMap := map[];
      resourceNodes := [];
      drawn := 0;
      new;
      GenerateBiomes();
      EmptyUnion(BiomeGrid(simplex, sine, width, height));
      assert Views(resourceNodes) == [];
      SpawnResources();
    }

    /// `Math.random()`: the next draw.
    method Random() returns (r: real)
      modifies this`drawn
      ensures r == rand(old(drawn)) && drawn == old(drawn) + 1
    {
      r := rand(drawn);
      drawn := drawn + 1;
    }

    /// `addResource`: a new node at a jittered position inside the cell,
    /// appended to `resourceNodes`.
    method AddResource(kind: ResourceType, cellX: int, cellY: int, cellSize: int, biome: BiomeType, hits: int)
      modifies this`resourceNodes, this`drawn
      ensures Views(resourceNodes) == old(Views(resourceNodes)) + [Place(kind, cellX, cellY, cellSize, biome, hits, rand, old(drawn))]
      ensures drawn == old(drawn) + 3
      ensures |resourceNodes| == |old(resourceNodes)| + 1 && resourceNodes[..|old(resourceNodes)|] == old(resourceNodes)
      ensures fresh(resourceNodes[|old(resourceNodes)|])
      ensures Distinct(resourceNodes) == old(Distinct(resourceNodes))
    {
      ghost var before := resourceNodes;
      ghost var beforeViews := Views(resourceNodes);
      var offsetX := Random();
      offsetX := Jitter(offsetX, cellSize);
      var offsetY := Random();
      offsetY := Jitter(offsetY, cellSize);
      var suffix := Random();
      var node := new ResourceNode(NodeView(NodeId(biome, kind, cellX, cellY, suffix), kind,
                                            Vector2(cellX as real + offsetX, cellY as real + offsetY), biome, hits, 0, false));
      assert Views(before) == beforeViews;
      assert node.View() == Place(kind, cellX, cellY, cellSize, biome, hits, rand, old(drawn));
      assert node !in before;
      resourceNodes := resourceNodes + [node];
      ViewsAppend(before, node);
      DistinctAppend(before, node);
      assert resourceNodes[..|old(resourceNodes)|] == old(resourceNodes);
    }

    /// `generateBiomes`: every cell origin of the world gets the biome its
    /// noise value classifies to, on top of what the map already held.
    method GenerateBiomes()
      modifies this`biomeMap
      ensures biomeMap == old(biomeMap) + BiomeGrid(simplex, sine, width, height)
    {
      ghost var start := biomeMap;
      var x := 0;
      while x < width
        invariant 0 <= x && x % CellSize == 0
        invariant GridUpTo(biomeMap, start, simplex, sine, width, height, x, 0)
      {
        var y := 0;
        while y < height
          invariant 0 <= y && y % CellSize == 0
          invariant GridUpTo(biomeMap, start, simplex, sine, width, height, x, y)
        {
          var noiseVal := simplex.Noise2D(sine, x as real * BiomeScale, y as real * BiomeScale);
          var biome := Classify(noiseVal);
          assert biome == CellBiome(simplex, sine, CellKey(x, y));
          GridStep(biomeMap, start, simplex, sine, width, height, x, y);
          biomeMap := biomeMap[CellKey(x, y) := biome];
          y := y + CellSize;
        }
        GridNextColumn(biomeMap, start, simplex, sine, width, height, x, y);
        NextOrigin(x);
        x := x + CellSize;
      }
      GridDone(biomeMap, start, simplex, sine, width, height, x);
    }

    /// `spawnResources`: visit the cells column by column and append what
    /// each cell's biome calls for.
    method SpawnResources()
      modifies this`resourceNodes, this`drawn
      ensures Views(resourceNodes) == old(Views(resourceNodes)) + SpawnColumns(biomeMap, 0, width, height, rand, old(drawn)).nodes
      ensures drawn == SpawnColumns(biomeMap, 0, width, height, rand, old(drawn)).next
      ensures old(Valid()) ==> Valid()
    {
      ghost var start := Views(resourceNodes);
      ghost var wasDistinct := Distinct(resourceNodes);
      ghost var total := SpawnColumns(biomeMap, 0, width, height, rand, drawn);
      var x := 0;
      while x < width
        invariant 0 <= x && x % CellSize == 0
        invariant Views(resourceNodes) + SpawnColumns(biomeMap, x, width, height, rand, drawn).nodes == start + total.nodes
        invariant SpawnColumns(biomeMap, x, width, height, rand, drawn).next == total.next
        invariant Distinct(resourceNodes) == wasDistinct
      {
        ghost var columnStart := Views(resourceNodes);
        ghost var column := SpawnColumn(biomeMap, x, 0, height, rand, drawn);
        ghost var others := SpawnColumns(biomeMap, x + CellSize, width, height, rand, column.next);
        assert SpawnColumns(biomeMap, x, width, height, rand, drawn) == Spawn(column.nodes + others.nodes, others.next);
        var y := 0;
        while y < height
          invariant 0 <= y && y % CellSize == 0
          invariant Views(resourceNodes) + SpawnColumn(biomeMap, x, y, height, rand, drawn).nodes == columnStart + column.nodes
          invariant SpawnColumn(biomeMap, x, y, height, rand, drawn).next == column.next
          invariant Distinct(resourceNodes) == wasDistinct
        {
          ghost var cellStart := Views(resourceNodes);
          ghost var cell := CellSpawnAt(biomeMap, x, y, rand, drawn);
          ghost var rest := SpawnColumn(biomeMap, x, y + CellSize, height, rand, cell.next);
          assert SpawnColumn(biomeMap, x, y, height, rand, drawn) == Spawn(cell.nodes + rest.nodes, rest.next);
          var biome := GetBiomeAt(x as real, y as real);
          if biome.Some? {
            assert cell == CellSpawn(biome.value, x, y, rand, drawn);
            SpawnCell(biome.value, x, y);
          } else {
            assert cell == Spawn([], drawn);
          }
          assert Views(resourceNodes) == cellStart + cell.nodes && drawn == cell.next;
          ConcatAssoc(cellStart, cell.nodes, rest.nodes);
          NextOrigin(y);
          y := y + CellSize;
        }
        assert SpawnColumn(biomeMap, x, y, height, rand, drawn) == Spawn([], drawn);
        assert Views(resourceNodes) == columnStart + column.nodes && drawn == column.next;
        ConcatAssoc(columnStart, column.nodes, others.nodes);
        NextOrigin(x);
        x := x + CellSize;
      }
      if old(Valid()) {
        SpawnColumnsFresh(biomeMap, 0, width, height, rand, old(drawn));
        SoundConcat(start, total.nodes, biomeMap);
      }
    }

    /// The if-chain on the biome inside the spawning loop.
    method SpawnCell(biome: BiomeType, x: int, y: int)
      modifies this`resourceNodes, this`drawn
      ensures Views(resourceNodes) == old(Views(resourceNodes)) + CellSpawn(biome, x, y, rand, old(drawn)).nodes
      ensures drawn == CellSpawn(biome, x, y, rand, old(drawn)).next
      ensures Distinct(resourceNodes) == old(Distinct(resourceNodes))
    {
      ghost var v0 := Views(resourceNodes);
      ghost var d := drawn;
      ghost var a: Spawn;
      if biome == Forest {
        a := RepeatAdd(3, Wood, x, y, Forest, 3, rand, d);
        AddTrees(x, y);
        ghost var v1 := Views(resourceNodes);
        AddChance(0.5, Stone, x, y, Forest, 5);
        ConcatAssoc(v0, a.nodes, Chance(0.5, Stone, x, y, Forest, 5, rand, a.next).nodes);
      } else if biome == Plains {
        a := Chance(0.3, Wood, x, y, Plains, 3, rand, d);
        AddChance(0.3, Wood, x, y, Plains, 3);
        AddBushes(x, y);
        ConcatAssoc(v0, a.nodes, RepeatChance(2, 0.7, Food, x, y, Plains, 1, rand, a.next).nodes);
      } else if biome == Desert {
        a := Chance(0.4, Mineral, x, y, Desert, 10, rand, d);
        AddChance(0.4, Mineral, x, y, Desert, 10);
        AddChance(0.3, Stone, x, y, Desert, 7);
        ConcatAssoc(v0, a.nodes, Chance(0.3, Stone, x, y, Desert, 7, rand, a.next).nodes);
      } else if biome == Snow {
        a := Chance(0.6, Wood, x, y, Snow, 4, rand, d);
        AddChance(0.6, Wood, x, y, Snow, 4);
        AddChance(0.4, Stone, x, y, Snow, 6);
        ConcatAssoc(v0, a.nodes, Chance(0.4, Stone, x, y, Snow, 6, rand, a.next).nodes);
      } else if biome == Swamp {
        a := Chance(0.4, Wood, x, y, Swamp, 3, rand, d);
        AddChance(0.4, Wood, x, y, Swamp, 3);
        AddChance(0.2, Mineral, x, y, Swamp, 10);
        ConcatAssoc(v0, a.nodes, Chance(0.2, Mineral, x, y, Swamp, 10, rand, a.next).nodes);
      }
    }

    /// `if (Math.random() < p) this.addResource(...)`
    method AddChance(p: real, kind: ResourceType, x: int, y: int, biome: BiomeType, hits: int)
      modifies this`resourceNodes, this`drawn
      ensures Views(resourceNodes) == old(Views(resourceNodes)) + Chance(p, kind, x, y, biome, hits, rand, old(drawn)).nodes
      ensures drawn == Chance(p, kind, x, y, biome, hits, rand, old(drawn)).next
      ensures Distinct(resourceNodes) == old(Distinct(resourceNodes))
    {
      var r := Random();
      if r < p {
        AddResource(kind, x, y, CellSize, biome, hits);
      }
    }

    /// The forest trees: `for (let i = 0; i < 3; i++)
    /// this.addResource('wood', x, y, cellSize, biome, 3)`.
    method AddTrees(x: int, y: int)
      modifies this`resourceNodes, this`drawn
      ensures Views(resourceNodes) == old(Views(resourceNodes)) + RepeatAdd(3, Wood, x, y, Forest, 3, rand, old(drawn)).nodes
      ensures drawn == RepeatAdd(3, Wood, x, y, Forest, 3, rand, old(drawn)).next
      ensures Distinct(resourceNodes) == old(Distinct(resourceNodes))
    {
      ghost var start := Views(resourceNodes);
      ghost var wasDistinct := Distinct(resourceNodes);
      ghost var d0 := drawn;
      for i := 0 to 3
        invariant Views(resourceNodes) == start + RepeatAdd(i, Wood, x, y, Forest, 3, rand, d0).nodes
        invariant drawn == d0 + 3 * i
        invariant Distinct(resourceNodes) == wasDistinct
      {
        RepeatAddSnoc(i, Wood, x, y, Forest, 3, rand, d0);
        ConcatAssoc(start, RepeatAdd(i, Wood, x, y, Forest, 3, rand, d0).nodes, [Place(Wood, x, y, CellSize, Forest, 3, rand, d0 + 3 * i)]);
        AddResource(Wood, x, y, CellSize, Forest, 3);
      }
    }

    /// The plains bushes: `for (let i = 0; i < 2; i++) if (Math.random() < 0.7)
    /// this.addResource('food', x, y, cellSize, biome, 1)`.
    method AddBushes(x: int, y: int)
      modifies this`resourceNodes, this`drawn
      ensures Views(resourceNodes) == old(Views(resourceNodes)) + RepeatChance(2, 0.7, Food, x, y, Plains, 1, rand, old(drawn)).nodes
      ensures drawn == RepeatChance(2, 0.7, Food, x, y, Plains, 1, rand, old(drawn)).next
      ensures Distinct(resourceNodes) == old(Distinct(resourceNodes))
    {
      ghost var start := Views(resourceNodes);
      ghost var wasDistinct := Distinct(resourceNodes);
      ghost var target := RepeatChance(2, 0.7, Food, x, y, Plains, 1, rand, drawn);
      for i := 0 to 2
        invariant Then(Spawn(Views(resourceNodes), drawn), RepeatChance(2 - i, 0.7, Food, x, y, Plains, 1, rand, drawn))
                  == Spawn(start + target.nodes, target.next)
        invariant Distinct(resourceNodes) == wasDistinct
      {
        ghost var before := Views(resourceNodes);
        ghost var d := drawn;
        ghost var first := Chance(0.7, Food, x, y, Plains, 1, rand, d);
        AddChance(0.7, Food, x, y, Plains, 1);
        RepeatChanceUnfold(2 - i, 0.7, Food, x, y, Plains, 1, rand, d);
        ConcatAssoc(before, first.nodes, RepeatChance(1 - i, 0.7, Food, x, y, Plains, 1, rand, first.next).nodes);
      }
    }

    /// `getBiomeAt(x, y)`: on the grid the constructor builds, a biome exactly
    /// for points whose owning cell lies in the world, and then that cell's
    /// noise-classified biome.
    function GetBiomeAt(x: real, y: real): (r: Option<BiomeType>)
      reads this, simplex
      ensures var k := CellOf(x, y);
        biomeMap == BiomeGrid(simplex, sine, width, height) ==>
          (r.Some? <==> 0 <= k.x < width && 0 <= k.y < height) &&
          (r.Some? ==> r.value == CellBiome(simplex, sine, k))
    {
      LookupBiomeOnGrid(simplex, sine, width, height, x, y);
      LookupBiome(biomeMap, x, y)
    }

    /// `getNearbyResources(x, y, radius)`: the ungathered nodes within
    /// `radius` of (x, y), in array order.
    function GetNearbyResources(x: real, y: real, radius: real): (r: seq<ResourceNode>)
      reads this, resourceNodes
      // only eligible nodes of the list are kept
      ensures forall i :: 0 <= i < |r| ==> r[i] in resourceNodes && Eligible(r[i].View(), x, y, radius)
      // every eligible node is kept
      ensures forall k :: 0 <= k < |resourceNodes| && Eligible(resourceNodes[k].View(), x, y, radius) ==> resourceNodes[k] in r
      // in array order: the kept nodes sit at increasing positions of the array
      ensures var ix := NearbyIndices(Views(resourceNodes), x, y, radius);
        |r| == |ix| && forall i :: 0 <= i < |r| ==> r[i] == resourceNodes[ix[i]]
    {
      FilterNearby(resourceNodes, x, y, radius)
    }
  }
}
