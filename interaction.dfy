/// Gathering: each press of the gather key hits the nearest ungathered node
/// within reach of the player, and a node's last required hit moves one unit
/// of its kind into the inventory.
module Interaction {
  import opened Types
  import opened ResourceNodes
  import opened Spatial
  import opened WorldGen
  import opened Players

  /// How far from the player a node can be gathered.
  const GatherRadius: real := 60.0

  /// The `gathering` record: the node being worked on, a progress value the
  /// system never changes, and whether a node is in progress.
  datatype Gathering = Gathering(node: Option<ResourceNode>, progress: real, active: bool)

  const Idle := Gathering(None, 0.0, false)

  // ---------------------------------------------------------------------
  // The effect of one press, on values

  /// The nodes' fields and the inventory counts at one moment.
  datatype Stock = Stock(views: seq<NodeView>, resources: ResourceAmount)

  /// What one press did: the new stock, the index of the node that was hit
  /// (none when nothing was in reach) and whether that hit completed it.
  datatype GatherOutcome = GatherOutcome(after: Stock, target: Option<nat>, completed: bool)

  /// One press from (x, y): the node `NearestIndex` names takes a hit, and a
  /// completing hit adds one unit of its kind.
  function Gather(s: Stock, x: real, y: real): GatherOutcome
  {
    match NearestIndex(s.views, x, y, GatherRadius)
    case None => GatherOutcome(s, None, false)
    case Some(k) =>
      var h := HitStep(s.views[k]);
      var resources := if h.gathered then s.resources.Incremented(s.views[k].kind) else s.resources;
      GatherOutcome(Stock(s.views[k := h.after], resources), Some(k), h.gathered)
  }

  /// What one press means.
  lemma GatherMeaning(s: Stock, x: real, y: real)
    ensures var r := Gather(s, x, y);
      // nothing in reach: nothing changes
      (r.target.None? <==> forall k :: 0 <= k < |s.views| ==> !Eligible(s.views[k], x, y, GatherRadius)) &&
      (r.target.None? ==> r.after == s && !r.completed)
    // otherwise the target is an eligible node of minimum distance, the
    // earliest in list order among equally near ones
    ensures var r := Gather(s, x, y);
      r.target.Some? ==>
        var k := r.target.value;
        k < |s.views| && Eligible(s.views[k], x, y, GatherRadius) &&
        (forall j :: 0 <= j < |s.views| && Eligible(s.views[j], x, y, GatherRadius) ==>
           Dist2(s.views[k].position, x, y) <= Dist2(s.views[j].position, x, y)) &&
        (forall j :: 0 <= j < k && Eligible(s.views[j], x, y, GatherRadius) ==>
           Dist2(s.views[j].position, x, y) > Dist2(s.views[k].position, x, y))
    // the target takes one hit and no other node changes
    ensures var r := Gather(s, x, y);
      r.target.Some? ==>
        var k := r.target.value;
        k < |s.views| && |r.after.views| == |s.views| &&
        r.after.views[k] == HitStep(s.views[k]).after && r.completed == HitStep(s.views[k]).gathered &&
        forall j :: 0 <= j < |s.views| && j != k ==> r.after.views[j] == s.views[j]
    // one unit of the target's kind is added exactly when the hit completed it
    ensures var r := Gather(s, x, y);
      (!r.completed ==> r.after.resources == s.resources) &&
      (r.completed ==> (r.target.Some? && r.target.value < |s.views| &&
                        r.after.resources == s.resources.Incremented(s.views[r.target.value].kind)))
  {
    NearestIndexMeaning(s.views, x, y, GatherRadius);
  }

  /// No inventory count ever goes down, and at most one goes up, by one.
  lemma GatherNeverLoses(s: Stock, x: real, y: real, t: ResourceType)
    ensures var c := Gather(s, x, y).after.resources.Count(t);
      s.resources.Count(t) <= c <= s.resources.Count(t) + 1
  {
    GatherMeaning(s, x, y);
  }

  /// A press keeps every node's invariant.
  lemma GatherPreservesSoundness(s: Stock, x: real, y: real)
    requires AllSound(s.views)
    ensures AllSound(Gather(s, x, y).after.views)
  {
    var r := Gather(s, x, y);
    GatherMeaning(s, x, y);
    if r.target.Some? {
      HitPreservesInvariant(s.views[r.target.value]);
    }
  }

  /// The stock after `n` presses from the same spot.
  function GatherTimes(s: Stock, x: real, y: real, n: nat): Stock
  {
    if n == 0 then s else Gather(GatherTimes(s, x, y, n - 1), x, y).after
  }

  /// The stock with node k's hit count set to c.
  function Recounted(s: Stock, k: nat, c: nat): Stock
    requires k < |s.views|
  {
    Stock(s.views[k := s.views[k].(currentHits := c)], s.resources)
  }

  /// The stock once node k has taken its last hit: gathered, and one more
  /// unit of its kind.
  function Completed(s: Stock, k: nat): Stock
    requires k < |s.views|
  {
    var v := s.views[k];
    Stock(s.views[k := v.(currentHits := v.hitsRequired, isGathered := true)], s.resources.Incremented(v.kind))
  }

  /// Standing still in front of a fresh node that is the nearest one in
  /// reach, the player hits that same node on every press: the first
  /// `hitsRequired - 1` presses only count hits, and the next one gathers it
  /// and adds one unit of its kind.
  lemma {:induction false} GatherUntilDone(s: Stock, x: real, y: real, k: nat, n: nat)
    requires NearestIndex(s.views, x, y, GatherRadius) == Some(k)
    requires s.views[k].currentHits == 0 && 1 <= s.views[k].hitsRequired
    requires n <= s.views[k].hitsRequired
    ensures GatherTimes(s, x, y, n) == if n < s.views[k].hitsRequired then Recounted(s, k, n) else Completed(s, k)
  {
    if n == 0 {
      assert Recounted(s, k, 0).views == s.views;
    } else {
      GatherUntilDone(s, x, y, k, n - 1);
      PressAgain(s, x, y, k, n);
    }
  }

  /// The n-th press, when the first n - 1 only counted hits on node k.
  lemma PressAgain(s: Stock, x: real, y: real, k: nat, n: nat)
    requires NearestIndex(s.views, x, y, GatherRadius) == Some(k)
    requires 0 < n <= s.views[k].hitsRequired
    requires GatherTimes(s, x, y, n - 1) == Recounted(s, k, n - 1)
    ensures GatherTimes(s, x, y, n) == if n < s.views[k].hitsRequired then Recounted(s, k, n) else Completed(s, k)
  {
    GatherRecount(s, x, y, k, n - 1);
  }

  /// One press on the nearest node after `c` of its hits have landed.
  lemma GatherRecount(s: Stock, x: real, y: real, k: nat, c: nat)
    requires NearestIndex(s.views, x, y, GatherRadius) == Some(k)
    requires c < s.views[k].hitsRequired
    ensures Gather(Recounted(s, k, c), x, y).after ==
      if c + 1 < s.views[k].hitsRequired then Recounted(s, k, c + 1) else Completed(s, k)
  {
    var v := s.views[k];
    var before := Recounted(s, k, c);
    NearestIndexMeaning(s.views, x, y, GatherRadius);
    NearestAfterRecount(s.views, x, y, k, c);
    GatherAt(before, x, y, k);
    assert before.views[k] == v.(currentHits := c);
    var h := HitStep(v.(currentHits := c));
    assert before.views[k := h.after] == s.views[k := h.after];
  }

  /// Changing only the hit count of the nearest node keeps it the nearest.
  lemma NearestAfterRecount(vs: seq<NodeView>, x: real, y: real, k: nat, c: int)
    requires NearestIndex(vs, x, y, GatherRadius) == Some(k)
    ensures k < |vs| && NearestIndex(vs[k := vs[k].(currentHits := c)], x, y, GatherRadius) == Some(k)
  {
    var ws := vs[k := vs[k].(currentHits := c)];
    assert SameQueryFields(vs, ws) by {
      forall i | 0 <= i < |vs|
        ensures vs[i].position == ws[i].position && vs[i].isGathered == ws[i].isGathered
      {
      }
    }
    NearestIndexIgnoresHits(vs, ws, x, y, GatherRadius);
  }

  /// A press when `NearestIndex` names node k.
  lemma GatherAt(s: Stock, x: real, y: real, k: nat)
    requires NearestIndex(s.views, x, y, GatherRadius) == Some(k)
    ensures k < |s.views|
    ensures var h := HitStep(s.views[k]);
      Gather(s, x, y) ==
        GatherOutcome(Stock(s.views[k := h.after], if h.gathered then s.resources.Incremented(s.views[k].kind) else s.resources),
                      Some(k), h.gathered)
  {
  }

  /// A press with nothing in reach.
  lemma GatherNothing(s: Stock, x: real, y: real)
    requires NearestIndex(s.views, x, y, GatherRadius).None?
    ensures Gather(s, x, y) == GatherOutcome(s, None, false)
  {
  }

  // ---------------------------------------------------------------------
  // The choice among the nearby nodes

  /// The distances of the candidates to (x, y), in list order: the keys
  /// the source's comparator sorts by, squared.
  function Distances(nearby: seq<ResourceNode>, x: real, y: real): (ds: seq<real>)
    ensures |ds| == |nearby| && forall i :: 0 <= i < |nearby| ==> ds[i] == Dist2(nearby[i].position, x, y)
  {
    seq(|nearby|, i requires 0 <= i < |nearby| => Dist2(nearby[i].position, x, y))
  }

  /// `nearby.sort(byDistance)[0]`: a stable sort puts first the earliest of
  /// the nearest candidates.
  function SortedFirst(nearby: seq<ResourceNode>, x: real, y: real): (r: ResourceNode)
    requires |nearby| > 0
    ensures r in nearby
  {
    nearby[FirstMinIndex(Distances(nearby, x, y))]
  }

  /// Taking the first of the sorted query result picks the node that
  /// `NearestIndex` names, and the query is empty exactly when it names none.
  lemma SortedFirstIsNearest(nodes: seq<ResourceNode>, x: real, y: real, radius: real)
    ensures var nearby := FilterNearby(nodes, x, y, radius);
      var n := NearestIndex(Views(nodes), x, y, radius);
      (|nearby| == 0 <==> n.None?) &&
      (n.Some? ==> |nearby| > 0 && n.value < |nodes| && SortedFirst(nearby, x, y) == nodes[n.value])
  {
    var vs := Views(nodes);
    var nearby := FilterNearby(nodes, x, y, radius);
    var ix := NearbyIndices(vs, x, y, radius);
    NearestIndexMeaning(vs, x, y, radius);
    if |ix| > 0 {
      var ds := Distances(nearby, x, y);
      assert ds == DistancesAt(vs, ix, x, y);
      var m := FirstMinIndex(ds);
      NearestRespectsOrder(vs, x, y, radius, ix, ds, m);
      NearestUnique(vs, x, y, radius, ix[m], NearestIndex(vs, x, y, radius).value);
    }
  }

  /// The views of a list in which only the k-th node changed.
  lemma ViewsUpdate(nodes: seq<ResourceNode>, k: nat, vs: seq<NodeView>, v: NodeView)
    requires |vs| == |nodes| && k < |nodes|
    requires nodes[k].View() == v
    requires forall j :: 0 <= j < |nodes| && j != k ==> nodes[j].View() == vs[j]
    ensures Views(nodes) == vs[k := v]
  {
  }

  // ---------------------------------------------------------------------
  // The system object

  class InteractionSystem {
    /// The world whose `getNearbyResources` the system queries.
    const world: WorldGenerator
    const player: Player
    const inventory: Inventory
    var gathering: Gathering

    constructor (world: WorldGenerator, player: Player, inventory: Inventory)
      ensures this.world == world && this.player == player && this.inventory == inventory
      ensures gathering == Idle
    {
      this.world := world;
      this.player := player;
      this.inventory := inventory;
      gathering := Idle;
    }

    /// The nodes' fields and the inventory counts together.
    function CurrentStock(): Stock
      reads world, world.resourceNodes, inventory
    {
      Stock(Views(world.resourceNodes), inventory.resources)
    }

    /// `getNearestResource()`
    function GetNearestResource(): (r: Option<ResourceNode>)
      reads world, world.resourceNodes, player
      // none exactly when no ungathered node is in reach
      ensures r.None? <==> forall k :: 0 <= k < |world.resourceNodes| ==>
                             !Eligible(world.resourceNodes[k].View(), player.position.x, player.position.y, GatherRadius)
      // otherwise the node a press would hit
      ensures var n := NearestIndex(Views(world.resourceNodes), player.position.x, player.position.y, GatherRadius);
        r.Some? ==> n.Some? && n.value < |world.resourceNodes| && r.value == world.resourceNodes[n.value]
    {
      var nearby := world.GetNearbyResources(player.position.x, player.position.y, GatherRadius);
      SortedFirstIsNearest(world.resourceNodes, player.position.x, player.position.y, GatherRadius);
      NearestIndexMeaning(Views(world.resourceNodes), player.position.x, player.position.y, GatherRadius);
      if |nearby| == 0 then None
      else Some(SortedFirst(nearby, player.position.x, player.position.y))
    }

    /// `attemptGather()`
    method AttemptGather()
      requires world.Valid()
      modifies world.resourceNodes, inventory, this`gathering
      // the nodes and the inventory change as one press does on values
      ensures CurrentStock() == Gather(old(CurrentStock()), old(player.position.x), old(player.position.y)).after
      // the gathering record: untouched when nothing was in reach, cleared on
      // completion, and pointing at the hit node otherwise; progress stays
      // and the node hit is the one `getNearestResource` named before the press
      ensures var g := Gather(old(CurrentStock()), old(player.position.x), old(player.position.y));
        (g.target.None? ==> gathering == old(gathering) && old(GetNearestResource()).None?) &&
        (g.completed ==> gathering == old(gathering).(node := None, active := false)) &&
        (g.target.Some? ==>
           (g.target.value < |world.resourceNodes| &&
            old(GetNearestResource()) == Some(world.resourceNodes[g.target.value]) &&
            (!g.completed ==> gathering == old(gathering).(node := Some(world.resourceNodes[g.target.value]), active := true))))
      ensures world.Valid()
    {
      var x, y := player.position.x, player.position.y;
      ghost var s := CurrentStock();
      ghost var nodes := world.resourceNodes;
      ghost var nearest := GetNearestResource();
      var nearby := world.GetNearbyResources(x, y, GatherRadius);
      SortedFirstIsNearest(nodes, x, y, GatherRadius);
      GatherPreservesSoundness(s, x, y);
      if |nearby| == 0 {
        GatherNothing(s, x, y);
        return;
      }
      var node := SortedFirst(nearby, x, y);
      ghost var k := NearestIndex(s.views, x, y, GatherRadius).value;
      GatherAt(s, x, y, k);
      assert node == nodes[k];
      HitChosen(node, nodes, k, s.views);
      assert nearest == Some(node);
    }

    /// The second half of `attemptGather()`: one `hit()` on the chosen node,
    /// which is the k-th of a list of distinct nodes; on completion one more
    /// unit of its kind and the record cleared, otherwise the record pointing
    /// at the node.
    method HitChosen(node: ResourceNode, ghost nodes: seq<ResourceNode>, ghost k: nat, ghost vs: seq<NodeView>)
      requires Distinct(nodes) && k < |nodes| && nodes[k] == node && Views(nodes) == vs
      modifies node, inventory, this`gathering
      ensures world.resourceNodes == old(world.resourceNodes)
      ensures Views(nodes) == vs[k := HitStep(vs[k]).after]
      ensures HitStep(vs[k]).gathered ==>
        inventory.resources == old(inventory.resources).Incremented(vs[k].kind) &&
        gathering == old(gathering).(node := None, active := false)
      ensures !HitStep(vs[k]).gathered ==>
        inventory.resources == old(inventory.resources) &&
        gathering == old(gathering).(node := Some(node), active := true)
    {
      var gathered := node.Hit();
      forall j | 0 <= j < |nodes| && j != k
        ensures nodes[j].View() == vs[j]
      {
        if j < k { DistinctAt(nodes, j, k); } else { DistinctAt(nodes, k, j); }
      }
      ViewsUpdate(nodes, k, vs, HitStep(vs[k]).after);
      if gathered {
        inventory.Increment(node.kind);
        gathering := gathering.(active := false);
        gathering := gathering.(node := None);
      } else {
        gathering := gathering.(active := true);
        gathering := gathering.(node := Some(node));
      }
    }

    /// `reset()`
    method Reset()
      modifies this`gathering
      ensures gathering == Idle
    {
      gathering := Idle;
    }
  }
}
