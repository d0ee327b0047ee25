/// A gatherable resource node: it needs `hitsRequired` hits and then counts
/// as gathered for good.
module ResourceNodes {
  import opened Types

  /// The components of a generated node's id: biome, kind, cell origin and
  /// the random suffix the generator appends.
  datatype NodeId = NodeId(biome: BiomeType, kind: ResourceType, cellX: int, cellY: int, suffix: real)

  /// The value of every field of a node at one moment.
  datatype NodeView = NodeView(
    id: NodeId,
    kind: ResourceType,
    position: Vector2,
    biome: BiomeType,
    hitsRequired: int,
    currentHits: int,
    isGathered: bool)

  /// The node's own invariant: never more hits than required, and gathered
  /// exactly when the last required hit has landed.
  predicate NodeInvariant(v: NodeView)
  {
    1 <= v.hitsRequired && 0 <= v.currentHits <= v.hitsRequired &&
    (v.isGathered <==> v.currentHits == v.hitsRequired)
  }

  /// What one call of `hit()` does to a node, and what it returns.
  datatype HitOutcome = HitOutcome(after: NodeView, gathered: bool)

  function HitStep(v: NodeView): (r: HitOutcome)
    // a gathered node is left alone and reports false
    ensures v.isGathered ==> r.after == v && !r.gathered
    // otherwise exactly one more hit, and gathered once enough hits landed
    ensures !v.isGathered ==> r.after.currentHits == v.currentHits + 1
    ensures !v.isGathered ==> (r.after.isGathered <==> r.after.currentHits >= v.hitsRequired)
    // true exactly on the transition from ungathered to gathered
    ensures r.gathered <==> !v.isGathered && r.after.isGathered
    // gathered never reverts
    ensures v.isGathered ==> r.after.isGathered
    // only the two counters can change
    ensures r.after == v.(currentHits := r.after.currentHits, isGathered := r.after.isGathered)
  {
    if v.isGathered then HitOutcome(v, false)
    else
      var hits := v.currentHits + 1;
      if hits >= v.hitsRequired then HitOutcome(v.(currentHits := hits, isGathered := true), true)
      else HitOutcome(v.(currentHits := hits), false)
  }

  lemma HitPreservesInvariant(v: NodeView)
    requires NodeInvariant(v)
    ensures NodeInvariant(HitStep(v).after)
  {
  }

  /// The node after `n` consecutive hits.
  function HitTimes(v: NodeView, n: nat): NodeView
  {
    if n == 0 then v else HitStep(HitTimes(v, n - 1)).after
  }

  /// A fresh node with `k` required hits stays ungathered through its first
  /// k-1 hits, each reporting false, and the k-th hit reports true.
  lemma {:induction false} HitsUntilGathered(v: NodeView, n: nat)
    requires v.currentHits == 0 && !v.isGathered && 1 <= v.hitsRequired
    requires n < v.hitsRequired
    ensures HitTimes(v, n) == v.(currentHits := n)
    ensures HitStep(HitTimes(v, n)).gathered <==> n == v.hitsRequired - 1
  {
    if n > 0 {
      HitsUntilGathered(v, n - 1);
    }
  }

  /// The node object. Only `currentHits` and `isGathered` are ever written
  /// after construction.
  class ResourceNode {
    const id: NodeId
    const kind: ResourceType
    const position: Vector2
    const biome: BiomeType
    const hitsRequired: int
    var currentHits: int
    var isGathered: bool

    function View(): NodeView
      reads this
    {
      NodeView(id, kind, position, biome, hitsRequired, currentHits, isGathered)
    }

    constructor (props: NodeView)
      ensures View() == props
    {
      id := props.id;
      kind := props.kind;
      position := props.position;
      biome := props.biome;
      hitsRequired := props.hitsRequired;
      currentHits := props.currentHits;
      isGathered := props.isGathered;
    }

    method Hit() returns (gathered: bool)
      modifies this
      ensures HitOutcome(View(), gathered) == HitStep(old(View()))
    {
      if isGathered {
        return false;
      }
      currentHits := currentHits + 1;
      if currentHits >= hitsRequired {
        isGathered := true;
        return true;
      }
      return false;
    }
  }

  /// The views of a sequence of node objects, element by element.
  function Views(nodes: seq<ResourceNode>): (r: seq<NodeView>)
    reads nodes
    ensures |r| == |nodes|
    ensures forall i :: 0 <= i < |nodes| ==> r[i] == nodes[i].View()
  {
    seq(|nodes|, i reads nodes requires 0 <= i < |nodes| => nodes[i].View())
  }

  /// No node object appears twice: each one is absent from the part of the
  /// list before it.
  predicate Distinct(nodes: seq<ResourceNode>)
  {
    nodes == [] || (nodes[|nodes| - 1] !in nodes[..|nodes| - 1] && Distinct(nodes[..|nodes| - 1]))
  }

  /// In a distinct list, different positions hold different objects.
  lemma {:induction false} DistinctAt(nodes: seq<ResourceNode>, i: nat, j: nat)
    requires Distinct(nodes) && i < j < |nodes|
    ensures nodes[i] != nodes[j]
  {
    var n := |nodes| - 1;
    if j == n {
      assert nodes[i] == nodes[..n][i];
    } else {
      DistinctAt(nodes[..n], i, j);
    }
  }
}

/// The scenario of the node unit test: a wood node needing three hits.
module ResourceNodeScenario {
  import opened Types
  import opened ResourceNodes

  method ThreeHitWoodNode() returns (first: bool, second: bool, third: bool, gatheredAfterTwo: bool, gatheredAfterThree: bool)
    ensures !first && !second && third
    ensures !gatheredAfterTwo && gatheredAfterThree
  {
    var node := new ResourceNode(NodeView(NodeId(Forest, Wood, 0, 0, 0.0), Wood, Vector2(10.0, 20.0), Forest, 3, 0, false));
    first := node.Hit();
    second := node.Hit();
    gatheredAfterTwo := node.isGathered;
    third := node.Hit();
    gatheredAfterThree := node.isGathered;
  }
}
