/// Proximity queries over the resource nodes: the "ungathered and within
/// radius" filter and the nearest-node choice that follows it.
module Spatial {
  import opened Types
  import opened ResourceNodes

  /// Squared Euclidean distance between a point and (x, y).
  function Dist2(p: Vector2, x: real, y: real): (d: real)
    ensures d >= 0.0
  {
    (p.x - x) * (p.x - x) + (p.y - y) * (p.y - y)
  }

  /// `Math.hypot(p.x - x, p.y - y) <= radius`, stated without the square
  /// root: a negative radius admits nothing.
  predicate WithinRadius(p: Vector2, x: real, y: real, radius: real)
  {
    radius >= 0.0 && Dist2(p, x, y) <= radius * radius
  }

  /// The filter condition of `getNearbyResources`.
  predicate Eligible(v: NodeView, x: real, y: real, radius: real)
  {
    !v.isGathered && WithinRadius(v.position, x, y, radius)
  }

  /// The indices of the eligible nodes, in increasing order.
  function NearbyIndices(vs: seq<NodeView>, x: real, y: real, radius: real): (ix: seq<nat>)
    ensures forall i :: 0 <= i < |ix| ==> ix[i] < |vs| && Eligible(vs[ix[i]], x, y, radius)
    ensures forall i, j :: 0 <= i < j < |ix| ==> ix[i] < ix[j]
    ensures forall k :: 0 <= k < |vs| && Eligible(vs[k], x, y, radius) ==> k in ix
  {
    if vs == [] then []
    else
      var n := |vs| - 1;
      var prefix := NearbyIndices(vs[..n], x, y, radius);
      if Eligible(vs[n], x, y, radius) then prefix + [n] else prefix
  }

  /// The first position of a minimum: what index 0 of a stable ascending
  /// sort by these keys holds.
  function FirstMinIndex(ds: seq<real>): (k: nat)
    requires |ds| > 0
    ensures k < |ds|
    ensures forall j :: 0 <= j < |ds| ==> ds[k] <= ds[j]
    ensures forall j :: 0 <= j < k ==> ds[j] > ds[k]
  {
    if |ds| == 1 then 0
    else
      var k := FirstMinIndex(ds[..|ds| - 1]);
      if ds[|ds| - 1] < ds[k] then |ds| - 1 else k
  }

  /// The distances of the nodes at positions `ix` to (x, y), in that order.
  function DistancesAt(vs: seq<NodeView>, ix: seq<nat>, x: real, y: real): (ds: seq<real>)
    requires forall i :: 0 <= i < |ix| ==> ix[i] < |vs|
    ensures |ds| == |ix| && forall i :: 0 <= i < |ix| ==> ds[i] == Dist2(vs[ix[i]].position, x, y)
  {
    seq(|ix|, i requires 0 <= i < |ix| => Dist2(vs[ix[i]].position, x, y))
  }

  /// The node the player would act on, as a left-to-right scan over the
  /// eligible nodes: a node replaces the current choice only when it is
  /// strictly nearer, so the earliest of equally near nodes wins.
  function NearestIndex(vs: seq<NodeView>, x: real, y: real, radius: real): (r: Option<nat>)
    ensures r.Some? ==> r.value < |vs|
  {
    if vs == [] then None
    else
      var n := |vs| - 1;
      var p := NearestIndex(vs[..n], x, y, radius);
      if !Eligible(vs[n], x, y, radius) then p
      else if p.None? || Dist2(vs[n].position, x, y) < Dist2(vs[p.value].position, x, y) then Some(n)
      else p
  }

  /// Node k is eligible, no eligible node is nearer, and no eligible node
  /// before it is as near.
  predicate IsNearest(vs: seq<NodeView>, x: real, y: real, radius: real, k: nat)
  {
    k < |vs| && Eligible(vs[k], x, y, radius) &&
    (forall j :: 0 <= j < |vs| && Eligible(vs[j], x, y, radius) ==>
       Dist2(vs[k].position, x, y) <= Dist2(vs[j].position, x, y)) &&
    (forall j :: 0 <= j < k && Eligible(vs[j], x, y, radius) ==>
       Dist2(vs[j].position, x, y) > Dist2(vs[k].position, x, y))
  }

  /// The scan names no node exactly when none is eligible, and otherwise
  /// the nearest one.
  lemma {:induction false} NearestIndexMeaning(vs: seq<NodeView>, x: real, y: real, radius: real)
    ensures var r := NearestIndex(vs, x, y, radius);
      (r.None? <==> forall k :: 0 <= k < |vs| ==> !Eligible(vs[k], x, y, radius)) &&
      (r.Some? ==> IsNearest(vs, x, y, radius, r.value))
  {
    if vs != [] {
      var n := |vs| - 1;
      var pre := vs[..n];
      NearestIndexMeaning(pre, x, y, radius);
      assert forall j :: 0 <= j < n ==> pre[j] == vs[j];
    }
  }

  /// At most one node is the nearest.
  lemma NearestUnique(vs: seq<NodeView>, x: real, y: real, radius: real, a: nat, b: nat)
    requires IsNearest(vs, x, y, radius, a) && IsNearest(vs, x, y, radius, b)
    ensures a == b
  {
  }

  /// The first candidate of a stable sort by distance is the nearest node.
  lemma NearestRespectsOrder(vs: seq<NodeView>, x: real, y: real, radius: real, ix: seq<nat>, ds: seq<real>, m: nat)
    requires ix == NearbyIndices(vs, x, y, radius)
    requires |ds| == |ix| && forall i :: 0 <= i < |ix| ==> ds[i] == Dist2(vs[ix[i]].position, x, y)
    requires m < |ds|
    requires forall j :: 0 <= j < |ds| ==> ds[m] <= ds[j]
    requires forall j :: 0 <= j < m ==> ds[j] > ds[m]
    ensures IsNearest(vs, x, y, radius, ix[m])
  {
    forall j | 0 <= j < |vs| && Eligible(vs[j], x, y, radius)
      ensures Dist2(vs[ix[m]].position, x, y) <= Dist2(vs[j].position, x, y)
      ensures j < ix[m] ==> Dist2(vs[j].position, x, y) > Dist2(vs[ix[m]].position, x, y)
    {
      var i :| 0 <= i < |ix| && ix[i] == j;
      assert ds[i] == Dist2(vs[j].position, x, y);
    }
  }

  /// The query only looks at positions and the gathered flags: nodes that
  /// differ elsewhere (hit counts, ids) give the same answers.
  predicate SameQueryFields(vs: seq<NodeView>, ws: seq<NodeView>)
  {
    |vs| == |ws| &&
    forall i :: 0 <= i < |vs| ==> vs[i].position == ws[i].position && vs[i].isGathered == ws[i].isGathered
  }

  lemma {:induction false} NearestIndexIgnoresHits(vs: seq<NodeView>, ws: seq<NodeView>, x: real, y: real, radius: real)
    requires SameQueryFields(vs, ws)
    ensures NearestIndex(vs, x, y, radius) == NearestIndex(ws, x, y, radius)
  {
    if vs != [] {
      var n := |vs| - 1;
      assert SameQueryFields(vs[..n], ws[..n]);
      NearestIndexIgnoresHits(vs[..n], ws[..n], x, y, radius);
    }
  }
}
