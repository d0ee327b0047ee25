/// The viewport: it follows a player with a smoothing step, stays inside
/// the world, and converts between world and screen coordinates.
module Cameras {
  import opened Types
  import Players

  /// The fraction of the remaining distance covered by one `update`.
  const LerpFactor: real := 0.1

  /// `Math.max(lo, v)` and `Math.min(v, hi)` on reals.
  function Max(a: real, b: real): real
  {
    if a >= b then a else b
  }

  function Min(a: real, b: real): real
  {
    if a <= b then a else b
  }

  /// The camera corner that puts `p` at the centre of a `width` x `height`
  /// view.
  function Centred(p: Vector2, width: real, height: real): Vector2
  {
    Vector2(p.x - width / 2.0, p.y - height / 2.0)
  }

  /// One axis of `update`: a step of `LerpFactor` towards `desired`, then
  /// `Math.max(0, Math.min(v, world - size))`.
  function FollowAxis(pos: real, desired: real, size: real, world: real): (r: real)
    // never left of or above the world's origin
    ensures r >= 0.0
    // never past the far edge when the view fits in the world
    ensures size <= world ==> r <= world - size
    // pinned to the origin when the view is larger than the world
    ensures world < size ==> r == 0.0
  {
    var stepped := pos + (desired - pos) * LerpFactor;
    Max(0.0, Min(stepped, world - size))
  }

  /// Away from the world's edges one step covers exactly a tenth of the
  /// distance to the desired position, so nine tenths remain.
  lemma FollowAxisApproaches(pos: real, desired: real, size: real, world: real)
    requires 0.0 <= pos + (desired - pos) * LerpFactor <= world - size
    ensures FollowAxis(pos, desired, size, world) - pos == (desired - pos) * LerpFactor
    ensures desired - FollowAxis(pos, desired, size, world) == (desired - pos) * 0.9
  {
  }

  /// A camera already at a reachable desired position stays there.
  lemma FollowAxisAtRest(desired: real, size: real, world: real)
    requires 0.0 <= desired <= world - size
    ensures FollowAxis(desired, desired, size, world) == desired
  {
  }

  /// Where `update` moves the camera corner `pos` while following a target
  /// at `targetPos`.
  function Follow(pos: Vector2, targetPos: Vector2, width: real, height: real, worldWidth: real, worldHeight: real): Vector2
  {
    var desired := Centred(targetPos, width, height);
    Vector2(FollowAxis(pos.x, desired.x, width, worldWidth), FollowAxis(pos.y, desired.y, height, worldHeight))
  }

  /// The camera corner after `update` lies in the world-sized box the view
  /// can occupy.
  lemma FollowInBounds(pos: Vector2, targetPos: Vector2, width: real, height: real, worldWidth: real, worldHeight: real)
    ensures var r := Follow(pos, targetPos, width, height, worldWidth, worldHeight);
      r.x >= 0.0 && r.y >= 0.0 &&
      (width <= worldWidth ==> r.x <= worldWidth - width) &&
      (worldWidth < width ==> r.x == 0.0) &&
      (height <= worldHeight ==> r.y <= worldHeight - height) &&
      (worldHeight < height ==> r.y == 0.0)
  {
  }

  class Camera {
    var position: Vector2
    var width: real
    var height: real
    var target: Option<Players.Player>
    const worldWidth: real
    const worldHeight: real

    /// `new Camera(width, height, worldWidth, worldHeight)`: at the origin,
    /// following nothing.
    constructor (width: real, height: real, worldWidth: real, worldHeight: real)
      ensures this.width == width && this.height == height
      ensures this.worldWidth == worldWidth && this.worldHeight == worldHeight
      ensures position == Vector2(0.0, 0.0) && target == None
    {
      this.width := width;
      this.height := height;
      this.worldWidth := worldWidth;
      this.worldHeight := worldHeight;
      position := Vector2(0.0, 0.0);
      target := None;
    }

    /// `setTarget(target)`: follow `t`, and jump to centre on it.
    method SetTarget(t: Players.Player)
      modifies this`target, this`position
      ensures target == Some(t)
      ensures position == Centred(t.position, width, height)
      // the target is drawn at the middle of the view
      ensures WorldToScreen(t.position) == Vector2(width / 2.0, height / 2.0)
    {
      target := Some(t);
      position := position.(x := t.position.x - width / 2.0);
      position := position.(y := t.position.y - height / 2.0);
    }

    /// `update()`: nothing without a target; otherwise one smoothing step
    /// towards the centred position, clamped to the world.
    method Update()
      modifies this`position
      ensures target.None? ==> position == old(position)
      ensures target.Some? ==>
        position == Follow(old(position), target.value.position, width, height, worldWidth, worldHeight)
      ensures target.Some? ==> position.x >= 0.0 && position.y >= 0.0
    {
      if target.None? {
        return;
      }
      var t := target.value;
      var desiredX := t.position.x - width / 2.0;
      var desiredY := t.position.y - height / 2.0;
      position := position.(x := position.x + (desiredX - position.x) * LerpFactor);
      position := position.(y := position.y + (desiredY - position.y) * LerpFactor);
      position := position.(x := Max(0.0, Min(position.x, worldWidth - width)));
      position := position.(y := Max(0.0, Min(position.y, worldHeight - height)));
    }

    /// `worldToScreen(worldPos)`
    function WorldToScreen(worldPos: Vector2): Vector2
      reads this
    {
      Vector2(worldPos.x - position.x, worldPos.y - position.y)
    }

    /// `screenToWorld(screenPos)`
    function ScreenToWorld(screenPos: Vector2): Vector2
      reads this
    {
      Vector2(screenPos.x + position.x, screenPos.y + position.y)
    }

    /// The two conversions undo each other, in both orders.
    lemma ScreenRoundTrip(p: Vector2)
      ensures ScreenToWorld(WorldToScreen(p)) == p
      ensures WorldToScreen(ScreenToWorld(p)) == p
    {
    }

    /// The conversion is a translation: it keeps the offset between two
    /// points, and the camera corner is the screen's origin.
    lemma WorldToScreenTranslates(p: Vector2, q: Vector2)
      ensures WorldToScreen(p).x - WorldToScreen(q).x == p.x - q.x
      ensures WorldToScreen(p).y - WorldToScreen(q).y == p.y - q.y
      ensures WorldToScreen(position) == Vector2(0.0, 0.0)
    {
    }

    /// `resize(width, height)`
    method Resize(w: real, h: real)
      modifies this`width, this`height
      ensures width == w && height == h
    {
      width := w;
      height := h;
    }

    /// `isVisible(worldPos, margin)`: inside the view grown by `margin` on
    /// every side, edges included; the margin is 0 unless given.
    predicate IsVisible(worldPos: Vector2, margin: real := 0.0)
      reads this
    {
      worldPos.x >= position.x - margin &&
      worldPos.x <= position.x + width + margin &&
      worldPos.y >= position.y - margin &&
      worldPos.y <= position.y + height + margin
    }

    /// Visible exactly when the point's screen coordinates lie in
    /// [-margin, width + margin] x [-margin, height + margin].
    lemma IsVisibleOnScreen(p: Vector2, margin: real)
      ensures IsVisible(p, margin) <==>
        var s := WorldToScreen(p);
        -margin <= s.x <= width + margin && -margin <= s.y <= height + margin
    {
    }

    /// A wider margin never hides a visible point.
    lemma IsVisibleWidens(p: Vector2, m1: real, m2: real)
      requires m1 <= m2 && IsVisible(p, m1)
      ensures IsVisible(p, m2)
    {
    }
  }

  /// The scenarios of the camera unit test: an 800 x 600 view on a
  /// 2000 x 2000 world.
  method InitialDimensions() returns (w: real, h: real)
    ensures w == 800.0 && h == 600.0
  {
    var camera := new Camera(800.0, 600.0, 2000.0, 2000.0);
    w, h := camera.width, camera.height;
  }

  method CentresOnTarget() returns (corner: Vector2)
    ensures corner == Vector2(600.0, 700.0)
  {
    var camera := new Camera(800.0, 600.0, 2000.0, 2000.0);
    var player := new Players.Player(1000.0, 1000.0);
    camera.SetTarget(player);
    corner := camera.position;
  }

  method ConvertsCoordinates() returns (screen: Vector2, world: Vector2)
    ensures screen == Vector2(50.0, 50.0) && world == Vector2(150.0, 150.0)
  {
    var camera := new Camera(800.0, 600.0, 2000.0, 2000.0);
    camera.position := Vector2(100.0, 100.0);
    screen := camera.WorldToScreen(Vector2(150.0, 150.0));
    world := camera.ScreenToWorld(Vector2(50.0, 50.0));
  }

  /// A player near the corner: centring alone would put the camera at
  /// (-300, -200); the update clamps it to the origin.
  method RespectsWorldBoundaries() returns (corner: Vector2)
    ensures corner == Vector2(0.0, 0.0)
  {
    var camera := new Camera(800.0, 600.0, 2000.0, 2000.0);
    var player := new Players.Player(1000.0, 1000.0);
    player.position := Vector2(100.0, 100.0);
    camera.SetTarget(player);
    camera.Update();
    corner := camera.position;
  }

  method DetectsVisibleObjects() returns (middle: bool, farAway: bool)
    ensures middle && !farAway
  {
    var camera := new Camera(800.0, 600.0, 2000.0, 2000.0);
    camera.position := Vector2(0.0, 0.0);
    middle := camera.IsVisible(Vector2(400.0, 300.0));
    farAway := camera.IsVisible(Vector2(2000.0, 2000.0));
  }

  method HandlesResize() returns (w: real, h: real)
    ensures w == 1024.0 && h == 768.0
  {
    var camera := new Camera(800.0, 600.0, 2000.0, 2000.0);
    camera.Resize(1024.0, 768.0);
    w, h := camera.width, camera.height;
  }
}
