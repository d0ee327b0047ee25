/// The player entity: four direction keys become a direction, which either
/// accelerates the velocity up to a speed cap or, with no key held, lets
/// friction slow it down; the position then integrates the velocity.
module Players {
  import opened Types
  import opened RealArith

  /// The four direction booleans the input manager reports.
  datatype InputState = InputState(up: bool, down: bool, left: bool, right: bool)

  const NoInput := InputState(false, false, false, false)

  /// Units per second.
  const MaxSpeed: real := 200.0
  /// Velocity factor per frame without input.
  const Friction: real := 0.85
  /// Units per second squared.
  const Acceleration: real := 800.0
  /// Below this magnitude a decaying velocity component snaps to zero.
  const SnapThreshold: real := 0.1

  /// `Math.sqrt`, supplied by the caller: a square root on the non-negative
  /// reals.
  ghost predicate IsSqrt(sqrt: real -> real)
  {
    forall x :: RootOf(sqrt, x)
  }

  /// `sqrt(x)` is the non-negative root of x, when x is non-negative.
  ghost predicate RootOf(sqrt: real -> real, x: real)
  {
    x >= 0.0 ==> sqrt(x) >= 0.0 && sqrt(x) * sqrt(x) == x
  }

  lemma Root(sqrt: real -> real, x: real)
    requires IsSqrt(sqrt) && x >= 0.0
    ensures sqrt(x) >= 0.0 && sqrt(x) * sqrt(x) == x
  {
    assert RootOf(sqrt, x);
  }

  function Abs(x: real): real
  {
    if x < 0.0 then -x else x
  }

  /// Two non-negative reals with the same square are equal.
  lemma RootUnique(s: real, a: real)
    requires s >= 0.0 && a >= 0.0 && s * s == a * a
    ensures s == a
  {
    if s > a {
      PosMul(s - a, s + a);
    } else if s < a {
      PosMul(a - s, s + a);
    }
  }

  /// The non-negative root of a square is the value itself.
  lemma SqrtOfSquare(sqrt: real -> real, a: real)
    requires IsSqrt(sqrt) && a >= 0.0
    ensures sqrt(a * a) == a
  {
    Root(sqrt, a * a);
    RootUnique(sqrt(a * a), a);
  }

  /// The direction before normalisation: up and left count -1, down and
  /// right +1.
  function RawMove(input: InputState): (m: Vector2)
    // each component is -1, 0 or 1: opposite keys cancel
    ensures m.x == -1.0 <==> input.left && !input.right
    ensures m.x == 1.0 <==> input.right && !input.left
    ensures m.x == 0.0 <==> input.left == input.right
    ensures m.y == -1.0 <==> input.up && !input.down
    ensures m.y == 1.0 <==> input.down && !input.up
    ensures m.y == 0.0 <==> input.up == input.down
  {
    var moveY := (if input.up then -1.0 else 0.0) + (if input.down then 1.0 else 0.0);
    var moveX := (if input.left then -1.0 else 0.0) + (if input.right then 1.0 else 0.0);
    Vector2(moveX, moveY)
  }

  /// The direction after the diagonal case is rescaled by its length.
  function MoveDirection(input: InputState, sqrt: real -> real): (d: Vector2)
    requires IsSqrt(sqrt)
    // a diagonal becomes a unit vector parallel to the raw one, with the same signs
    ensures var m := RawMove(input);
      m.x != 0.0 && m.y != 0.0 ==>
        d.x * d.x + d.y * d.y == 1.0 && (d.x > 0.0 <==> m.x > 0.0) && (d.y > 0.0 <==> m.y > 0.0) &&
        d.x != 0.0 && d.y != 0.0 && d.x * m.y == d.y * m.x
    // otherwise the raw direction is kept
    ensures var m := RawMove(input); !(m.x != 0.0 && m.y != 0.0) ==> d == m
  {
    var m := RawMove(input);
    if m.x != 0.0 && m.y != 0.0 then
      var length := sqrt(m.x * m.x + m.y * m.y);
      Root(sqrt, m.x * m.x + m.y * m.y);
      assert length > 0.0;
      UnitLength(m.x, m.y, length);
      ScaleSign(m.x, length, 1.0);
      ScaleSign(m.y, length, 1.0);
      DivParallel(m.x, m.y, length);
      Vector2(m.x / length, m.y / length)
    else m
  }

  /// Squared speed of a velocity: `v.x ** 2 + v.y ** 2`.
  function Speed2(v: Vector2): (s: real)
    ensures s >= 0.0
  {
    v.x * v.x + v.y * v.y
  }

  /// The velocity after `dt` seconds of acceleration along `d`, before the
  /// speed cap.
  function Pushed(v: Vector2, d: Vector2, dt: real): Vector2
  {
    Vector2(v.x + d.x * Acceleration * dt, v.y + d.y * Acceleration * dt)
  }

  /// Acceleration along `d` for `dt` seconds, then the speed cap.
  function Accelerate(v: Vector2, d: Vector2, dt: real, sqrt: real -> real): (r: Vector2)
    requires IsSqrt(sqrt)
    ensures Speed2(r) <= MaxSpeed * MaxSpeed
    // at or below the cap the pushed velocity is kept
    ensures Speed2(Pushed(v, d, dt)) <= MaxSpeed * MaxSpeed ==> r == Pushed(v, d, dt)
    // above it the velocity lands exactly on the cap, pointing the same way
    ensures var w := Pushed(v, d, dt);
      Speed2(w) > MaxSpeed * MaxSpeed ==>
        Speed2(r) == MaxSpeed * MaxSpeed && r.x * w.y == r.y * w.x &&
        (r.x > 0.0 <==> w.x > 0.0) && (r.x < 0.0 <==> w.x < 0.0) &&
        (r.y > 0.0 <==> w.y > 0.0) && (r.y < 0.0 <==> w.y < 0.0)
  {
    var w := Pushed(v, d, dt);
    var speed := sqrt(Speed2(w));
    Root(sqrt, Speed2(w));
    CapTest(speed, Speed2(w));
    if speed > MaxSpeed then
      CappedSpeed(w, speed);
      Vector2((w.x / speed) * MaxSpeed, (w.y / speed) * MaxSpeed)
    else
      w
  }

  /// Comparing the root with the cap is comparing the square with the
  /// squared cap.
  lemma CapTest(speed: real, s2: real)
    requires speed >= 0.0 && speed * speed == s2
    ensures speed > MaxSpeed <==> s2 > MaxSpeed * MaxSpeed
  {
    if speed > MaxSpeed {
      SquareAbove(speed, MaxSpeed);
    } else {
      SquareBelow(speed, MaxSpeed);
    }
  }

  /// Rescaling by MaxSpeed / |w| lands exactly on the cap and keeps the
  /// direction.
  lemma CappedSpeed(w: Vector2, speed: real)
    requires speed > 0.0 && speed * speed == Speed2(w)
    ensures var r := Vector2((w.x / speed) * MaxSpeed, (w.y / speed) * MaxSpeed);
      Speed2(r) == MaxSpeed * MaxSpeed && r.x * w.y == r.y * w.x &&
      (r.x > 0.0 <==> w.x > 0.0) && (r.x < 0.0 <==> w.x < 0.0) &&
      (r.y > 0.0 <==> w.y > 0.0) && (r.y < 0.0 <==> w.y < 0.0)
  {
    UnitLength(w.x, w.y, speed);
    ScaleSign(w.x, speed, MaxSpeed);
    ScaleSign(w.y, speed, MaxSpeed);
    DivIsMulInv(w.x, speed);
    DivIsMulInv(w.y, speed);
  }

  /// One friction step of a velocity component, with the snap to zero.
  function Decay(c: real): (r: real)
    // the product with the friction factor, or exactly 0 once it is small
    ensures Abs(c * Friction) < SnapThreshold ==> r == 0.0
    ensures Abs(c * Friction) >= SnapThreshold ==> r == c * Friction
    // never speeds up and never changes sign; zero stays zero
    ensures Abs(r) <= Abs(c)
    ensures r * c >= 0.0
    ensures c == 0.0 ==> r == 0.0
  {
    var r := c * Friction;
    if Abs(r) < SnapThreshold then 0.0 else r
  }

  /// The velocity after one update: acceleration when a direction is held,
  /// friction otherwise.
  function NextVelocity(v: Vector2, dt: real, input: InputState, sqrt: real -> real): (r: Vector2)
    requires IsSqrt(sqrt)
  {
    var d := MoveDirection(input, sqrt);
    if d.x != 0.0 || d.y != 0.0 then Accelerate(v, d, dt, sqrt)
    else Vector2(Decay(v.x), Decay(v.y))
  }

  /// `NextVelocity` in terms of an already computed direction.
  lemma NextVelocityBy(v: Vector2, dt: real, input: InputState, sqrt: real -> real, d: Vector2)
    requires IsSqrt(sqrt) && d == MoveDirection(input, sqrt)
    ensures d.x != 0.0 || d.y != 0.0 ==> NextVelocity(v, dt, input, sqrt) == Accelerate(v, d, dt, sqrt)
    ensures d.x == 0.0 && d.y == 0.0 ==> NextVelocity(v, dt, input, sqrt) == Vector2(Decay(v.x), Decay(v.y))
  {
  }

  /// With a direction held the new speed is at most 200.
  lemma MovingRespectsSpeedCap(v: Vector2, dt: real, input: InputState, sqrt: real -> real)
    requires IsSqrt(sqrt)
    requires RawMove(input) != Vector2(0.0, 0.0)
    ensures Speed2(NextVelocity(v, dt, input, sqrt)) <= MaxSpeed * MaxSpeed
  {
  }

  /// With no direction held each component decays on its own, so the speed
  /// never grows and a resting player stays at rest.
  lemma IdleDecays(v: Vector2, dt: real, input: InputState, sqrt: real -> real)
    requires IsSqrt(sqrt)
    requires RawMove(input) == Vector2(0.0, 0.0)
    ensures NextVelocity(v, dt, input, sqrt) == Vector2(Decay(v.x), Decay(v.y))
    ensures Speed2(NextVelocity(v, dt, input, sqrt)) <= Speed2(v)
    ensures v == Vector2(0.0, 0.0) ==> NextVelocity(v, dt, input, sqrt) == v
  {
    var r := Vector2(Decay(v.x), Decay(v.y));
    SquareMonotone(r.x, v.x);
    SquareMonotone(r.y, v.y);
  }

  lemma SquareMonotone(a: real, b: real)
    requires Abs(a) <= Abs(b)
    ensures a * a <= b * b
  {
    var p := Abs(a);
    var q := Abs(b);
    assert a * a == p * p && b * b == q * q;
    assert p * p <= p * q <= q * q;
  }

  /// Exactly one of the four direction keys is held.
  predicate SingleKey(input: InputState)
  {
    input == InputState(true, false, false, false) || input == InputState(false, true, false, false) ||
    input == InputState(false, false, true, false) || input == InputState(false, false, false, true)
  }

  function Min(a: real, b: real): real
  {
    if a <= b then a else b
  }

  /// From rest, accelerating along a unit axis direction `m` for a positive
  /// time gives min(800 * dt, 200) times `m`.
  lemma AccelerateFromRest(m: Vector2, dt: real, sqrt: real -> real)
    requires IsSqrt(sqrt) && dt > 0.0 && m.x * m.x + m.y * m.y == 1.0
    ensures var c := Min(Acceleration * dt, MaxSpeed);
      Accelerate(Vector2(0.0, 0.0), m, dt, sqrt) == Vector2(m.x * c, m.y * c)
  {
    var a := Acceleration * dt;
    var w := Pushed(Vector2(0.0, 0.0), m, dt);
    assert w == Vector2(m.x * a, m.y * a);
    ScaledSquare(m.x, m.y, a);
    assert Speed2(w) == a * a;
    SqrtOfSquare(sqrt, a);
    assert sqrt(Speed2(w)) == a;
    if a > MaxSpeed {
      MulDiv(m.x, a);
      MulDiv(m.y, a);
    }
  }

  /// From rest, a single held key for a positive time step gives a velocity
  /// along that key's axis only, of magnitude min(800 * dt, 200).
  lemma SingleKeyFromRest(dt: real, input: InputState, sqrt: real -> real)
    requires IsSqrt(sqrt) && dt > 0.0 && SingleKey(input)
    ensures var m := RawMove(input);
      var c := Min(Acceleration * dt, MaxSpeed);
      NextVelocity(Vector2(0.0, 0.0), dt, input, sqrt) == Vector2(m.x * c, m.y * c)
  {
    var m := RawMove(input);
    assert AxisUnit(m);
    AxisUnitLength(m);
    assert MoveDirection(input, sqrt) == m;
    NextVelocityBy(Vector2(0.0, 0.0), dt, input, sqrt, m);
    AccelerateFromRest(m, dt, sqrt);
  }

  /// One of the four unit vectors along the axes.
  predicate AxisUnit(m: Vector2)
  {
    (m.x == 0.0 && (m.y == 1.0 || m.y == -1.0)) || (m.y == 0.0 && (m.x == 1.0 || m.x == -1.0))
  }

  lemma AxisUnitLength(m: Vector2)
    requires AxisUnit(m)
    ensures m.x * m.x + m.y * m.y == 1.0
  {
  }

  /// The four single-key tests: from rest, with one frame of 0.016 seconds,
  /// each key moves the player its own way along its own axis.
  lemma SingleKeySigns(input: InputState, sqrt: real -> real)
    requires IsSqrt(sqrt) && SingleKey(input)
    ensures var r := NextVelocity(Vector2(0.0, 0.0), 0.016, input, sqrt);
      (input.right ==> r.x > 0.0 && r.y == 0.0) &&
      (input.left ==> r.x < 0.0 && r.y == 0.0) &&
      (input.up ==> r.y < 0.0 && r.x == 0.0) &&
      (input.down ==> r.y > 0.0 && r.x == 0.0)
  {
    SingleKeyFromRest(0.016, input, sqrt);
  }

  /// From rest, a diagonal held for a time step short enough to stay under
  /// the cap gives the same speed, 800 * dt, as a single key does.
  lemma DiagonalFromRest(dt: real, input: InputState, sqrt: real -> real)
    requires IsSqrt(sqrt) && dt > 0.0 && Acceleration * dt <= MaxSpeed
    requires RawMove(input).x != 0.0 && RawMove(input).y != 0.0
    ensures Speed2(NextVelocity(Vector2(0.0, 0.0), dt, input, sqrt)) == (Acceleration * dt) * (Acceleration * dt)
  {
    var d := MoveDirection(input, sqrt);
    NextVelocityBy(Vector2(0.0, 0.0), dt, input, sqrt, d);
    AccelerateFromRest(d, dt, sqrt);
    ScaledSquare(d.x, d.y, Acceleration * dt);
  }

  /// The diagonal test's frame: after 0.016 seconds from rest the speed is
  /// 12.8, the same as for one key, and above the 6.4 its bound allows.
  lemma DiagonalTestFrame(sqrt: real -> real)
    requires IsSqrt(sqrt)
    ensures var r := NextVelocity(Vector2(0.0, 0.0), 0.016, InputState(true, false, false, true), sqrt);
      Speed2(r) == 12.8 * 12.8 && Speed2(r) > (200.0 * 0.016 * 2.0) * (200.0 * 0.016 * 2.0)
  {
    DiagonalFromRest(0.016, InputState(true, false, false, true), sqrt);
  }

  /// The friction test: from (100, 100) with no key held each component
  /// drops to 85.
  lemma FrictionTestFrame(sqrt: real -> real)
    requires IsSqrt(sqrt)
    ensures NextVelocity(Vector2(100.0, 100.0), 0.016, NoInput, sqrt) == Vector2(85.0, 85.0)
  {
    IdleDecays(Vector2(100.0, 100.0), 0.016, NoInput, sqrt);
  }

  class Player {
    var position: Vector2
    var velocity: Vector2
    var radius: real
    var color: string

    /// `new Player(x, y)`: at (x, y), at rest.
    constructor (x: real, y: real)
      ensures position == Vector2(x, y) && velocity == Vector2(0.0, 0.0)
      ensures radius == 20.0 && color == "#32b8c6"
    {
      position := Vector2(x, y);
      velocity := Vector2(0.0, 0.0);
      radius := 20.0;
      color := "#32b8c6";
    }

    /// `update(deltaTime, input)`: the direction, then acceleration or
    /// friction, then the position step.
    method Update(deltaTime: real, input: InputState, sqrt: real -> real)
      requires IsSqrt(sqrt)
      modifies this
      ensures velocity == NextVelocity(old(velocity), deltaTime, input, sqrt)
      // the position advances by the new velocity times the time step
      ensures position == Vector2(old(position).x + velocity.x * deltaTime, old(position).y + velocity.y * deltaTime)
      ensures radius == old(radius) && color == old(color)
    {
      var moveX, moveY := Direction(input, sqrt);
      NextVelocityBy(old(velocity), deltaTime, input, sqrt, Vector2(moveX, moveY));
      if moveX != 0.0 || moveY != 0.0 {
        ApplyAcceleration(moveX, moveY, deltaTime, sqrt);
      } else {
        ApplyFriction();
      }
      Advance(deltaTime);
    }

    /// The last part of `update`: the position moves by velocity times the
    /// time step.
    method Advance(deltaTime: real)
      modifies this`position
      ensures position == Vector2(old(position).x + velocity.x * deltaTime, old(position).y + velocity.y * deltaTime)
    {
      position := position.(x := position.x + velocity.x * deltaTime);
      position := position.(y := position.y + velocity.y * deltaTime);
    }

    /// The first part of `update`: the local move components, with the
    /// diagonal rescaled by its length.
    static method Direction(input: InputState, sqrt: real -> real) returns (moveX: real, moveY: real)
      requires IsSqrt(sqrt)
      ensures Vector2(moveX, moveY) == MoveDirection(input, sqrt)
    {
      moveX := 0.0;
      moveY := 0.0;
      if input.up { moveY := moveY - 1.0; }
      if input.down { moveY := moveY + 1.0; }
      if input.left { moveX := moveX - 1.0; }
      if input.right { moveX := moveX + 1.0; }
      assert Vector2(moveX, moveY) == RawMove(input);
      if moveX != 0.0 && moveY != 0.0 {
        var length := sqrt(moveX * moveX + moveY * moveY);
        Root(sqrt, moveX * moveX + moveY * moveY);
        moveX := moveX / length;
        moveY := moveY / length;
      }
    }

    /// The acceleration branch of `update`: push the velocity along the move
    /// vector, then clamp it to the maximum speed.
    method ApplyAcceleration(moveX: real, moveY: real, deltaTime: real, sqrt: real -> real)
      requires IsSqrt(sqrt)
      modifies this`velocity
      ensures velocity == Accelerate(old(velocity), Vector2(moveX, moveY), deltaTime, sqrt)
    {
      velocity := velocity.(x := velocity.x + moveX * Acceleration * deltaTime);
      velocity := velocity.(y := velocity.y + moveY * Acceleration * deltaTime);
      ghost var w := velocity;
      assert w == Pushed(old(velocity), Vector2(moveX, moveY), deltaTime);
      var speed := sqrt(Speed2(velocity));
      if speed > MaxSpeed {
        velocity := velocity.(x := (velocity.x / speed) * MaxSpeed);
        velocity := velocity.(y := (velocity.y / speed) * MaxSpeed);
        assert velocity == Vector2((w.x / speed) * MaxSpeed, (w.y / speed) * MaxSpeed);
      }
    }

    /// The friction branch of `update`: scale both components, then snap the
    /// small ones to zero.
    method ApplyFriction()
      modifies this`velocity
      ensures velocity == Vector2(Decay(old(velocity).x), Decay(old(velocity).y))
    {
      velocity := velocity.(x := velocity.x * Friction);
      velocity := velocity.(y := velocity.y * Friction);
      if Abs(velocity.x) < SnapThreshold { velocity := velocity.(x := 0.0); }
      if Abs(velocity.y) < SnapThreshold { velocity := velocity.(y := 0.0); }
    }

    /// `getSpeed()`: the length of the velocity.
    function GetSpeed(sqrt: real -> real): (s: real)
      reads this
      requires IsSqrt(sqrt)
      ensures s >= 0.0 && s * s == Speed2(velocity)
    {
      Root(sqrt, Speed2(velocity));
      sqrt(Speed2(velocity))
    }

    /// The speed test: a velocity of (3, 4) has speed 5.
    lemma SpeedOfThreeFour(sqrt: real -> real)
      requires IsSqrt(sqrt) && velocity == Vector2(3.0, 4.0)
      ensures GetSpeed(sqrt) == 5.0
    {
      RootUnique(GetSpeed(sqrt), 5.0);
    }
  }
}
