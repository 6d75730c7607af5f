/** The player systems of the game: the player entity and its controls
    (movement keys, the fire-rate gate on the left mouse button), the
    crosshair that follows the pointer, and the bullets that fly along their
    direction every frame. */
module PlayerPlugin {
  import opened Common
  import opened FireGate

  /** Values `spawn_player` gives a new player. */
  const PLAYER_SPEED: real := 128.0
  const INITIAL_LAST_SHOT: u128 := 0
  const INITIAL_FIRERATE: u16 := 100

  /** Distance a bullet covers per second along its (unit) direction. */
  const BULLET_SPEED: real := 256.0

  /** The movement keys `player_move` polls, `true` when held. */
  datatype Keys = Keys(w: bool, s: bool, a: bool, d: bool)

  /** An entity of the world other than the player and the crosshair: its
      translation, and the `Direction` component that bullets carry. */
  datatype Entity = Entity(translation: Vec3, direction: Option<Vec2>)

  /** The vector from the player to the crosshair, which the fired bullet's
      direction normalizes. */
  function Aim(player: Vec3, crosshair: Vec3): Vec2
  {
    Vec2(crosshair.x - player.x, crosshair.y - player.y)
  }

  /** A bullet spawned at the player's transform, heading along `dir`. */
  function Bullet(at: Vec3, dir: Vec2): (b: Entity)
    ensures b.translation == at
    ensures b.direction == Some(dir)
  {
    Entity(at, Some(dir))
  }

  /** The player's translation after one frame of `player_move`, where each
      held key moves it by `step` (speed times frame time): W up and S down on
      the y axis, A left and D right on the x axis. The contract states only
      what holds whatever the rounding of the additions. */
  function Moved(t: Vec3, keys: Keys, step: real): (r: Vec3)
    ensures r.z == t.z
    ensures !keys.w && !keys.s ==> r.y == t.y
    ensures !keys.a && !keys.d ==> r.x == t.x
    ensures step >= 0.0 && keys.w && !keys.s ==> r.y >= t.y
    ensures step >= 0.0 && keys.s && !keys.w ==> r.y <= t.y
    ensures step >= 0.0 && keys.d && !keys.a ==> r.x >= t.x
    ensures step >= 0.0 && keys.a && !keys.d ==> r.x <= t.x
  {
    var afterW := if keys.w then t.y + step else t.y;
    var afterS := if keys.s then afterW - step else afterW;
    var afterA := if keys.a then t.x - step else t.x;
    var afterD := if keys.d then afterA + step else afterA;
    Vec3(afterD, afterS, t.z)
  }

  /** W and S decide the new y alone, A and D the new x alone. */
  lemma MovedAxesIndependent(t: Vec3, k1: Keys, k2: Keys, step: real)
    ensures k1.w == k2.w && k1.s == k2.s ==> Moved(t, k1, step).y == Moved(t, k2, step).y
    ensures k1.a == k2.a && k1.d == k2.d ==> Moved(t, k1, step).x == Moved(t, k2, step).x
  {
  }

  /** The world position of a pointer position in window coordinates: the
      window centre is the origin. */
  function CursorToWorld(p: Vec2, z: real): Vec3
  {
    Vec3(p.x - (WIDTH as real / 2.0), p.y - (HEIGHT as real / 2.0), z)
  }

  /** The crosshair's translation after one frame of `crosshair_move`, given
      the pointer positions of this frame's cursor events in order. */
  function Tracked(t: Vec3, events: seq<Vec2>): (r: Vec3)
    ensures r.z == t.z
    ensures events == [] ==> r == t
  {
    if events == [] then t else CursorToWorld(events[|events| - 1], t.z)
  }

  /** The last event alone decides where the crosshair goes: the earlier
      events of the frame have no effect. */
  lemma TrackedLastWins(t: Vec3, earlier: seq<Vec2>, later: seq<Vec2>)
    requires later != []
    ensures Tracked(t, earlier + later) == Tracked(t, later)
  {
    assert (earlier + later)[|earlier + later| - 1] == later[|later| - 1];
  }

  /** With an event, the crosshair is set, not moved: its old x and y do not
      matter. */
  lemma TrackedNotAccumulated(t1: Vec3, t2: Vec3, events: seq<Vec2>)
    requires events != []
    ensures Tracked(t1, events).x == Tracked(t2, events).x
    ensures Tracked(t1, events).y == Tracked(t2, events).y
  {
  }

  /** A pointer event at (px, py) puts the crosshair at (px - 400, py - 300). */
  lemma TrackedOneEvent(t: Vec3, p: Vec2)
    ensures Tracked(t, [p]) == Vec3(p.x - 400.0, p.y - 300.0, t.z)
  {
  }

  /** An entity after one frame of `bullet_move`: one carrying a direction
      moves along it by `BULLET_SPEED * dt`, any other stays where it is. */
  function Advance(e: Entity, dt: real): (r: Entity)
    ensures r.direction == e.direction
    ensures r.translation.z == e.translation.z
    ensures e.direction.None? ==> r == e
    ensures e.direction.Some? && dt >= 0.0 && e.direction.value.x >= 0.0 ==> r.translation.x >= e.translation.x
    ensures e.direction.Some? && dt >= 0.0 && e.direction.value.x <= 0.0 ==> r.translation.x <= e.translation.x
    ensures e.direction.Some? && dt >= 0.0 && e.direction.value.y >= 0.0 ==> r.translation.y >= e.translation.y
    ensures e.direction.Some? && dt >= 0.0 && e.direction.value.y <= 0.0 ==> r.translation.y <= e.translation.y
  {
    match e.direction
    case None => e
    case Some(d) =>
      var t := e.translation;
      var x := t.x + d.x * dt * BULLET_SPEED;
      var y := t.y + d.y * dt * BULLET_SPEED;
      assert dt >= 0.0 && d.x >= 0.0 ==> d.x * dt * BULLET_SPEED >= 0.0;
      assert dt >= 0.0 && d.x <= 0.0 ==> d.x * dt * BULLET_SPEED <= 0.0;
      assert dt >= 0.0 && d.y >= 0.0 ==> d.y * dt * BULLET_SPEED >= 0.0;
      assert dt >= 0.0 && d.y <= 0.0 ==> d.y * dt * BULLET_SPEED <= 0.0;
      Entity(Vec3(x, y, t.z), e.direction)
  }

  /** From a freshly spawned player (`last_shot = 0`, `firerate = 100`): a
      frame fires exactly when the button is held after 100 ms, every shot of a
      run comes after 100 ms, and a run whose clock stays at or below `hi` holds
      at most `hi / 101` shots. */
  lemma SpawnCadence(frames: seq<Frame>, hi: u128)
    requires forall k :: 0 <= k < |frames| ==> frames[k].now <= hi
    ensures forall f: Frame :: Fires(INITIAL_LAST_SHOT, INITIAL_FIRERATE, f) <==> f.leftPressed && f.now > 100
    ensures var r := Shots(INITIAL_LAST_SHOT, INITIAL_FIRERATE, frames);
      forall i :: 0 <= i < |r| ==> r[i] > 100
    ensures |Shots(INITIAL_LAST_SHOT, INITIAL_FIRERATE, frames)| * 101 <= hi as int
  {
    var r := Shots(INITIAL_LAST_SHOT, INITIAL_FIRERATE, frames);
    ShotsWithin(INITIAL_LAST_SHOT, INITIAL_FIRERATE, frames, hi);
    forall i | 0 <= i < |r|
      ensures r[i] > 100
    {
      ShotsSpaced(INITIAL_LAST_SHOT, INITIAL_FIRERATE, frames);
      ShotsGap(INITIAL_LAST_SHOT, INITIAL_FIRERATE, frames, 0, i);
    }
  }

  /** The player entity: its `Player` component and its transform. */
  class Player {
    var speed: real
    var lastShot: u128
    var firerate: u16
    var transform: Vec3

    /** `spawn_player`: at the origin, speed 128, never fired, 100 ms fire rate. */
    constructor ()
      ensures speed == PLAYER_SPEED && lastShot == INITIAL_LAST_SHOT && firerate == INITIAL_FIRERATE
      ensures transform == ORIGIN
    {
      speed := PLAYER_SPEED;
      lastShot := INITIAL_LAST_SHOT;
      firerate := INITIAL_FIRERATE;
      transform := ORIGIN;
    }

    /** `player_move`: each held key moves the player by `speed * dt` on its
        axis; nothing but the transform changes. */
    method Move(keys: Keys, dt: real)
      modifies this`transform
      ensures transform == Moved(old(transform), keys, speed * dt)
    {
      var step := speed * dt;
      if keys.w {
        transform := transform.(y := transform.y + step);
      }
      if keys.s {
        transform := transform.(y := transform.y - step);
      }
      if keys.a {
        transform := transform.(x := transform.x - step);
      }
      if keys.d {
        transform := transform.(x := transform.x + step);
      }
    }

    /** `player_fire`: when the left button is held and more than `firerate`
        ms have passed since the last shot, spawn one bullet at the player's
        transform aimed at the crosshair and record `now` as the last shot;
        otherwise spawn nothing and change nothing. */
    method Fire(leftPressed: bool, now: u128, crosshair: Vec3, normalize: Vec2 -> Vec2)
      returns (spawned: Option<Entity>)
      modifies this`lastShot
      ensures spawned.Some? <==> Fires(old(lastShot), firerate, Frame(leftPressed, now))
      ensures lastShot == After(old(lastShot), firerate, Frame(leftPressed, now))
      ensures spawned.Some? ==> lastShot == now
      ensures spawned.None? ==> lastShot == old(lastShot)
      ensures spawned.Some? ==> spawned.value == Bullet(transform, normalize(Aim(transform, crosshair)))
    {
      if !leftPressed {
        return None;
      }
      if lastShot as int + firerate as int < now as int {
        var dir := normalize(Aim(transform, crosshair));
        spawned := Some(Bullet(transform, dir));
        lastShot := now;
      } else {
        spawned := None;
      }
    }
  }

  /** The crosshair entity: it only has a transform. */
  class Crosshair {
    var transform: Vec3

    /** `spawn_crosshair`: at the origin. */
    constructor ()
      ensures transform == ORIGIN
    {
      transform := ORIGIN;
    }

    /** `crosshair_move`: jump to the position of the frame's last cursor
        event, or stay put when there was none. */
    method Track(events: seq<Vec2>)
      modifies this
      ensures transform == Tracked(old(transform), events)
    {
      if events != [] {
        var last := events[|events| - 1];
        transform := transform.(x := last.x - (WIDTH as real / 2.0), y := last.y - (HEIGHT as real / 2.0));
      }
    }
  }

  /** `player_fire` run on `p` over successive frames, with the crosshair
      held at `crosshair`: the clock readings at which it spawned bullets and
      the final `last_shot` are those of `FireGate.Shots` and
      `FireGate.LastShotAfter`, so the cadence lemmas apply to the player. */
  method FireOverFrames(p: Player, frames: seq<Frame>, crosshair: Vec3, normalize: Vec2 -> Vec2)
    returns (times: seq<u128>)
    modifies p`lastShot
    ensures times == Shots(old(p.lastShot), p.firerate, frames)
    ensures p.lastShot == LastShotAfter(old(p.lastShot), p.firerate, frames)
  {
    ghost var start, rate := p.lastShot, p.firerate;
    times := [];
    var i := 0;
    while i < |frames|
      invariant 0 <= i <= |frames| && p.firerate == rate
      invariant Shots(start, rate, frames) == times + Shots(p.lastShot, rate, frames[i..])
      invariant LastShotAfter(start, rate, frames) == LastShotAfter(p.lastShot, rate, frames[i..])
    {
      var f := frames[i];
      ghost var cur := p.lastShot;
      ShotsStep(cur, rate, frames, i);
      var spawned := p.Fire(f.leftPressed, f.now, crosshair, normalize);
      ghost var rest := Shots(p.lastShot, rate, frames[i + 1..]);
      if spawned.Some? {
        assert Shots(cur, rate, frames[i..]) == [f.now] + rest;
        times := times + [f.now];
      } else {
        assert Shots(cur, rate, frames[i..]) == rest;
      }
      i := i + 1;
    }
    assert frames[i..] == [];
  }

  /** The entity store the systems share: the one player, the one crosshair,
      and every other entity with a transform (bullets among them). */
  class World {
    const player: Player
    const crosshair: Crosshair
    var entities: seq<Entity>

    /** The startup systems `spawn_player` and `spawn_crosshair`. */
    constructor ()
      ensures fresh(player) && fresh(crosshair)
      ensures player.speed == PLAYER_SPEED && player.lastShot == INITIAL_LAST_SHOT
      ensures player.firerate == INITIAL_FIRERATE && player.transform == ORIGIN
      ensures crosshair.transform == ORIGIN
      ensures entities == []
    {
      player := new Player();
      crosshair := new Crosshair();
      entities := [];
    }

    /** `player_fire` with its spawn applied: exactly one bullet is added when
        the gate passes, none otherwise, and the other entities are kept. */
    method PlayerFire(leftPressed: bool, now: u128, normalize: Vec2 -> Vec2)
      modifies this`entities, player`lastShot
      ensures var f := Frame(leftPressed, now);
        player.lastShot == After(old(player.lastShot), player.firerate, f) &&
        entities == old(entities) +
          if Fires(old(player.lastShot), player.firerate, f)
          then [Bullet(player.transform, normalize(Aim(player.transform, crosshair.transform)))]
          else []
    {
      var spawned := player.Fire(leftPressed, now, crosshair.transform, normalize);
      if spawned.Some? {
        entities := entities + [spawned.value];
      }
    }

    /** `bullet_move`: every entity with a direction advances along it, every
        other entity, the player and the crosshair stay where they are, and no
        entity is added, removed or reordered. */
    method BulletMove(dt: real)
      modifies this`entities
      ensures |entities| == |old(entities)|
      ensures forall i :: 0 <= i < |entities| ==> entities[i] == Advance(old(entities)[i], dt)
    {
      var i := 0;
      while i < |entities|
        invariant 0 <= i <= |entities| == |old(entities)|
        invariant forall k :: 0 <= k < i ==> entities[k] == Advance(old(entities)[k], dt)
        invariant forall k :: i <= k < |entities| ==> entities[k] == old(entities)[k]
      {
        var e := entities[i];
        if e.direction.Some? {
          var d := e.direction.value;
          var t := e.translation;
          var moved := t.(x := t.x + d.x * dt * BULLET_SPEED, y := t.y + d.y * dt * BULLET_SPEED);
          entities := entities[i := e.(translation := moved)];
        }
        i := i + 1;
      }
    }
  }
}
