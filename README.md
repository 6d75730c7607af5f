# Player systems of a Bevy top-down shooter, in Dafny

This project models the player plugin of a small Bevy shooter prototype
(`src/player.rs`). The plugin has these parts:

- **The player.** It holds a speed, the time of its last shot (`last_shot`, u128 ms) and a fire rate (`firerate`, u16 ms). `spawn_player` creates it at the origin with speed 128, `last_shot = 0` and `firerate = 100`. `player_move` moves it with W/A/S/D.
- **The crosshair.** `crosshair_move` puts it at the position of the frame's last cursor event, shifted so that the window centre is the origin.
- **The fire gate.** `player_fire` spawns one bullet when the left mouse button is held and `last_shot + firerate < now`. The bullet starts at the player's transform and is aimed at the crosshair. The gate then sets `last_shot` to `now`.
- **Bullets.** `bullet_move` advances every entity that carries a `Direction` by `direction * 256 * dt`.

Modules:

- `Common` (common.dfy): `Option`, the `u16`/`u128` newtypes, 2D and 3D vectors, and the window size from `src/main.rs`.
- `FireGate` (fire_gate.dfy): the cooldown gate as pure functions, and the run of shot times over a sequence of frames. It proves the cadence lemmas: spacing of consecutive shots, the gap between any two shots, and a bound on the number of shots before a given time.
- `PlayerPlugin` (player.dfy): the classes `Player`, `Crosshair` and `World`. Their methods update fields in place, just as the systems do. Each method is specified against a function (`Moved`, `Tracked`, `Advance`, `FireGate.Fires`/`After`). The properties are stated on those functions.

The fire-gate properties are exact, because the source does that arithmetic on integer milliseconds. Movement is different: the source computes positions in f32, while the model uses exact reals. For that reason the movement contracts only state facts that hold whatever the rounding:
- which coordinate changes;
- which coordinates stay the same;
- the sign of the change.

One point about what the code does, as opposed to what a reader might expect.

- **Fire cadence.** A repeating 100 ms timer would give exactly 10 shots per second. `player_fire` works differently:
  - it stores the clock reading of the last shot;
  - it compares with a strict `<`;
  - it resets `last_shot` to the current reading.

  So consecutive shots are at least `firerate + 1` = 101 ms apart (`FireGate.ShotsSpaced`, `FireGate.ShotsGap`), and late frames shift every later shot. From spawn, at most `hi / 101` shots happen by time `hi` (`PlayerPlugin.SpawnCadence`).

## Model

| member | source | states |
|---|---|---|
| FireGate.After | src/player.rs:105-126 | `last_shot` after a frame never decreases, and it changes only to the frame's clock reading, with the button held |
| FireGate.Shots | src/player.rs:99-127 | a run spawns no more bullets than it has frames |
| FireGate.LastShotAfter | src/player.rs:105-126 | over any run of frames `last_shot` never decreases, whatever the clock does |
| FireGate.ShotsSpaced | src/player.rs:105-126 | the first shot is more than `firerate` ms after the initial `last_shot`, and each shot is more than `firerate` ms after the previous one |
| FireGate.ShotsGap | src/player.rs:105-126 | shots `j - i` apart in a run are at least `(j - i) * (firerate + 1)` ms apart (a bound on the shots in a time window follows from this but is not stated as a lemma) |
| FireGate.ShotsWithin | src/player.rs:105-126 | if the clock never passes `hi` and the run fires at least once, then `last_shot + count * (firerate + 1) <= hi` |
| FireGate.LastShotIsLatestShot | src/player.rs:126 | `last_shot` at the end of a run is the time of the run's last shot, or the initial value if nothing fired |
| PlayerPlugin.SpawnCadence | src/player.rs:41-45 | from the spawned player (`last_shot = 0`, `firerate = 100`), a frame fires iff the button is held and `now > 100`; every shot comes after 100 ms; at most `hi / 101` shots happen by time `hi` |
| PlayerPlugin.Moved | src/player.rs:55-66 | z never changes; with neither W nor S held y is unchanged, and with neither A nor D held x is unchanged; W alone never lowers y, S alone never raises it, D alone never decreases x, A alone never increases it |
| PlayerPlugin.MovedAxesIndependent | src/player.rs:55-66 | the new y depends only on W/S and the new x only on A/D |
| PlayerPlugin.Tracked | src/player.rs:85-88 | with no cursor event the crosshair is unchanged, and z never changes |
| PlayerPlugin.TrackedLastWins | src/player.rs:85 | earlier cursor events of the frame have no effect: only the last one counts |
| PlayerPlugin.TrackedNotAccumulated | src/player.rs:86-87 | the crosshair is set, not moved: the new x and y do not depend on the old ones |
| PlayerPlugin.TrackedOneEvent | src/player.rs:86-87 | an event at (px, py) puts the crosshair at (px - 400, py - 300) |
| PlayerPlugin.Advance | src/player.rs:133-136 | an entity without a direction is unchanged; the direction and z are never modified; x and y move with the sign of the direction for `dt >= 0` |
| PlayerPlugin.Bullet | src/player.rs:117-124 | a spawned bullet starts at the player's translation and carries the direction `dir` |
| PlayerPlugin.Player.constructor | src/player.rs:34-45 | a new player is at the origin with speed 128, `last_shot = 0` and `firerate = 100` |
| PlayerPlugin.Player.Move | src/player.rs:48-67 | the new translation is `Moved(old translation, keys, speed * dt)`; speed, `last_shot` and `firerate` are not modified |
| PlayerPlugin.Player.Fire | src/player.rs:91-128 | a bullet is spawned iff the button is held and `last_shot + firerate < now`; then `last_shot = now` and the bullet starts at the player's transform aimed at normalize(crosshair - player); otherwise nothing changes |
| PlayerPlugin.Crosshair.constructor | src/player.rs:69-77 | a new crosshair is at the origin |
| PlayerPlugin.Crosshair.Track | src/player.rs:79-89 | the new translation is `Tracked(old translation, events)` |
| PlayerPlugin.FireOverFrames | src/player.rs:91-128 | calling `Player.Fire` on successive frames spawns bullets at exactly the clock readings `FireGate.Shots` gives, and leaves `last_shot` at `FireGate.LastShotAfter`, so the cadence lemmas hold for the player itself |
| PlayerPlugin.World.constructor | src/player.rs:34-77 | startup creates one player and one crosshair, both as spawned, and no other entity |
| PlayerPlugin.World.PlayerFire | src/player.rs:103-127 | the entity list gains exactly one bullet when the gate passes and none otherwise; the existing entities are kept and `last_shot` follows `FireGate.After` |
| PlayerPlugin.World.BulletMove | src/player.rs:132-137 | every entity becomes `Advance(old entity, dt)`: those with a direction move, the others, the player and the crosshair are untouched, and none is added, removed or reordered |

## Left out

- PlayerPlugin.Player.Fire: the sum `last_shot + firerate` is compared as an unbounded integer. The u128 overflow is not modelled. It would panic in a debug build and wrap in a release build, and it needs a clock reading within 65535 ms of 2^128 ms.
- FireGate.Fires: the same unbounded sum as `PlayerPlugin.Player.Fire`, with the same omission.
- PlayerPlugin.Moved: positions are exact reals rather than f32, so rounding is not modelled. For that reason the contract says nothing about the exact displacement. For example, it does not claim that W and S together cancel.
- PlayerPlugin.Tracked: same as `Moved`. The shift by (400, 300) is an f32 subtraction in the source, but the model subtracts exactly (also in `TrackedOneEvent`).
- PlayerPlugin.Advance: same as `Moved`. The exact displacement `direction * 256 * dt` is the definition, but it is not stated as a rounding-exact promise.
- `Vec2::normalize` is a function parameter of `Fire`/`PlayerFire`, because its f32 square root is not modelled. Its NaN result when the crosshair and the player coincide is not modelled either.
- Clock and input become parameters:
  - `Time::delta_seconds` becomes `dt`;
  - `Time::time_since_startup().as_millis()` becomes `now`;
  - keyboard and mouse state become `Keys` and `leftPressed`;
  - the cursor events become a sequence of pointer positions.
- Bevy ECS mechanics are not modelled:
  - `Commands` spawns are deferred to the end of the stage, but the model appends the bullet at once;
  - `Query::single_mut` panics are not modelled, because `World` holds exactly one player and one crosshair by construction;
  - system scheduling order is not modelled: each system is a separate method and there is no frame tick.
- The `Bullet` and `Crosshair` marker components, the sprite textures and asset loading carry no logic.
- A transform's rotation and scale are only copied into the spawned bullet, never changed, so only the translation is modelled.
- `src/main.rs` (app and window setup), `src/fps.rs` (FPS display) and `src/enemies.rs` (random enemy spawning, and collision through Bevy's `collide`) are not part of this model.
