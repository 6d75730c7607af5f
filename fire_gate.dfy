/** The cooldown gate of `player_fire`: a pure description of when a frame
    spawns a bullet and what `last_shot` becomes, and what it implies for a
    whole run of frames (shot spacing and the maximal firing rate). */
module FireGate {
  import opened Common

  /** What `player_fire` reads in one frame: whether the left mouse button
      is held, and the clock in milliseconds since startup. */
  datatype Frame = Frame(leftPressed: bool, now: u128)

  /** The gate: the button is held and strictly more than `firerate`
      milliseconds have passed since the last shot. The sum is taken as an
      unbounded integer. */
  predicate Fires(lastShot: u128, firerate: u16, f: Frame)
  {
    f.leftPressed && lastShot as int + firerate as int < f.now as int
  }

  /** `last_shot` after one frame: the clock reading when the gate passes,
      the old value otherwise. It never decreases, whatever the clock does. */
  function After(lastShot: u128, firerate: u16, f: Frame): (r: u128)
    ensures r >= lastShot
    ensures r != lastShot ==> r == f.now && f.leftPressed
  {
    if Fires(lastShot, firerate, f) then f.now else lastShot
  }

  /** The clock readings at which bullets are spawned over a run of frames. */
  function Shots(lastShot: u128, firerate: u16, frames: seq<Frame>): (r: seq<u128>)
    ensures |r| <= |frames|
    decreases |frames|
  {
    if frames == [] then []
    else
      var f := frames[0];
      (if Fires(lastShot, firerate, f) then [f.now] else [])
        + Shots(After(lastShot, firerate, f), firerate, frames[1..])
  }

  /** `last_shot` at the end of a run of frames. */
  function LastShotAfter(lastShot: u128, firerate: u16, frames: seq<Frame>): (r: u128)
    ensures r >= lastShot
    decreases |frames|
  {
    if frames == [] then lastShot
    else LastShotAfter(After(lastShot, firerate, frames[0]), firerate, frames[1..])
  }

  /** One frame of a run, taken from position `i` on. */
  lemma ShotsStep(lastShot: u128, firerate: u16, frames: seq<Frame>, i: nat)
    requires i < |frames|
    ensures Shots(lastShot, firerate, frames[i..]) ==
      (if Fires(lastShot, firerate, frames[i]) then [frames[i].now] else [])
        + Shots(After(lastShot, firerate, frames[i]), firerate, frames[i + 1..])
    ensures LastShotAfter(lastShot, firerate, frames[i..]) ==
      LastShotAfter(After(lastShot, firerate, frames[i]), firerate, frames[i + 1..])
  {
    assert frames[i..][0] == frames[i];
    assert frames[i..][1..] == frames[i + 1..];
  }

  /** Consecutive shots are more than `firerate` ms apart, and the first one
      is more than `firerate` ms after the initial `last_shot`. No assumption
      on the clock is needed: the gate compares against the last shot itself. */
  lemma {:induction false} ShotsSpaced(lastShot: u128, firerate: u16, frames: seq<Frame>)
    ensures var r := Shots(lastShot, firerate, frames);
      r != [] ==> lastShot as int + firerate as int < r[0] as int
    ensures var r := Shots(lastShot, firerate, frames);
      forall i :: 0 <= i < |r| - 1 ==> r[i] as int + firerate as int < r[i + 1] as int
    decreases |frames|
  {
    if frames != [] {
      var f := frames[0];
      var next := After(lastShot, firerate, f);
      var rest := Shots(next, firerate, frames[1..]);
      ShotsSpaced(next, firerate, frames[1..]);
      var r := Shots(lastShot, firerate, frames);
      if Fires(lastShot, firerate, f) {
        assert r == [f.now] + rest;
        forall i | 0 <= i < |r| - 1
          ensures r[i] as int + firerate as int < r[i + 1] as int
        {
          if i > 0 {
            assert r[i] == rest[i - 1] && r[i + 1] == rest[i];
          }
        }
      } else {
        assert r == rest;
      }
    }
  }

  /** Any two shots, `i` and `j` apart in the run, are at least
      `(j - i) * (firerate + 1)` ms apart. */
  lemma {:induction false} ShotsGap(lastShot: u128, firerate: u16, frames: seq<Frame>, i: nat, j: nat)
    requires i <= j < |Shots(lastShot, firerate, frames)|
    ensures var r := Shots(lastShot, firerate, frames);
      r[i] as int + (j - i) * (firerate as int + 1) <= r[j] as int
    decreases j - i
  {
    var r := Shots(lastShot, firerate, frames);
    if i < j {
      ShotsGap(lastShot, firerate, frames, i, j - 1);
      ShotsSpaced(lastShot, firerate, frames);
      assert r[j - 1] as int + firerate as int < r[j] as int;
      assert (j - i) * (firerate as int + 1) == (j - 1 - i) * (firerate as int + 1) + (firerate as int + 1);
    }
  }

  /** If no frame of the run reads the clock past `hi` and the run fires at
      least once, then it fires at most `(hi - lastShot) / (firerate + 1)`
      times. */
  lemma {:induction false} ShotsWithin(lastShot: u128, firerate: u16, frames: seq<Frame>, hi: u128)
    requires forall k :: 0 <= k < |frames| ==> frames[k].now <= hi
    ensures var r := Shots(lastShot, firerate, frames);
      r == [] || lastShot as int + |r| * (firerate as int + 1) <= hi as int
    decreases |frames|
  {
    if frames != [] {
      var f := frames[0];
      var next := After(lastShot, firerate, f);
      var rest := Shots(next, firerate, frames[1..]);
      ShotsWithin(next, firerate, frames[1..], hi);
      var r := Shots(lastShot, firerate, frames);
      if Fires(lastShot, firerate, f) {
        assert r == [f.now] + rest;
        assert f.now <= hi;
        assert (|rest| + 1) * (firerate as int + 1) == |rest| * (firerate as int + 1) + (firerate as int + 1);
      } else {
        assert r == rest;
      }
    }
  }

  /** `last_shot` at the end of a run is the time of its last shot, or the
      initial value when nothing was fired. */
  lemma {:induction false} LastShotIsLatestShot(lastShot: u128, firerate: u16, frames: seq<Frame>)
    ensures var r := Shots(lastShot, firerate, frames);
      LastShotAfter(lastShot, firerate, frames) == if r == [] then lastShot else r[|r| - 1]
    decreases |frames|
  {
    if frames != [] {
      var f := frames[0];
      var next := After(lastShot, firerate, f);
      LastShotIsLatestShot(next, firerate, frames[1..]);
      var rest := Shots(next, firerate, frames[1..]);
      var r := Shots(lastShot, firerate, frames);
      if Fires(lastShot, firerate, f) {
        assert r == [f.now] + rest;
      } else {
        assert r == rest;
      }
    }
  }
}
