/** Experiment 002's physics time-scale controller, the part of
    `cursor_grab_system` that rewrites Rapier's `timestep_mode`: Period
    doubles the time scale up to 512, Comma halves it down to 2^-9, Slash
    resets it to 1, and only the interpolated mode is touched. */
module TimeScale {

  /** Rapier's `TimestepMode`. */
  datatype TimestepMode =
    | Fixed(dt: real, substeps: nat)
    | Variable(maxDt: real, timeScale: real, substeps: nat)
    | Interpolated(dt: real, timeScale: real, substeps: nat)

  const MAX_TIME_SCALE: real := 512.0
  const MIN_TIME_SCALE: real := 0.001953125

  /** The mode the app starts with. */
  const INITIAL_MODE: TimestepMode := Interpolated(0.016666667, 1.0, 1)

  /** Period: the doubled scale, capped at MAX_TIME_SCALE, i.e. min(2 ts, 512). */
  function Faster(ts: real): (r: real)
    ensures r <= 2.0 * ts && r <= MAX_TIME_SCALE
    ensures r == 2.0 * ts || r == MAX_TIME_SCALE
  {
    var scaled := ts * 2.0;
    if scaled > MAX_TIME_SCALE then MAX_TIME_SCALE else scaled
  }

  /** Comma: the halved scale, floored at MIN_TIME_SCALE, i.e. max(ts / 2, 2^-9). */
  function Slower(ts: real): (r: real)
    ensures r >= ts / 2.0 && r >= MIN_TIME_SCALE
    ensures r == ts / 2.0 || r == MIN_TIME_SCALE
  {
    var scaled := ts / 2.0;
    if scaled < MIN_TIME_SCALE then MIN_TIME_SCALE else scaled
  }

  /** The time scale after one frame's keys, handled Period, Comma, Slash. */
  function ScaleAfterKeys(ts: real, period: bool, comma: bool, slash: bool): real
  {
    var afterPeriod := if period then Faster(ts) else ts;
    var afterComma := if comma then Slower(afterPeriod) else afterPeriod;
    if slash then 1.0 else afterComma
  }

  /** The mode after one frame's keys: only an interpolated mode changes,
      and only in its time scale. */
  function ModeAfterKeys(m: TimestepMode, period: bool, comma: bool, slash: bool): TimestepMode
  {
    match m
    case Interpolated(dt, ts, substeps) => Interpolated(dt, ScaleAfterKeys(ts, period, comma, slash), substeps)
    case _ => m
  }

  /** Every key keeps dt and substeps, a non-interpolated mode is left as it
      is, and Slash overrides Period and Comma of the same frame. */
  lemma KeysKeepTheRest(m: TimestepMode, period: bool, comma: bool, slash: bool)
    ensures var r := ModeAfterKeys(m, period, comma, slash);
            && (!m.Interpolated? ==> r == m)
            && (m.Interpolated? ==> r.Interpolated? && r.dt == m.dt && r.substeps == m.substeps)
            && (m.Interpolated? && slash ==> r.timeScale == 1.0)
  {
  }

  /** 2^k for any integer k. */
  function Pow2(k: int): (r: real)
    ensures r > 0.0
    decreases if k >= 0 then k else -k
  {
    if k == 0 then 1.0
    else if k > 0 then 2.0 * Pow2(k - 1)
    else Pow2(k + 1) / 2.0
  }

  lemma Pow2Succ(k: int)
    ensures Pow2(k + 1) == 2.0 * Pow2(k)
  {
  }

  lemma {:induction false} Pow2Monotone(j: int, k: int)
    requires j <= k
    ensures Pow2(j) <= Pow2(k)
    decreases k - j
  {
    if j < k {
      Pow2Monotone(j, k - 1);
      Pow2Succ(k - 1);
    }
  }

  lemma Pow2Ends()
    ensures Pow2(9) == MAX_TIME_SCALE && Pow2(-9) == MIN_TIME_SCALE
  {
    assert Pow2(1) == 2.0;
    assert Pow2(2) == 4.0;
    assert Pow2(3) == 8.0;
    assert Pow2(4) == 16.0;
    assert Pow2(5) == 32.0;
    assert Pow2(6) == 64.0;
    assert Pow2(7) == 128.0;
    assert Pow2(8) == 256.0;
    assert Pow2(-1) == 0.5;
    assert Pow2(-2) == 0.25;
    assert Pow2(-3) == 0.125;
    assert Pow2(-4) == 0.0625;
    assert Pow2(-5) == 0.03125;
    assert Pow2(-6) == 0.015625;
    assert Pow2(-7) == 0.0078125;
    assert Pow2(-8) == 0.00390625;
  }

  /** The scales the controller can reach: 2^k with -9 <= k <= 9. */
  ghost predicate Reachable(ts: real)
  {
    exists k: int :: -9 <= k <= 9 && ts == Pow2(k)
  }

  /** Doubling and halving move along the powers of two, stopping at the ends. */
  lemma {:induction false} FasterSlowerOnPowers(k: int)
    requires -9 <= k <= 9
    ensures Faster(Pow2(k)) == Pow2(if k < 9 then k + 1 else 9)
    ensures Slower(Pow2(k)) == Pow2(if k > -9 then k - 1 else -9)
  {
    Pow2Ends();
    Pow2Succ(k);
    Pow2Succ(k - 1);
    if k < 9 {
      Pow2Monotone(k + 1, 9);
    }
    if k > -9 {
      Pow2Monotone(-9, k - 1);
    }
  }

  /** One frame's keys keep the time scale among the reachable ones. */
  lemma {:induction false} KeysStayReachable(ts: real, period: bool, comma: bool, slash: bool)
    requires Reachable(ts)
    ensures Reachable(ScaleAfterKeys(ts, period, comma, slash))
  {
    var k :| -9 <= k <= 9 && ts == Pow2(k);
    FasterSlowerOnPowers(k);
    var k1 := if period then (if k < 9 then k + 1 else 9) else k;
    FasterSlowerOnPowers(k1);
    var k2 := if comma then (if k1 > -9 then k1 - 1 else -9) else k1;
    if slash {
      assert ScaleAfterKeys(ts, period, comma, slash) == Pow2(0);
    } else {
      assert ScaleAfterKeys(ts, period, comma, slash) == Pow2(k2);
    }
  }

  /** Key presses of successive frames. */
  datatype TimeKeys = TimeKeys(period: bool, comma: bool, slash: bool)

  function ScaleAfterFrames(ts: real, frames: seq<TimeKeys>): real
  {
    if frames == [] then ts
    else
      var last := frames[|frames| - 1];
      ScaleAfterKeys(ScaleAfterFrames(ts, frames[..|frames| - 1]), last.period, last.comma, last.slash)
  }

  /** Starting from 1, every reachable time scale is 2^k with -9 <= k <= 9,
      so it always lies in [2^-9, 512]. */
  lemma {:induction false} ScalesArePowersOfTwo(frames: seq<TimeKeys>)
    ensures Reachable(ScaleAfterFrames(1.0, frames))
    ensures MIN_TIME_SCALE <= ScaleAfterFrames(1.0, frames) <= MAX_TIME_SCALE
  {
    if frames == [] {
      assert 1.0 == Pow2(0);
    } else {
      var last := frames[|frames| - 1];
      ScalesArePowersOfTwo(frames[..|frames| - 1]);
      KeysStayReachable(ScaleAfterFrames(1.0, frames[..|frames| - 1]), last.period, last.comma, last.slash);
    }
    var k :| -9 <= k <= 9 && ScaleAfterFrames(1.0, frames) == Pow2(k);
    Pow2Ends();
    Pow2Monotone(-9, k);
    Pow2Monotone(k, 9);
  }

  /** Rapier's configuration resource, of which only the timestep mode is
      modelled. */
  class PhysicsConfiguration {
    var timestepMode: TimestepMode

    constructor ()
      ensures timestepMode == INITIAL_MODE
    {
      timestepMode := INITIAL_MODE;
    }

    /** The Period, Comma and Slash statements of `cursor_grab_system`, in
        source order. */
    method HandleTimeKeys(period: bool, comma: bool, slash: bool)
      modifies this
      ensures timestepMode == ModeAfterKeys(old(timestepMode), period, comma, slash)
    {
      if period {
        match timestepMode {
          case Interpolated(dt, timeScale, substeps) =>
            var newTimeScale := timeScale * 2.0;
            if newTimeScale > MAX_TIME_SCALE {
              newTimeScale := MAX_TIME_SCALE;
            }
            timestepMode := Interpolated(dt, newTimeScale, substeps);
          case _ =>
        }
      }
      if comma {
        match timestepMode {
          case Interpolated(dt, timeScale, substeps) =>
            var newTimeScale := timeScale / 2.0;
            if newTimeScale < MIN_TIME_SCALE {
              newTimeScale := MIN_TIME_SCALE;
            }
            timestepMode := Interpolated(dt, newTimeScale, substeps);
          case _ =>
        }
      }
      if slash {
        match timestepMode {
          case Interpolated(dt, _, substeps) =>
            timestepMode := Interpolated(dt, 1.0, substeps);
          case _ =>
        }
      }
    }
  }
}
