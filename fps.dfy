/** `FpsManager` (of the engine's system): paces frames by sleeping away what is left of the
    target frame duration since the previous frame. Durations and instants are seconds. */
module Fps {
  import opened Base

  /** `target_duration`: one frame at the rate. For rate 0 the quotient is infinite, which
      `Duration::from_secs_f32` refuses with a panic. */
  function TargetDuration(rate: nat): (r: Outcome<real>)
    ensures r.Panicked? <==> rate == 0
    ensures r.Returned? ==> r.value > 0.0 && r.value * rate as real == 1.0
  {
    if rate == 0 then Panicked else Returned(1.0 / rate as real)
  }

  /** `Instant::elapsed`: the time since `before`, zero if the clock reads earlier. */
  function Elapsed(before: real, now: real): (d: real)
    ensures d >= 0.0 && d >= now - before
    ensures now >= before ==> d == now - before
  {
    if now >= before then now - before else 0.0
  }

  /** The sleep `delay` makes: what the previous frame left of the target duration, if
      anything; nothing on the first frame. */
  function Slept(last: Option<real>, target: real, now: real): (d: real)
    requires target > 0.0
    ensures 0.0 <= d <= target
    ensures last.None? ==> d == 0.0
    ensures last.Some? ==> (d > 0.0 <==> Elapsed(last.value, now) < target)
    ensures last.Some? && d > 0.0 ==> Elapsed(last.value, now) + d == target
  {
    match last
    case None => 0.0
    case Some(before) =>
      var duration := Elapsed(before, now);
      if duration < target then target - duration else 0.0
  }

  /** With an instant recorded, a frame lasts at least the target duration from that instant
      to the end of the sleep. */
  lemma FramePaced(before: real, target: real, now: real)
    requires target > 0.0 && now >= before
    ensures now - before + Slept(Some(before), target, now) >= target
  {
  }

  class FpsManager {
    var targetDuration: real
    var lastInstant: Option<real>

    ghost predicate Valid()
      reads this
    {
      targetDuration > 0.0
    }

    constructor Init(target: real)
      requires target > 0.0
      ensures Valid() && targetDuration == target && lastInstant == None
    {
      targetDuration := target;
      lastInstant := None;
    }

    /** `new`: no frame seen yet, and the duration of one frame at `rate`. */
    static method New(rate: U16) returns (r: Outcome<FpsManager>)
      ensures r.Panicked? <==> rate == 0
      ensures r.Returned? ==> fresh(r.value) && r.value.Valid() && r.value.lastInstant == None
                              && Returned(r.value.targetDuration) == TargetDuration(rate)
    {
      var target := TargetDuration(rate);
      if target.Panicked? {
        return Panicked;
      }
      var m := new FpsManager.Init(target.value);
      r := Returned(m);
    }

    /** `set_target_frame_rate`: the target duration follows the new rate. */
    method SetTargetFrameRate(rate: U16) returns (r: Outcome<()>)
      modifies this
      ensures r.Panicked? <==> rate == 0
      ensures r.Returned? ==> Valid() && Returned(targetDuration) == TargetDuration(rate)
      ensures lastInstant == old(lastInstant)
    {
      var target := TargetDuration(rate);
      if target.Panicked? {
        return Panicked;
      }
      targetDuration := target.value;
      r := Returned(());
    }

    /** `delay`, which the clock reads at `now` and, once any sleep is over, at `after`: it
        sleeps what the frame has left, returns that, and always records `after`. */
    method Delay(now: real, after: real) returns (slept: real)
      requires Valid()
      modifies this
      ensures Valid() && targetDuration == old(targetDuration)
      ensures slept == Slept(old(lastInstant), targetDuration, now)
      ensures lastInstant == Some(after)
    {
      slept := 0.0;
      if lastInstant.Some? {
        var before := lastInstant.value;
        var duration := Elapsed(before, now);
        if duration < targetDuration {
          slept := targetDuration - duration;
        }
      }
      lastInstant := Some(after);
    }
  }
}

/** The older `FpsManager` of the Vulkan system. */
module VulkanFps {
  import opened Base
  import Fps

  class FpsManager {
    var targetFrameRate: U32
    var targetDuration: real
    var lastInstant: Option<real>

    ghost predicate Valid()
      reads this
    {
      targetDuration > 0.0
    }

    constructor Init(rate: U32, target: real)
      requires target > 0.0
      ensures Valid() && targetFrameRate == rate && targetDuration == target && lastInstant == None
    {
      targetFrameRate := rate;
      targetDuration := target;
      lastInstant := None;
    }

    /** `new`: the rate, the duration of one frame at it, and no frame seen yet. */
    static method New(rate: U32) returns (r: Outcome<FpsManager>)
      ensures r.Panicked? <==> rate == 0
      ensures r.Returned? ==> fresh(r.value) && r.value.Valid() && r.value.targetFrameRate == rate
                              && r.value.lastInstant == None
                              && Returned(r.value.targetDuration) == Fps.TargetDuration(rate)
    {
      var target := Fps.TargetDuration(rate);
      if target.Panicked? {
        return Panicked;
      }
      var m := new FpsManager.Init(rate, target.value);
      r := Returned(m);
    }

    /** `set_target_frame_rate`: only the stored rate changes; the duration `delay` paces to
        stays what `new` computed. */
    method SetTargetFrameRate(rate: U32)
      modifies this
      ensures targetFrameRate == rate
      ensures targetDuration == old(targetDuration) && lastInstant == old(lastInstant)
    {
      targetFrameRate := rate;
    }

    /** `delay`, which the clock reads at `now` and, when it does not sleep, at `after`: a
        sleep returns early and leaves no instant; otherwise `after` is recorded and 0 returned. */
    method Delay(now: real, after: real) returns (slept: real)
      requires Valid()
      modifies this
      ensures Valid() && targetDuration == old(targetDuration) && targetFrameRate == old(targetFrameRate)
      ensures slept == Fps.Slept(old(lastInstant), targetDuration, now)
      ensures lastInstant == if slept > 0.0 then None else Some(after)
    {
      if lastInstant.Some? {
        var before := lastInstant.value;
        lastInstant := None;
        var duration := Fps.Elapsed(before, now);
        if duration < targetDuration {
          return targetDuration - duration;
        }
      }
      lastInstant := Some(after);
      slept := 0.0;
    }
  }

  /** Changing the rate to 30 leaves a manager made for 60 pacing to 1/60 s. */
  method RateChangeIgnored() returns (before: real, after: real)
    ensures before == after == 1.0 / 60.0
  {
    var made := FpsManager.New(60);
    var m := made.value;
    before := m.targetDuration;
    m.SetTargetFrameRate(30);
    after := m.targetDuration;
  }

  /** At 50 frames per second, a frame that sleeps leaves the next one unpaced: called a
      millisecond after the sleep, it sleeps nothing. */
  method FrameAfterSleepUnpaced() returns (first: real, second: real)
    ensures first == 0.01 && second == 0.0
  {
    var made := FpsManager.New(50);
    var m := made.value;
    var _ := m.Delay(0.0, 0.0);
    first := m.Delay(0.01, 0.02);
    second := m.Delay(0.021, 0.021);
  }

  /** The system `FpsManager` in the same situation sleeps the frame's remaining 19 ms. */
  method FrameAfterSleepPaced() returns (first: real, second: real)
    ensures first == 0.01 && second == 0.019
  {
    var made := Fps.FpsManager.New(50);
    var m := made.value;
    var _ := m.Delay(0.0, 0.0);
    first := m.Delay(0.01, 0.02);
    second := m.Delay(0.021, 0.021);
  }
}
