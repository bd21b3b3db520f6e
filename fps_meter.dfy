/** `FpsMeter` of src/engine/FpsMeter.js. `Date.now()` is passed in as the
    current time in milliseconds. */
module FpsMeter {
  /** Length of a measuring window, in milliseconds. */
  const Window: int := 1000

  /** The meter's counters as a value, for stating what a run of updates does. */
  datatype Reading = Reading(frameCount: nat, currentTime: int, previousTime: int, fps: nat)

  /** One `update()` at time `now`: count the frame, and close the window
      when at least a second has passed since it opened. */
  function Tick(m: Reading, now: int): (r: Reading)
    ensures r.currentTime == now
    ensures now - m.previousTime >= Window ==>
      r.fps == m.frameCount + 1 && r.frameCount == 0 && r.previousTime == now
    ensures now - m.previousTime < Window ==>
      r.fps == m.fps && r.frameCount == m.frameCount + 1 && r.previousTime == m.previousTime
  {
    var frames := m.frameCount + 1;
    if now - m.previousTime >= Window then Reading(0, now, now, frames)
    else Reading(frames, now, m.previousTime, m.fps)
  }

  /** Updates at the given times, in order. */
  function Ticks(m: Reading, times: seq<int>): Reading
    decreases |times|
  {
    if times == [] then m else Ticks(Tick(m, times[0]), times[1..])
  }

  /** Frames inside an open window are counted one by one and nothing else
      changes. */
  lemma {:induction false} CountWithinWindow(m: Reading, times: seq<int>)
    requires forall i :: 0 <= i < |times| ==> times[i] - m.previousTime < Window
    ensures Ticks(m, times).frameCount == m.frameCount + |times|
    ensures Ticks(m, times).previousTime == m.previousTime
    ensures Ticks(m, times).fps == m.fps
    decreases |times|
  {
    if times != [] {
      CountWithinWindow(Tick(m, times[0]), times[1..]);
    }
  }

  /** Starting from an empty count, `k` updates inside the window followed
      by one update at least a second after it opened report `k + 1` frames
      per second and open a new window. */
  lemma WindowReport(m: Reading, times: seq<int>, now: int)
    requires m.frameCount == 0
    requires forall i :: 0 <= i < |times| ==> times[i] - m.previousTime < Window
    requires now - m.previousTime >= Window
    ensures Ticks(m, times + [now]).fps == |times| + 1
    ensures Ticks(m, times + [now]).frameCount == 0
    ensures Ticks(m, times + [now]).previousTime == now
  {
    CountWithinWindow(m, times);
    TicksAppend(m, times, now);
  }

  lemma {:induction false} TicksAppend(m: Reading, times: seq<int>, now: int)
    ensures Ticks(m, times + [now]) == Tick(Ticks(m, times), now)
    decreases |times|
  {
    if times == [] {
      assert times + [now] == [now];
    } else {
      assert (times + [now])[1..] == times[1..] + [now];
      TicksAppend(Tick(m, times[0]), times[1..], now);
    }
  }

  class FpsMeter {
    var frameCount: nat
    const startTime: int
    var currentTime: int
    var previousTime: int
    var fps: nat

    function Snapshot(): Reading
      reads this
    {
      Reading(frameCount, currentTime, previousTime, fps)
    }

    constructor (now: int)
      ensures frameCount == 0 && fps == 0
      ensures startTime == now && currentTime == now && previousTime == now
    {
      frameCount := 0;
      startTime := now;
      currentTime := startTime;
      previousTime := startTime;
      fps := 0;
    }

    method Update(now: int)
      modifies this
      ensures Snapshot() == Tick(old(Snapshot()), now)
    {
      frameCount := frameCount + 1;
      currentTime := now;
      if currentTime - previousTime >= Window {
        fps := frameCount;
        frameCount := 0;
        previousTime := currentTime;
      }
    }

    method GetFps() returns (r: nat)
      ensures r == fps
    {
      r := fps;
    }
  }
}
