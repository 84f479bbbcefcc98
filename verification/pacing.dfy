/**
 * The arithmetic of the render loop in `CharacterView.RenderThread.run`:
 * the per-frame delta in seconds, its cap at 0.1 s, and the sleep that pads a
 * frame to the 1/60 s budget. Times are `System.nanoTime()` readings; the
 * budget and the sleep use JVM `Long` division, which truncates toward zero.
 */
module FramePacing {
  import opened Numbers
  import opened AnimationClock

  const NanosPerSecond: int := 1_000_000_000
  const NanosPerMilli: int := 1_000_000
  const TargetFps: int := 60
  /** `targetFrameTime`; both operands are positive, so truncation and Dafny's division agree. */
  const TargetFrameTime: int := NanosPerSecond / TargetFps
  /** The largest delta handed to a frame. */
  const MaxDelta: real := 0.1

  lemma FrameBudget()
    ensures TargetFrameTime == 16_666_666
  {
  }

  /** `deltaTime`: the nanoseconds between two readings, in seconds. */
  function DeltaSeconds(currentTime: int, lastTime: int): (d: real)
    ensures d * NanosPerSecond as real == (currentTime - lastTime) as real
    ensures currentTime >= lastTime ==> d >= 0.0
  {
    (currentTime - lastTime) as real / NanosPerSecond as real
  }

  /** `safeDeltaTime`: the delta capped at 0.1 s, so a stall cannot make the animation jump. */
  function SafeDelta(deltaTime: real): (d: real)
    ensures d <= MaxDelta
    ensures deltaTime <= MaxDelta ==> d == deltaTime
    ensures deltaTime > MaxDelta ==> d == MaxDelta
  {
    Min(deltaTime, MaxDelta)
  }

  /**
   * `sleepTime` in milliseconds for a frame that took `frameTime` ns. It is
   * positive exactly when at least a whole millisecond of the budget is left;
   * an overrun frame gets none.
   */
  function SleepTime(frameTime: int): (ms: int)
    ensures ms > 0 <==> frameTime <= TargetFrameTime - NanosPerMilli
    ensures frameTime >= 0 ==> ms <= 16
    ensures frameTime > TargetFrameTime ==> ms <= 0
    ensures frameTime <= TargetFrameTime ==> ms * NanosPerMilli <= TargetFrameTime - frameTime < (ms + 1) * NanosPerMilli
  {
    TruncDiv(TargetFrameTime - frameTime, NanosPerMilli)
  }

  /** A frame overrun by a single nanosecond sleeps 0 ms; Euclidean division would say -1. */
  lemma OverrunTruncatesToZero()
    ensures SleepTime(TargetFrameTime + 1) == 0
    ensures (TargetFrameTime - (TargetFrameTime + 1)) / NanosPerMilli == -1
  {
  }

  /**
   * One pass of the loop as the outside world sees it: the reading at the top
   * of the pass, whether a canvas could be locked (a `null` canvas or an
   * exception from `lockCanvas` means no update and no drawing), and the
   * reading after `drawFrame`.
   */
  datatype Tick = Tick(now: int, canvas: bool, after: int)

  /** `lastTime` once the passes `ticks` have run, starting from the reading `start`. */
  function LastTime(start: int, ticks: seq<Tick>): int {
    if ticks == [] then start else ticks[|ticks| - 1].now
  }

  /** The deltas that reach `renderer.update`, one per pass that locked a canvas. */
  function UpdateDeltas(start: int, ticks: seq<Tick>): seq<real>
    decreases |ticks|
  {
    if ticks == [] then []
    else
      var earlier := ticks[..|ticks| - 1];
      var t := ticks[|ticks| - 1];
      UpdateDeltas(start, earlier)
        + if t.canvas then [SafeDelta(DeltaSeconds(t.now, LastTime(start, earlier)))] else []
  }

  /** The sleeps the loop performs, in milliseconds, one per pass whose `sleepTime` is positive. */
  function SleepPlan(ticks: seq<Tick>): seq<int>
    decreases |ticks|
  {
    if ticks == [] then []
    else
      var t := ticks[|ticks| - 1];
      SleepPlan(ticks[..|ticks| - 1]) + if SleepTime(t.after - t.now) > 0 then [SleepTime(t.after - t.now)] else []
  }

  /** `System.nanoTime()` never goes backwards, and each pass ends after it starts. */
  predicate Monotone(start: int, ticks: seq<Tick>) {
    (|ticks| > 0 ==> start <= ticks[0].now)
    && (forall i :: 0 < i < |ticks| ==> ticks[i - 1].now <= ticks[i].now)
    && (forall i :: 0 <= i < |ticks| ==> ticks[i].now <= ticks[i].after)
  }

  /** One more pass appends at most one delta, the capped one for that pass. */
  lemma UpdateDeltasLast(start: int, ticks: seq<Tick>)
    requires ticks != []
    ensures var earlier, t := ticks[..|ticks| - 1], ticks[|ticks| - 1];
      UpdateDeltas(start, ticks) == UpdateDeltas(start, earlier)
        + if t.canvas then [SafeDelta(DeltaSeconds(t.now, LastTime(start, earlier)))] else []
  {
  }

  /** Every delta reaching the clock is at most 0.1 s, and not negative on a monotone clock. */
  lemma {:induction false} UpdateDeltasBounded(start: int, ticks: seq<Tick>)
    ensures forall i :: 0 <= i < |UpdateDeltas(start, ticks)| ==> UpdateDeltas(start, ticks)[i] <= MaxDelta
    ensures Monotone(start, ticks) ==> NonNegative(UpdateDeltas(start, ticks))
    decreases |ticks|
  {
    if ticks != [] {
      var earlier := ticks[..|ticks| - 1];
      var t := ticks[|ticks| - 1];
      UpdateDeltasBounded(start, earlier);
      UpdateDeltasLast(start, ticks);
      var last := if t.canvas then [SafeDelta(DeltaSeconds(t.now, LastTime(start, earlier)))] else [];
      assert forall i :: 0 <= i < |last| ==> last[i] <= MaxDelta;
      if Monotone(start, ticks) {
        assert Monotone(start, earlier);
        assert LastTime(start, earlier) <= t.now;
        assert forall i :: 0 <= i < |last| ==> last[i] >= 0.0;
      }
    }
  }

  /** Every sleep is positive and, on a monotone clock, at most 16 ms. */
  lemma {:induction false} SleepPlanBounded(start: int, ticks: seq<Tick>)
    ensures forall i :: 0 <= i < |SleepPlan(ticks)| ==> SleepPlan(ticks)[i] > 0
    ensures Monotone(start, ticks) ==> forall i :: 0 <= i < |SleepPlan(ticks)| ==> SleepPlan(ticks)[i] <= 16
    decreases |ticks|
  {
    if ticks != [] {
      var earlier := ticks[..|ticks| - 1];
      SleepPlanBounded(start, earlier);
      if Monotone(start, ticks) {
        assert Monotone(start, earlier);
      }
    }
  }

  /**
   * Driven by the render loop on a monotone clock, the animation clock keeps
   * its invariant forever: the timer stays in [0, 3) and a blink never
   * outlasts 0.2 s on the timer.
   */
  lemma LoopKeepsClockInv(c: Clock, start: int, ticks: seq<Tick>)
    requires Inv(c) && Monotone(start, ticks)
    ensures Inv(Steps(c, UpdateDeltas(start, ticks)))
  {
    UpdateDeltasBounded(start, ticks);
    StepsKeepInv(c, UpdateDeltas(start, ticks));
  }
}
