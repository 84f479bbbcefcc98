/**
 * The animation clock of `CharacterRenderer`: elapsed time and the blink
 * state machine that `update` advances once per frame. A blink starts when
 * the timer reaches the 3 s interval, which resets the timer to 0, and ends on
 * the first update after which the same timer exceeds 0.2 s.
 */
module AnimationClock {

  const BlinkInterval: real := 3.0
  const BlinkDuration: real := 0.2

  /** The fields `elapsedTime`, `blinkTimer` and `isBlinking`. */
  datatype Clock = Clock(elapsed: real, timer: real, blinking: bool)

  /** The state a renderer starts in. */
  const Start: Clock := Clock(0.0, 0.0, false)

  /** The bounded-timer invariant: a blink only while the timer is inside the blink window. */
  predicate Inv(c: Clock) {
    0.0 <= c.timer < BlinkInterval && (c.blinking ==> c.timer <= BlinkDuration)
  }

  /** The clock after `update(dt)`. */
  function Step(c: Clock, dt: real): (r: Clock)
    ensures r.elapsed == c.elapsed + dt
    ensures c.timer + dt >= BlinkInterval ==> r.timer == 0.0 && r.blinking
    ensures c.timer + dt < BlinkInterval ==> r.timer == c.timer + dt
    ensures c.timer + dt < BlinkInterval && !c.blinking ==> !r.blinking
    ensures c.timer + dt < BlinkInterval && c.blinking ==> (r.blinking <==> c.timer + dt <= BlinkDuration)
    ensures r.blinking ==> r.timer <= BlinkDuration
    ensures Inv(c) && dt >= 0.0 ==> Inv(r)
  {
    var timer := c.timer + dt;
    var (timer', blinking') := if timer >= BlinkInterval then (0.0, true) else (timer, c.blinking);
    var blinking'' := if blinking' && timer' > BlinkDuration then false else blinking';
    Clock(c.elapsed + dt, timer', blinking'')
  }

  /** The clock after one `update` per delta, in order. */
  function Steps(c: Clock, dts: seq<real>): Clock
    decreases |dts|
  {
    if dts == [] then c else Steps(Step(c, dts[0]), dts[1..])
  }

  function Sum(dts: seq<real>): real {
    if dts == [] then 0.0 else dts[0] + Sum(dts[1..])
  }

  predicate NonNegative(dts: seq<real>) {
    forall i :: 0 <= i < |dts| ==> dts[i] >= 0.0
  }

  /** Elapsed time is the sum of the deltas. */
  lemma {:induction false} StepsElapsed(c: Clock, dts: seq<real>)
    ensures Steps(c, dts).elapsed == c.elapsed + Sum(dts)
    decreases |dts|
  {
    if dts != [] {
      StepsElapsed(Step(c, dts[0]), dts[1..]);
    }
  }

  /** With non-negative deltas the invariant holds after every update. */
  lemma {:induction false} StepsKeepInv(c: Clock, dts: seq<real>)
    requires Inv(c) && NonNegative(dts)
    ensures Inv(Steps(c, dts))
    decreases |dts|
  {
    if dts != [] {
      StepsKeepInv(Step(c, dts[0]), dts[1..]);
    }
  }

  /** Non-negative deltas that keep the timer short of the interval only move it forward. */
  lemma {:induction false} QuietRun(c: Clock, dts: seq<real>)
    requires NonNegative(dts) && c.timer + Sum(dts) < BlinkInterval
    requires !c.blinking
    ensures Steps(c, dts) == Clock(c.elapsed + Sum(dts), c.timer + Sum(dts), false)
    decreases |dts|
  {
    if dts != [] {
      SumNonNegative(dts[1..]);
      QuietRun(Step(c, dts[0]), dts[1..]);
    }
  }

  /** During a blink, non-negative deltas that stay within the window keep it. */
  lemma {:induction false} HoldRun(c: Clock, dts: seq<real>)
    requires NonNegative(dts) && c.timer + Sum(dts) <= BlinkDuration
    requires c.blinking
    ensures Steps(c, dts) == Clock(c.elapsed + Sum(dts), c.timer + Sum(dts), true)
    decreases |dts|
  {
    if dts != [] {
      SumNonNegative(dts[1..]);
      HoldRun(Step(c, dts[0]), dts[1..]);
    }
  }

  lemma {:induction false} SumNonNegative(dts: seq<real>)
    requires NonNegative(dts)
    ensures Sum(dts) >= 0.0
  {
    if dts != [] {
      SumNonNegative(dts[1..]);
    }
  }

  lemma {:induction false} StepsAppend(c: Clock, xs: seq<real>, ys: seq<real>)
    ensures Steps(c, xs + ys) == Steps(Steps(c, xs), ys)
    decreases |xs|
  {
    if xs == [] {
      assert xs + ys == ys;
    } else {
      assert (xs + ys)[1..] == xs[1..] + ys;
      StepsAppend(Step(c, xs[0]), xs[1..], ys);
    }
  }

  /**
   * The blink cycle from a fresh clock: deltas `before` that stay under 3 s
   * leave the eyes open; the delta `trigger` that reaches 3 s in total starts
   * a blink with the timer at 0; deltas `hold` adding up to at most 0.2 s keep
   * it; the next delta `release` that takes the timer past 0.2 s ends it.
   */
  lemma {:induction false} BlinkCycle(before: seq<real>, trigger: real, hold: seq<real>, release: real)
    requires NonNegative(before) && Sum(before) < BlinkInterval
    requires trigger >= 0.0 && Sum(before) + trigger >= BlinkInterval
    requires NonNegative(hold) && Sum(hold) <= BlinkDuration
    requires Sum(hold) + release > BlinkDuration && Sum(hold) + release < BlinkInterval
    ensures !Steps(Start, before).blinking
    ensures Steps(Start, before + [trigger]).blinking
    ensures Steps(Start, before + [trigger]).timer == 0.0
    ensures Steps(Start, before + [trigger] + hold).blinking
    ensures !Steps(Start, before + [trigger] + hold + [release]).blinking
  {
    QuietRun(Start, before);
    var open := Steps(Start, before);
    StepsAppend(Start, before, [trigger]);
    var triggered := Steps(Start, before + [trigger]);
    assert triggered == Step(open, trigger);
    HoldRun(triggered, hold);
    StepsAppend(Start, before + [trigger], hold);
    var held := Steps(Start, before + [trigger] + hold);
    StepsAppend(Start, before + [trigger] + hold, [release]);
    assert Steps(Start, before + [trigger] + hold + [release]) == Step(held, release);
  }

  /** A concrete cycle: 3.0 s, then 0.19 s, then 0.02 s more. */
  lemma BlinkCycleExample()
    ensures Steps(Start, [3.0]).blinking
    ensures Steps(Start, [3.0, 0.19]).blinking
    ensures !Steps(Start, [3.0, 0.19, 0.02]).blinking
  {
    BlinkCycle([], 3.0, [0.19], 0.02);
    assert [] + [3.0] == [3.0];
    assert [3.0] + [0.19] == [3.0, 0.19];
    assert [3.0, 0.19] + [0.02] == [3.0, 0.19, 0.02];
  }
}
