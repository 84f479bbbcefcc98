/**
 * `CharacterView`: owns the emotion state, the asset loader and the
 * renderer; maps taps to emotion changes; and keeps the reference to the
 * render thread, whose loop paces frames and advances the renderer's clock.
 * The thread is modelled as single-threaded bookkeeping: `start` only marks
 * the thread started, and `Run` stands for the thread body.
 */
module View {
  import opened Numbers
  import opened Wrappers
  import opened Emotions
  import opened Assets
  import opened AnimationClock
  import opened Renderer
  import opened FramePacing

  /** How far one tap moves valence or arousal. */
  const TapStep: real := 0.1

  /** `MotionEvent.ACTION_DOWN`, or any other action. */
  datatype TouchAction = Down | OtherAction

  /**
   * The emotion after a down event at (x, y) on a `width` x `height` view:
   * the left half lowers valence and the right half raises it; the top half
   * raises arousal and the bottom half lowers it. Each new value is clamped,
   * then stored through the clamping setter.
   */
  function Tapped(e: Emotion, x: real, y: real, width: int, height: int): (r: Emotion)
    ensures InRange(r)
    ensures InRange(e) && x < width as real / 2.0 ==> r.valence == Max(e.valence - TapStep, -1.0)
    ensures InRange(e) && x >= width as real / 2.0 ==> r.valence == Min(e.valence + TapStep, 1.0)
    ensures InRange(e) && y < height as real / 2.0 ==> r.arousal == Min(e.arousal + TapStep, 1.0)
    ensures InRange(e) && y >= height as real / 2.0 ==> r.arousal == Max(e.arousal - TapStep, 0.0)
  {
    var centerX := width as real / 2.0;
    var centerY := height as real / 2.0;
    var valence := if x < centerX then e.valence - TapStep else e.valence + TapStep;
    var arousal := if y < centerY then e.arousal + TapStep else e.arousal - TapStep;
    Emotion(ClampValence(Clamp(valence, -1.0, 1.0)), ClampArousal(Clamp(arousal, 0.0, 1.0)))
  }

  /** The emotion after the same tap repeated `n` times. */
  function TappedTimes(e: Emotion, x: real, y: real, width: int, height: int, n: nat): Emotion {
    if n == 0 then e else Tapped(TappedTimes(e, x, y, width, height, n - 1), x, y, width, height)
  }

  /**
   * Repeated taps in the top-left quadrant walk valence down and arousal up by
   * 0.1 per tap until they saturate at -1 and 1.
   */
  lemma {:induction false} TopLeftTapsSaturate(e: Emotion, x: real, y: real, width: int, height: int, n: nat)
    requires InRange(e) && x < width as real / 2.0 && y < height as real / 2.0
    ensures TappedTimes(e, x, y, width, height, n).valence == Max(e.valence - TapStep * n as real, -1.0)
    ensures TappedTimes(e, x, y, width, height, n).arousal == Min(e.arousal + TapStep * n as real, 1.0)
  {
    if n > 0 {
      TopLeftTapsSaturate(e, x, y, width, height, n - 1);
    }
  }

  /** The render thread: its running flag and the lifecycle marks the model keeps. */
  class RenderThread {
    var isRunning: bool
    var started: bool
    var interrupted: bool

    constructor()
      ensures !isRunning && !started && !interrupted
    {
      isRunning := false;
      started := false;
      interrupted := false;
    }

    /** `start()`: the thread is handed to the scheduler; its body sets `isRunning` once it runs. */
    method Start()
      modifies this`started
      ensures started
    {
      started := true;
    }

    /** `stopRendering()`: clear the flag and interrupt; the bounded `join` is not modelled. */
    method StopRendering()
      modifies this`isRunning, this`interrupted
      ensures !isRunning && interrupted
    {
      isRunning := false;
      interrupted := true;
    }

    /**
     * `run()` over the passes `ticks` that happen before the loop stops,
     * starting from the reading `startTime`. Each pass measures the delta,
     * caps it, lets `drawFrame` advance the clock when a canvas was locked,
     * then sleeps if the budget leaves a positive `sleepTime`.
     */
    method Run(renderer: CharacterRenderer, startTime: int, ticks: seq<Tick>) returns (sleeps: seq<int>)
      modifies this`isRunning, renderer`elapsedTime, renderer`blinkTimer, renderer`isBlinking
      ensures isRunning
      ensures renderer.ClockState() == Steps(old(renderer.ClockState()), UpdateDeltas(startTime, ticks))
      ensures sleeps == SleepPlan(ticks)
    {
      isRunning := true;
      var lastTime := startTime;
      sleeps := [];
      var i := 0;
      while i < |ticks|
        invariant 0 <= i <= |ticks|
        invariant isRunning
        invariant lastTime == LastTime(startTime, ticks[..i])
        invariant renderer.ClockState() == Steps(old(renderer.ClockState()), UpdateDeltas(startTime, ticks[..i]))
        invariant sleeps == SleepPlan(ticks[..i])
      {
        assert ticks[..i + 1][..i] == ticks[..i];
        var currentTime := ticks[i].now;
        var deltaTime := DeltaSeconds(currentTime, lastTime);
        lastTime := currentTime;
        var safeDeltaTime := SafeDelta(deltaTime);
        // drawFrame: the clock only moves when a canvas was locked
        ghost var done := UpdateDeltas(startTime, ticks[..i]);
        if ticks[i].canvas {
          StepsAppend(old(renderer.ClockState()), done, [safeDeltaTime]);
          renderer.Update(safeDeltaTime);
          assert UpdateDeltas(startTime, ticks[..i + 1]) == done + [safeDeltaTime];
        } else {
          assert UpdateDeltas(startTime, ticks[..i + 1]) == done + [];
          assert done + [] == done;
        }
        var frameTime := ticks[i].after - currentTime;
        var sleepTime := SleepTime(frameTime);
        if sleepTime > 0 {
          sleeps := sleeps + [sleepTime];
        }
        i := i + 1;
      }
      assert ticks[..|ticks|] == ticks;
    }
  }

  class CharacterView {
    var renderThread: RenderThread?
    const emotionData: EmotionData
    const assetLoader: AssetLoader
    const renderer: CharacterRenderer
    /** The view's size in pixels, set by layout. */
    var width: int
    var height: int

    ghost predicate Valid()
      reads this, emotionData
    {
      emotionData.Valid() && renderer.emotionData == emotionData
    }

    /**
     * Construction: fresh emotion state, loader and renderer (which loads the
     * ten parts), then `model/emotion.json` is applied when it could be read
     * (`emotionFile`); a read failure is logged and the defaults stay.
     */
    constructor(decode: string -> Decoded, emotionFile: Option<string>, parse: string -> JsonDoc)
      ensures Valid() && assetLoader.Valid()
      ensures renderThread == null
      ensures fresh(emotionData) && fresh(assetLoader) && fresh(renderer)
      ensures renderer.assetLoader == assetLoader
      ensures renderer.ClockState() == Start
      ensures emotionData.State() == if emotionFile.Some? then Parsed(Default, parse(emotionFile.value)) else Default
      ensures forall s :: PathOf(s) in assetLoader.cache && assetLoader.cache[PathOf(s)] == renderer.SpriteBitmap(s)
      ensures assetLoader.cache.Keys == PartPaths()
      ensures renderer.FieldsSupplied(map[], decode)
    {
      var e := new EmotionData();
      var loader := new AssetLoader();
      var r := new CharacterRenderer(e, loader, decode);
      OnlyPartPaths(loader.cache);
      if emotionFile.Some? {
        e.ParseJson(emotionFile.value, parse);
      }
      renderThread := null;
      emotionData := e;
      assetLoader := loader;
      renderer := r;
      width := 0;
      height := 0;
    }

    /** `resume()`: start a new thread unless the current one is running. */
    method Resume()
      modifies this`renderThread
      ensures old(renderThread) == null || !old(renderThread.isRunning) ==>
        renderThread != null && fresh(renderThread) && renderThread.started && !renderThread.isRunning
      ensures old(renderThread) != null && old(renderThread.isRunning) ==> renderThread == old(renderThread)
    {
      if renderThread == null || !renderThread.isRunning {
        var t := new RenderThread();
        renderThread := t;
        t.Start();
      }
    }

    /** `pause()`: stop the current thread, if any, and drop the reference. */
    method Pause()
      modifies this`renderThread, renderThread
      ensures renderThread == null
      ensures old(renderThread) != null ==> !old(renderThread).isRunning && old(renderThread).interrupted
      ensures old(renderThread) != null ==> old(renderThread).started == old(renderThread.started)
    {
      if renderThread != null {
        renderThread.StopRendering();
      }
      renderThread := null;
    }

    /**
     * `onTouchEvent`: a down event moves the emotion and is consumed; any other
     * event changes nothing and returns what the superclass returns
     * (`superResult`).
     */
    method OnTouchEvent(action: TouchAction, x: real, y: real, superResult: bool) returns (handled: bool)
      requires Valid()
      modifies emotionData
      ensures Valid()
      ensures action == Down ==> handled && emotionData.State() == Tapped(old(emotionData.State()), x, y, width, height)
      ensures action != Down ==> handled == superResult && emotionData.State() == old(emotionData.State())
    {
      if action == Down {
        var centerX := width as real / 2.0;
        var centerY := height as real / 2.0;
        if x < centerX {
          emotionData.SetValence(Clamp(emotionData.valence - TapStep, -1.0, 1.0));
        } else {
          emotionData.SetValence(Clamp(emotionData.valence + TapStep, -1.0, 1.0));
        }
        if y < centerY {
          emotionData.SetArousal(Clamp(emotionData.arousal + TapStep, 0.0, 1.0));
        } else {
          emotionData.SetArousal(Clamp(emotionData.arousal - TapStep, 0.0, 1.0));
        }
        return true;
      }
      return superResult;
    }
  }
}
