# Character animation core, modelled in Dafny

A model of the sequential logic behind a small Android app that animates a 2D
avatar from two emotion values, valence and arousal. It covers four pieces:

- **Emotion state** (`EmotionData`). Two clamped scalars, their defaults, `parseJson` and `toJson`.
- **Animation clock and pose** (`CharacterRenderer`). The `update` blink state machine, the loading of the ten part bitmaps, and the per-part values `draw` computes.
- **Asset cache** (`AssetLoader`). A memoizing map from asset path to bitmap that also caches a placeholder for a failed decode.
- **View** (`CharacterView`). The tap-to-emotion mapping, the render loop's delta cap and sleep arithmetic, and the `resume`/`pause` thread-reference bookkeeping.

Numbers are exact `real`s. Integer arithmetic that matters is written out:
the JVM's truncating `Long` division, and `Long.toInt()` on the ARGB colour
literals. The app's collaborators are parameters of the operations that use them:

- `sin` (`kotlin.math.sin`) is a total function `real -> real`. Lemmas that need `sin(0) == 0` take it as a precondition.
- `decode` (opening, decoding and closing an asset stream) maps a path to an image size, a `null` result, or an exception. Assets in the package do not change, so a function is enough.
- `parse` (`org.json.JSONObject` and `optDouble`) maps a text to "rejected" or to an object with optional numbers.
- `show` (`Float.toString`) prints a number.
- The render loop's `System.nanoTime()` readings and canvas-lock outcomes arrive as a sequence of `Tick`s.

Files and modules: `wrappers.dfy` (`Wrappers`, Option), `numbers.dfy`
(`Numbers`), `emotion.dfy` (`Emotions`), `assets.dfy` (`Assets`),
`clock.dfy` (`AnimationClock`), `pose.dfy` (`Pose`), `renderer.dfy`
(`Renderer`), `pacing.dfy` (`FramePacing`), `view.dfy` (`View`).

Three points of the code's behaviour that the model keeps:

- **No head-group transform.** The renderer draws head, eyes and mouth with separate `drawBitmapFitWidth` calls. All of them get the same rotation value, and there is no parent transform or neck pivot. `Pose.TiltMovesNoPart` states the consequence: valence changes no part's anchor. Each part still turns about its own corner when drawn (see "## Left out"), so its visible centre does shift with the rotation.
- **Rejected JSON.** When the JSON text is rejected, `parseJson` keeps the previous values; it does not reset them to the defaults.
- **Missing fields.** A field that is missing from an accepted object is set to its default. It does not keep its earlier value.

## Model

| member | source | states |
|---|---|---|
| `Numbers.Clamp` | app/src/main/java/com/example/characteranimation/EmotionData.kt:10 | `coerceIn`: the result lies in [lo, hi], equals x when x is already inside, and otherwise is the bound x passed |
| `Numbers.ClampIdempotent` | app/src/main/java/com/example/characteranimation/EmotionData.kt:9-16 | clamping an already clamped value changes nothing |
| `Numbers.Min` | app/src/main/java/com/example/characteranimation/CharacterRenderer.kt:72 | `coerceAtMost`: the result is at most both arguments and equal to one of them |
| `Numbers.Max` | app/src/main/java/com/example/characteranimation/CharacterRenderer.kt:129 | `coerceAtLeast`: the result is at least both arguments and equal to one of them |
| `Numbers.TruncDiv` | app/src/main/java/com/example/characteranimation/CharacterView.kt:111 | JVM `Long` division: the remainder is in [0, b) for a non-negative dividend and in (-b, 0] for a negative one |
| `Numbers.ToInt32` | app/src/main/java/com/example/characteranimation/CharacterRenderer.kt:39-48 | `Long.toInt()` gives a signed 32-bit value congruent to the input modulo 2^32 |
| `Emotions.ClampValence` | app/src/main/java/com/example/characteranimation/EmotionData.kt:8-11 | the valence setter stores a value in [-1, 1]: in-range values unchanged, others the nearer bound |
| `Emotions.ClampArousal` | app/src/main/java/com/example/characteranimation/EmotionData.kt:13-16 | the arousal setter stores a value in [0, 1]: in-range values unchanged, others the nearer bound |
| `Emotions.RewriteIsNoOp` | app/src/main/java/com/example/characteranimation/EmotionData.kt:9-16 | writing a stored value back through either setter changes nothing |
| `Emotions.Parsed` | app/src/main/java/com/example/characteranimation/EmotionData.kt:18-26 | a rejected text leaves the state as it was; an accepted object gives an in-range state whose fields are `ClampValence` / `ClampArousal` of the numbers read (a number outside the range becomes the nearer bound, one inside is kept), or 0.3 / 0.5 for a missing field |
| `Emotions.ParsedObjectForgetsPrevious` | app/src/main/java/com/example/characteranimation/EmotionData.kt:20-22 | an accepted object overwrites both fields, so the earlier state does not influence the result |
| `Emotions.ParseExamples` | app/src/main/java/com/example/characteranimation/EmotionData.kt:19-25 | `{"valence":-2,"arousal":0.7}` gives (-1, 0.7), `{}` gives (0.3, 0.5), rejected text keeps the state |
| `Emotions.SplitEmotionJson` | app/src/main/java/com/example/characteranimation/EmotionData.kt:28-30 | reading the two number texts out of a `toJson`-shaped text: any split it returns reassembles to exactly that text |
| `Emotions.EmotionJson` | app/src/main/java/com/example/characteranimation/EmotionData.kt:29 | the `toJson` template: the text starts with `{"valence":`, ends with `}`, and is exactly as long as the two printed numbers plus the fixed keys and braces |
| `Emotions.EmotionJsonRoundTrip` | app/src/main/java/com/example/characteranimation/EmotionData.kt:28-30 | splitting the `{"valence":V,"arousal":A}` text gives back exactly the two printed numbers |
| `Emotions.SaveThenLoad` | app/src/main/java/com/example/characteranimation/EmotionData.kt:18-30 | provided the JSON library reads the `toJson` text back as exactly the two stored numbers (a precondition), loading that text restores any in-range state, whatever the loader held before |
| `Emotions.EmotionData.constructor` | app/src/main/java/com/example/characteranimation/EmotionData.kt:8-13 | a fresh instance holds valence 0.3 and arousal 0.5 |
| `Emotions.EmotionData.SetValence` | app/src/main/java/com/example/characteranimation/EmotionData.kt:9-11 | stores the clamped valence, leaves arousal alone, keeps the range invariant |
| `Emotions.EmotionData.SetArousal` | app/src/main/java/com/example/characteranimation/EmotionData.kt:13-16 | stores the clamped arousal, leaves valence alone, keeps the range invariant |
| `Emotions.EmotionData.ParseJson` | app/src/main/java/com/example/characteranimation/EmotionData.kt:18-26 | the new state is `Parsed` of the old state and the library's reading; the invariant holds and nothing escapes |
| `Emotions.EmotionData.ToJson` | app/src/main/java/com/example/characteranimation/EmotionData.kt:28-30 | the text is `{"valence":V,"arousal":A}` from the current fields, shown by its inverse returning the two printed values |
| `Assets.AssetLoader.constructor` | app/src/main/java/com/example/characteranimation/AssetLoader.kt:11 | the cache starts empty |
| `Assets.AssetLoader.CreateFallbackBitmap` | app/src/main/java/com/example/characteranimation/AssetLoader.kt:39-43 | a fresh 100x100 image filled with the given colour |
| `Assets.AssetLoader.LoadBitmap` | app/src/main/java/com/example/characteranimation/AssetLoader.kt:13-37 | always returns an image; a cached one is returned without decoding; otherwise a fresh decoded image of the decoded size, or a 100x100 placeholder of `fallbackColor` on a null or an exception; only the entry for the path changes, it maps to the returned image, and no null is ever stored |
| `Assets.AssetLoader.GetBitmap` | app/src/main/java/com/example/characteranimation/AssetLoader.kt:45-47 | returns the cached entry or null, null exactly for a path never loaded, and modifies nothing |
| `AnimationClock.Step` | app/src/main/java/com/example/characteranimation/CharacterRenderer.kt:51-65 | `update(dt)` adds dt to elapsed time; reaching 3 s resets the timer to 0 and starts a blink that survives that update; below 3 s a blink continues only while the timer is at most 0.2; afterwards a blink implies timer <= 0.2; with dt >= 0 the invariant 0 <= timer < 3 is kept |
| `AnimationClock.StepsElapsed` | app/src/main/java/com/example/characteranimation/CharacterRenderer.kt:51-52 | over any run of updates, elapsed time grows by exactly the sum of the deltas |
| `AnimationClock.StepsKeepInv` | app/src/main/java/com/example/characteranimation/CharacterRenderer.kt:55-64 | with non-negative deltas the timer stays in [0, 3) and a blink implies timer <= 0.2 after every update |
| `AnimationClock.QuietRun` | app/src/main/java/com/example/characteranimation/CharacterRenderer.kt:55-59 | with the eyes open, updates that keep the timer below 3 s only advance it |
| `AnimationClock.HoldRun` | app/src/main/java/com/example/characteranimation/CharacterRenderer.kt:62-64 | during a blink, updates that keep the timer at or below 0.2 s keep the blink |
| `AnimationClock.BlinkCycle` | app/src/main/java/com/example/characteranimation/CharacterRenderer.kt:55-64 | from a fresh clock: open below 3 s; a blink with timer 0 once 3 s is reached; still blinking through 0.2 s more; open on the first update past 0.2 s |
| `AnimationClock.BlinkCycleExample` | app/src/main/java/com/example/characteranimation/CharacterRenderer.kt:55-64 | 3.0 s starts a blink, a further 0.19 s keeps it, a further 0.02 s ends it |
| `Pose.Pose.DrawOrder` | app/src/main/java/com/example/characteranimation/CharacterRenderer.kt:96-114 | the seven parts are drawn body first, head fourth, mouth last |
| `Pose.BaseScale` | app/src/main/java/com/example/characteranimation/CharacterRenderer.kt:72 | `baseScale` is min(width/500, height/700): at most both ratios and equal to one of them |
| `Pose.BodyOffsetY` | app/src/main/java/com/example/characteranimation/CharacterRenderer.kt:74-77 | the bounce `sin(t(2 + 2a)) * 10a`: zero at arousal 0, and within [-10a, 10a] whenever the sine value is in [-1, 1] |
| `Pose.ArmAngle` | app/src/main/java/com/example/characteranimation/CharacterRenderer.kt:79-82 | the arm swing `sin(t(1.5 + a)) * 15a`: zero at arousal 0, and within [-15a, 15a] whenever the sine value is in [-1, 1] |
| `Pose.HeadShake` | app/src/main/java/com/example/characteranimation/CharacterRenderer.kt:86 | the idle sway `sin(1.5t) * 3`: within [-3, 3] whenever the sine value is, and zero when the sine is zero; it does not depend on the emotion |
| `Pose.HeadRotation` | app/src/main/java/com/example/characteranimation/CharacterRenderer.kt:85-86 | the shared head rotation, tilt `10v` plus the sway: within [-13, 13] degrees for a valence in range, and exactly the tilt when the sway's sine is zero |
| `Pose.MouthIsOpen` | app/src/main/java/com/example/characteranimation/CharacterRenderer.kt:113 | the mouth opens only strictly above arousal 0.6: closed at 0.6 and below, open from 0.61 up |
| `Pose.Solve` | app/src/main/java/com/example/characteranimation/CharacterRenderer.kt:67-115 | closed eye sprites iff blinking; open mouth iff arousal > 0.6; body unrotated; right arm angle the negation of the left; head, eyes and mouth share the one rotation valence*10 + shake; all parts bounce by the same offset; display widths are 260, 220, 170, 60 and 90 times `BaseScale`, and the arms and eyes sit 190 and 76 times `BaseScale` apart; the anchors are mirror-symmetric about the centre line |
| `Pose.TiltMovesNoPart` | app/src/main/java/com/example/characteranimation/CharacterRenderer.kt:97-114 | valence changes no part's anchor (the `x`, `y` passed to `drawBitmapFitWidth`): there is no head frame or neck pivot |
| `Pose.AtRest` | app/src/main/java/com/example/characteranimation/CharacterRenderer.kt:77-86 | when sin(0) = 0, at elapsed time 0 both arm angles are 0, the body does not bounce, and the head rotation is the tilt alone |
| `Pose.FullEmotionAtRest` | app/src/main/java/com/example/characteranimation/CharacterRenderer.kt:84-86 | valence 1, arousal 1 at time 0: head rotation 10 degrees, arm angle 0 |
| `Pose.MouthThreshold` | app/src/main/java/com/example/characteranimation/CharacterRenderer.kt:113 | arousal 0.6 gives the closed mouth, 0.61 the open one |
| `Pose.FitScale` | app/src/main/java/com/example/characteranimation/CharacterRenderer.kt:129-130 | the scale makes a bitmap at least 1 px wide exactly `targetW` wide; a width below 1 is treated as 1, so it is always defined |
| `Renderer.PathsDistinct` | app/src/main/java/com/example/characteranimation/CharacterRenderer.kt:39-48 | the ten parts use ten different asset paths |
| `Renderer.PathOf` | app/src/main/java/com/example/characteranimation/CharacterRenderer.kt:39-48 | each part's asset path, as `loadAssets` passes it, lies under `model/` and ends in `.png` |
| `Renderer.FallbackColor` | app/src/main/java/com/example/characteranimation/CharacterRenderer.kt:39-48 | each part's placeholder colour after `toInt()` is fully opaque: alpha byte 0xFF, hence negative as a signed 32-bit value |
| `Renderer.FallbackColorValues` | app/src/main/java/com/example/characteranimation/CharacterRenderer.kt:39-48 | the narrowed literals are -7638187 (body), -9300 (head), -3308225 (both arms), -16777216 (all four eyes) and -38037 (both mouths): paired parts share one colour |
| `Renderer.FitWidth` | app/src/main/java/com/example/characteranimation/CharacterRenderer.kt:121-132 | the `drawBitmap` call keeps the placement's anchor (the drawn centre at rotation 0) and rotation, its scale is `FitScale` of the target width and the bitmap width, and so a bitmap at least 1 px wide is drawn exactly the target width |
| `Renderer.LoadPart` | app/src/main/java/com/example/characteranimation/CharacterRenderer.kt:39-48 | one `loadBitmap` call of `loadAssets` with the part's path and its `FallbackColor`: the handle is recorded under the path, earlier parts keep theirs, paths of parts not loaded yet and every path outside the ten parts keep their entry or absence; the handle is the entry the starting cache held for the path, or else a decoded image of the decoded size with no fill, or a 100x100 placeholder filled with the part's colour |
| `Renderer.CharacterRenderer.constructor` | app/src/main/java/com/example/characteranimation/CharacterRenderer.kt:9-49 | the clock starts at (0, 0, not blinking); every part field holds exactly the handle the cache keeps for that part's path; for each of the ten fields by name, a part whose path was cached beforehand is that cached handle and any other part is the decoded image of its asset or, when decoding gave `null` or threw, the 100x100 placeholder filled with the part's own ARGB colour (`FallbackColor`); every path outside the ten keeps its entry or absence |
| `Renderer.CharacterRenderer.Update` | app/src/main/java/com/example/characteranimation/CharacterRenderer.kt:51-65 | the field-by-field update produces the clock `Step` describes |
| `Renderer.CharacterRenderer.Draw` | app/src/main/java/com/example/characteranimation/CharacterRenderer.kt:67-115 | seven draw calls in pose order, each with the bitmap of the sprite the pose selects and that pose entry fitted to the bitmap's width |
| `FramePacing.FrameBudget` | app/src/main/java/com/example/characteranimation/CharacterView.kt:98-99 | the frame budget is 16 666 666 ns |
| `FramePacing.DeltaSeconds` | app/src/main/java/com/example/characteranimation/CharacterView.kt:103 | the delta is the reading difference in seconds, non-negative on a clock that does not go back |
| `FramePacing.SafeDelta` | app/src/main/java/com/example/characteranimation/CharacterView.kt:106 | the delta given to `drawFrame` is never more than 0.1 s and is unchanged when already within it |
| `FramePacing.SleepTime` | app/src/main/java/com/example/characteranimation/CharacterView.kt:110-112 | the sleep is positive iff the frame took at most 15 666 666 ns; it is at most 16 ms; an overrun frame gets none; otherwise it is the whole milliseconds left in the budget |
| `FramePacing.OverrunTruncatesToZero` | app/src/main/java/com/example/characteranimation/CharacterView.kt:110-112 | a 1 ns overrun truncates to 0 ms, where Euclidean division would give -1 |
| `FramePacing.UpdateDeltasBounded` | app/src/main/java/com/example/characteranimation/CharacterView.kt:101-108 | every delta the loop hands to the clock is at most 0.1 s, and not negative on a monotone clock |
| `FramePacing.SleepPlanBounded` | app/src/main/java/com/example/characteranimation/CharacterView.kt:110-118 | every sleep the loop performs is positive and, on a monotone clock, at most 16 ms |
| `FramePacing.LoopKeepsClockInv` | app/src/main/java/com/example/characteranimation/CharacterView.kt:101-108 | driven by the loop on a monotone clock, the animation clock keeps its timer and blink invariant for ever |
| `View.Tapped` | app/src/main/java/com/example/characteranimation/CharacterView.kt:66-82 | left half: valence moves to max(v - 0.1, -1); right half: min(v + 0.1, 1); top half: arousal to min(a + 0.1, 1); bottom half: max(a - 0.1, 0); the result is always in range |
| `View.TopLeftTapsSaturate` | app/src/main/java/com/example/characteranimation/CharacterView.kt:72-82 | n taps in the top-left quadrant move valence to max(v - 0.1n, -1) and arousal to min(a + 0.1n, 1) |
| `View.RenderThread.constructor` | app/src/main/java/com/example/characteranimation/CharacterView.kt:90-92 | a new thread is neither running nor started nor interrupted |
| `View.RenderThread.Start` | app/src/main/java/com/example/characteranimation/CharacterView.kt:56 | the thread is marked started; `isRunning` stays as it was until the body runs |
| `View.RenderThread.StopRendering` | app/src/main/java/com/example/characteranimation/CharacterView.kt:122-130 | clears `isRunning` and interrupts the thread |
| `View.RenderThread.Run` | app/src/main/java/com/example/characteranimation/CharacterView.kt:95-120 | after the loop's passes the renderer's clock is the run of `update`s over the capped deltas of the passes that locked a canvas, and the sleeps are exactly the positive `sleepTime`s |
| `View.CharacterView.constructor` | app/src/main/java/com/example/characteranimation/CharacterView.kt:16-37 | no thread; fresh emotion, loader and renderer sharing the emotion; the emotion is the defaults, or the defaults passed through `parseJson` when `model/emotion.json` could be read; the loader's cache holds exactly the ten part paths, so `getBitmap` of any other path is null; each part is its decoded image or its coloured placeholder |
| `View.CharacterView.Resume` | app/src/main/java/com/example/characteranimation/CharacterView.kt:53-58 | a new, started thread when the reference is null or its thread is not running; otherwise the reference is kept |
| `View.CharacterView.Pause` | app/src/main/java/com/example/characteranimation/CharacterView.kt:60-63 | the old thread, if any, is stopped and its `started` flag is unchanged, and the reference is null afterwards, so a second call does nothing more |
| `View.CharacterView.OnTouchEvent` | app/src/main/java/com/example/characteranimation/CharacterView.kt:65-88 | a down event applies `Tapped` and returns true; any other event leaves the emotion unchanged and returns the superclass's answer |

## Left out

- Emotions.SaveThenLoad: the JSON library's reading of the `toJson` text is a precondition, not a proof; `Float.toString` and `org.json` are not part of this model, so the round trip is proved for the text format and the clamps, given that reading.
- MainActivity.kt is not part of this model. It only wires the activity lifecycle to `resume` and `pause`.
- Thread mechanics are not modelled: the thread scheduler, `interrupt`, `join(1000)`, the cross-thread `isRunning` flag and `synchronized(holder)`. `resume` and `pause` are modelled as single-threaded updates of the thread reference.
- Because `isRunning` is set only when the thread body starts, two `resume` calls before the body runs create two threads. In the model, `Resume` called twice in a row starts two threads too. What those threads then do concurrently is not modelled.
- An interrupted sleep makes the loop stop. In the model, the loop stops when its sequence of passes ends.
- Canvas and surface I/O are not modelled: `lockCanvas`, `unlockCanvasAndPost`, `drawColor`, the debug text, string resources, and the `Matrix` operations of `drawBitmap` (CharacterRenderer.kt:134-143). The model stops at the arguments `drawBitmap` receives.
- `drawBitmap` rotates each bitmap about its own scaled top-left corner (`postRotate` with no pivot) and only then shifts it by half its scaled size. So a part's `x`, `y` is its drawn centre only at rotation 0, and at another rotation the visible centre is displaced by the rotated half-size. The model does not compute drawn positions, so it does not capture this displacement. For example, a square eye drawn 60 px wide and rotated 10 degrees has its visible centre shifted by about 7 px.
- View.RenderThread.Run: it advances the clock for each pass that locked a canvas, but it does not call `Draw`. `Draw` is modelled on its own.
- Floating point is not modelled: the `Float` rounding of repeated `0.1f` steps, `toFloat()` on parsed doubles, and NaN inputs to `coerceIn`. All numbers are exact reals.
- `sin`, bitmap decoding, JSON parsing and `Float.toString` are parameters, not definitions. The reading of `model/emotion.json` is reduced to "text or read failure".
- Logging is not modelled.
- The view's `width` and `height` come from Android layout. The model starts them at 0, the value before layout, and nothing in the model changes them.
- The renderer's `lateinit var` bitmap fields are `const` in the model. The source assigns them only once, in `loadAssets`.
