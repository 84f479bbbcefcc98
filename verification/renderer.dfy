/**
 * `CharacterRenderer`: owns the animation clock, the ten part bitmaps it
 * loads once through the `AssetLoader`, and turns the clock and the shared
 * `EmotionData` into the draw calls of one frame.
 */
module Renderer {
  import opened Wrappers
  import opened Numbers
  import opened Emotions
  import opened Assets
  import opened AnimationClock
  import opened Pose

  /** The asset path of each sprite, as `loadAssets` names it. */
  function PathOf(s: Sprite): (p: string)
    ensures |p| > 10 && p[..6] == "model/" && p[|p| - 4..] == ".png"
  {
    match s
    case Body => "model/body.png"
    case Head => "model/head.png"
    case ArmLeft => "model/arm.left.png"
    case ArmRight => "model/arm.right.png"
    case EyeLeftOpen => "model/eye.left.open.png"
    case EyeLeftClosed => "model/eye.left.closed.png"
    case EyeRightOpen => "model/eye.right.open.png"
    case EyeRightClosed => "model/eye.right.closed.png"
    case MouthOpen => "model/mouth.open.png"
    case MouthClosed => "model/mouth.closed.png"
  }

  /**
   * The placeholder colour of each sprite: an ARGB literal narrowed with
   * `toInt()`. Every one is fully opaque: its alpha byte is 0xFF, which after
   * the signed narrowing makes it negative.
   */
  function FallbackColor(s: Sprite): (c: int)
    ensures c < 0 && (c + TwoTo32) / 0x100_0000 == 0xFF
  {
    match s
    case Body => ToInt32(0xFF8B7355)
    case Head => ToInt32(0xFFFFDBAC)
    case ArmLeft | ArmRight => ToInt32(0xFFCD853F)
    case EyeLeftOpen | EyeLeftClosed | EyeRightOpen | EyeRightClosed => ToInt32(0xFF000000)
    case MouthOpen | MouthClosed => ToInt32(0xFFFF6B6B)
  }

  /** The placeholder colours as the JVM prints the narrowed literals; paired parts share one. */
  lemma FallbackColorValues()
    ensures FallbackColor(Body) == -7638187 && FallbackColor(Head) == -9300
    ensures FallbackColor(ArmLeft) == FallbackColor(ArmRight) == -3308225
    ensures FallbackColor(EyeLeftOpen) == FallbackColor(EyeLeftClosed) == -16777216
    ensures FallbackColor(EyeRightOpen) == FallbackColor(EyeRightClosed) == -16777216
    ensures FallbackColor(MouthOpen) == FallbackColor(MouthClosed) == -38037
  {
  }

  /** No two sprites share an asset path, so each gets its own cache entry. */
  lemma PathsDistinct(s1: Sprite, s2: Sprite)
    ensures s1 != s2 ==> PathOf(s1) != PathOf(s2)
  {
  }

  /** What `drawBitmap` receives: bitmap, anchor (the drawn centre at rotation 0), uniform scale and rotation. */
  datatype DrawCommand = DrawCommand(bitmap: Bitmap, x: real, y: real, scale: real, rotation: real)

  /** `drawBitmapFitWidth`: the placement drawn with the bitmap scaled to its display width. */
  function FitWidth(bitmap: Bitmap, p: Placement): (c: DrawCommand)
    ensures c.bitmap == bitmap && c.x == p.x && c.y == p.y && c.rotation == p.rotation
    ensures c.scale == FitScale(p.targetW, bitmap.width)
    ensures bitmap.width >= 1 ==> c.scale * bitmap.width as real == p.targetW
  {
    DrawCommand(bitmap, p.x, p.y, FitScale(p.targetW, bitmap.width), p.rotation)
  }

  /**
   * What a first load of `s` yields: the decoded size and no fill, or the
   * 100x100 placeholder erased to the sprite's colour.
   */
  ghost predicate LoadedAs(b: Bitmap, s: Sprite, decode: string -> Decoded) {
    if decode(PathOf(s)).Image? then
      b.width == decode(PathOf(s)).width && b.height == decode(PathOf(s)).height && b.fill == None
    else
      b.width == FallbackSize && b.height == FallbackSize && b.fill == Some(FallbackColor(s))
  }

  /** The ten paths `loadAssets` loads. */
  function PartPaths(): set<string> {
    {PathOf(Body), PathOf(Head), PathOf(ArmLeft), PathOf(ArmRight), PathOf(EyeLeftOpen),
     PathOf(EyeLeftClosed), PathOf(EyeRightOpen), PathOf(EyeRightClosed), PathOf(MouthOpen), PathOf(MouthClosed)}
  }

  lemma PathInPartPaths(s: Sprite)
    ensures PathOf(s) in PartPaths()
  {
  }

  /**
   * The handle `loadAssets` leaves for `s`, over a cache that started as
   * `orig`: the entry `orig` already had for the path, or else a first load.
   */
  ghost predicate Supplied(orig: map<string, Bitmap?>, b: Bitmap, s: Sprite, decode: string -> Decoded) {
    (PathOf(s) in orig ==> b == orig[PathOf(s)]) &&
    (PathOf(s) !in orig ==> LoadedAs(b, s, decode))
  }

  /** Every path that is not a part path has the entry, or absence, it had in `orig`. */
  ghost predicate OthersKept(cache: map<string, Bitmap?>, orig: map<string, Bitmap?>) {
    forall p :: p !in PartPaths() ==> (p in cache <==> p in orig) && (p in orig ==> cache[p] == orig[p])
  }

  /** A cache that holds every part path and nothing else new holds, over an empty start, exactly the part paths. */
  lemma OnlyPartPaths(cache: map<string, Bitmap?>)
    requires forall s: Sprite :: PathOf(s) in cache
    requires OthersKept(cache, map[])
    ensures cache.Keys == PartPaths()
  {
    forall p | p in PartPaths()
      ensures p in cache
    {
      assert p == PathOf(Body) || p == PathOf(Head) || p == PathOf(ArmLeft) || p == PathOf(ArmRight) ||
        p == PathOf(EyeLeftOpen) || p == PathOf(EyeLeftClosed) || p == PathOf(EyeRightOpen) ||
        p == PathOf(EyeRightClosed) || p == PathOf(MouthOpen) || p == PathOf(MouthClosed);
    }
  }

  /**
   * Partway through `loadAssets`, with `got` the sprites loaded so far, over a
   * cache that started as `orig`: each loaded sprite's path maps to its handle,
   * which is the entry `orig` already had or else a first load; the path of a
   * sprite not yet loaded is as it was in `orig`.
   */
  ghost predicate Tracks(cache: map<string, Bitmap?>, orig: map<string, Bitmap?>,
                         got: map<Sprite, Bitmap>, decode: string -> Decoded) {
    forall s: Sprite :: TracksPart(cache, orig, got, decode, s)
  }

  /** `Tracks` for one sprite. */
  ghost predicate TracksPart(cache: map<string, Bitmap?>, orig: map<string, Bitmap?>,
                             got: map<Sprite, Bitmap>, decode: string -> Decoded, s: Sprite) {
    if s in got then
      PathOf(s) in cache && cache[PathOf(s)] == got[s] && Supplied(orig, got[s], s, decode)
    else
      (PathOf(s) in cache <==> PathOf(s) in orig) &&
      (PathOf(s) in orig ==> cache[PathOf(s)] == orig[PathOf(s)])
  }

  lemma TracksAt(cache: map<string, Bitmap?>, orig: map<string, Bitmap?>,
                 got: map<Sprite, Bitmap>, decode: string -> Decoded, s: Sprite)
    requires Tracks(cache, orig, got, decode) && s in got
    ensures PathOf(s) in cache && cache[PathOf(s)] == got[s]
    ensures Supplied(orig, got[s], s, decode)
  {
    assert TracksPart(cache, orig, got, decode, s);
  }

  /** Before the first load nothing is loaded and the cache is its starting self. */
  lemma TracksStart(cache: map<string, Bitmap?>, decode: string -> Decoded)
    ensures Tracks(cache, cache, map[], decode) && OthersKept(cache, cache)
  {
  }

  /**
   * One `loadBitmap` call of `loadAssets`: the sprite's path with its
   * placeholder colour. `Tracks` with `s` added says what comes back: the
   * entry the starting cache `orig` held for the path, or else a first load
   * of the decoded image or of the sprite's placeholder. No other path changes.
   */
  method LoadPart(loader: AssetLoader, s: Sprite, decode: string -> Decoded,
                  ghost orig: map<string, Bitmap?>, ghost got: map<Sprite, Bitmap>) returns (b: Bitmap)
    requires loader.Valid() && Tracks(loader.cache, orig, got, decode) && OthersKept(loader.cache, orig)
    modifies loader
    ensures loader.Valid() && Tracks(loader.cache, orig, got[s := b], decode) && OthersKept(loader.cache, orig)
  {
    ghost var before := loader.cache;
    b := loader.LoadBitmap(PathOf(s), FallbackColor(s), decode);
    ghost var now := got[s := b];
    forall t: Sprite
      ensures TracksPart(loader.cache, orig, now, decode, t)
    {
      assert TracksPart(before, orig, got, decode, t);
      PathsDistinct(s, t);
    }
    PathInPartPaths(s);
  }

  class CharacterRenderer {
    const emotionData: EmotionData
    const assetLoader: AssetLoader

    var elapsedTime: real
    var blinkTimer: real
    var isBlinking: bool

    const body: Bitmap
    const head: Bitmap
    const armLeft: Bitmap
    const armRight: Bitmap
    const eyeLeftOpen: Bitmap
    const eyeLeftClosed: Bitmap
    const eyeRightOpen: Bitmap
    const eyeRightClosed: Bitmap
    const mouthOpen: Bitmap
    const mouthClosed: Bitmap

    function ClockState(): Clock
      reads this
    {
      Clock(elapsedTime, blinkTimer, isBlinking)
    }

    /** The bitmap field that holds a sprite. */
    function SpriteBitmap(s: Sprite): Bitmap {
      match s
      case Body => body
      case Head => head
      case ArmLeft => armLeft
      case ArmRight => armRight
      case EyeLeftOpen => eyeLeftOpen
      case EyeLeftClosed => eyeLeftClosed
      case EyeRightOpen => eyeRightOpen
      case EyeRightClosed => eyeRightClosed
      case MouthOpen => mouthOpen
      case MouthClosed => mouthClosed
    }

    /** Every part, keyed by its sprite. */
    function Parts(): map<Sprite, Bitmap>
    {
      map[Body := body, Head := head, ArmLeft := armLeft, ArmRight := armRight, EyeLeftOpen := eyeLeftOpen, EyeLeftClosed := eyeLeftClosed, EyeRightOpen := eyeRightOpen, EyeRightClosed := eyeRightClosed, MouthOpen := mouthOpen, MouthClosed := mouthClosed]
    }

    /** `Supplied` for each part field by name. */
    ghost predicate FieldsSupplied(orig: map<string, Bitmap?>, decode: string -> Decoded) {
      Supplied(orig, body, Body, decode) && Supplied(orig, head, Head, decode) &&
      Supplied(orig, armLeft, ArmLeft, decode) && Supplied(orig, armRight, ArmRight, decode) &&
      Supplied(orig, eyeLeftOpen, EyeLeftOpen, decode) && Supplied(orig, eyeLeftClosed, EyeLeftClosed, decode) &&
      Supplied(orig, eyeRightOpen, EyeRightOpen, decode) && Supplied(orig, eyeRightClosed, EyeRightClosed, decode) &&
      Supplied(orig, mouthOpen, MouthOpen, decode) && Supplied(orig, mouthClosed, MouthClosed, decode)
    }

    lemma FieldsFromSprites(orig: map<string, Bitmap?>, decode: string -> Decoded)
      requires forall s: Sprite :: Supplied(orig, SpriteBitmap(s), s, decode)
      ensures FieldsSupplied(orig, decode)
    {
      assert Supplied(orig, SpriteBitmap(Body), Body, decode);
      assert Supplied(orig, SpriteBitmap(Head), Head, decode);
      assert Supplied(orig, SpriteBitmap(ArmLeft), ArmLeft, decode);
      assert Supplied(orig, SpriteBitmap(ArmRight), ArmRight, decode);
      assert Supplied(orig, SpriteBitmap(EyeLeftOpen), EyeLeftOpen, decode);
      assert Supplied(orig, SpriteBitmap(EyeLeftClosed), EyeLeftClosed, decode);
      assert Supplied(orig, SpriteBitmap(EyeRightOpen), EyeRightOpen, decode);
      assert Supplied(orig, SpriteBitmap(EyeRightClosed), EyeRightClosed, decode);
      assert Supplied(orig, SpriteBitmap(MouthOpen), MouthOpen, decode);
      assert Supplied(orig, SpriteBitmap(MouthClosed), MouthClosed, decode);
    }

    /** Every sprite has its part, and it is the one `SpriteBitmap` names. */
    lemma PartsCover(s: Sprite)
      ensures s in Parts() && Parts()[s] == SpriteBitmap(s)
    {
    }

    /**
     * Construction runs `loadAssets`: each sprite is loaded once, in the
     * source's order, and the renderer holds exactly the handle the cache
     * keeps for its path.
     */
    constructor(emotionData: EmotionData, assetLoader: AssetLoader, decode: string -> Decoded)
      requires assetLoader.Valid()
      modifies assetLoader
      ensures this.emotionData == emotionData && this.assetLoader == assetLoader
      ensures ClockState() == Start
      ensures assetLoader.Valid()
      ensures forall s: Sprite :: PathOf(s) in assetLoader.cache && assetLoader.cache[PathOf(s)] == SpriteBitmap(s)
      ensures forall s: Sprite :: Supplied(old(assetLoader.cache), SpriteBitmap(s), s, decode)
      ensures FieldsSupplied(old(assetLoader.cache), decode)
      ensures OthersKept(assetLoader.cache, old(assetLoader.cache))
    {
      this.emotionData := emotionData;
      this.assetLoader := assetLoader;
      elapsedTime := 0.0;
      blinkTimer := 0.0;
      isBlinking := false;
      ghost var orig := assetLoader.cache;
      ghost var got: map<Sprite, Bitmap> := map[];
      TracksStart(orig, decode);
      var b0 := LoadPart(assetLoader, Body, decode, orig, got);
      got := got[Body := b0];
      var b1 := LoadPart(assetLoader, Head, decode, orig, got);
      got := got[Head := b1];
      var b2 := LoadPart(assetLoader, ArmLeft, decode, orig, got);
      got := got[ArmLeft := b2];
      var b3 := LoadPart(assetLoader, ArmRight, decode, orig, got);
      got := got[ArmRight := b3];
      var b4 := LoadPart(assetLoader, EyeLeftOpen, decode, orig, got);
      got := got[EyeLeftOpen := b4];
      var b5 := LoadPart(assetLoader, EyeLeftClosed, decode, orig, got);
      got := got[EyeLeftClosed := b5];
      var b6 := LoadPart(assetLoader, EyeRightOpen, decode, orig, got);
      got := got[EyeRightOpen := b6];
      var b7 := LoadPart(assetLoader, EyeRightClosed, decode, orig, got);
      got := got[EyeRightClosed := b7];
      var b8 := LoadPart(assetLoader, MouthOpen, decode, orig, got);
      got := got[MouthOpen := b8];
      var b9 := LoadPart(assetLoader, MouthClosed, decode, orig, got);
      got := got[MouthClosed := b9];
      body, head, armLeft, armRight := b0, b1, b2, b3;
      eyeLeftOpen, eyeLeftClosed, eyeRightOpen, eyeRightClosed := b4, b5, b6, b7;
      mouthOpen, mouthClosed := b8, b9;
      new;
      assert got == Parts();
      forall s: Sprite
        ensures PathOf(s) in assetLoader.cache && assetLoader.cache[PathOf(s)] == SpriteBitmap(s)
        ensures Supplied(orig, SpriteBitmap(s), s, decode)
      {
        PartsCover(s);
        TracksAt(assetLoader.cache, orig, got, decode, s);
      }
      FieldsFromSprites(orig, decode);
    }

    /** `update`: advance the clock by `deltaTime`, step by step as the source does. */
    method Update(deltaTime: real)
      modifies this`elapsedTime, this`blinkTimer, this`isBlinking
      ensures ClockState() == Step(old(ClockState()), deltaTime)
    {
      elapsedTime := elapsedTime + deltaTime;

      blinkTimer := blinkTimer + deltaTime;
      if blinkTimer >= BlinkInterval {
        blinkTimer := 0.0;
        isBlinking := true;
      }

      if isBlinking && blinkTimer > BlinkDuration {
        isBlinking := false;
      }
    }

    /**
     * `draw`, without the canvas: the seven `drawBitmap` calls in order, each
     * with the bitmap loaded for the sprite the pose selects and the scale
     * that fits it to the part's display width.
     */
    method Draw(sin: real -> real, width: int, height: int) returns (cmds: seq<DrawCommand>)
      ensures var order := Solve(sin, elapsedTime, isBlinking, emotionData.valence, emotionData.arousal, width, height).DrawOrder();
        |cmds| == |order| &&
        forall k :: 0 <= k < |order| ==> cmds[k] == FitWidth(SpriteBitmap(order[k].sprite), order[k])
    {
      var p := Solve(sin, elapsedTime, isBlinking, emotionData.valence, emotionData.arousal, width, height);
      var eyeLeft := if isBlinking then eyeLeftClosed else eyeLeftOpen;
      var eyeRight := if isBlinking then eyeRightClosed else eyeRightOpen;
      var mouth := if MouthIsOpen(emotionData.arousal) then mouthOpen else mouthClosed;
      cmds := [
        FitWidth(body, p.body),
        FitWidth(armLeft, p.armLeft),
        FitWidth(armRight, p.armRight),
        FitWidth(head, p.head),
        FitWidth(eyeLeft, p.eyeLeft),
        FitWidth(eyeRight, p.eyeRight),
        FitWidth(mouth, p.mouth)
      ];
    }
  }
}
