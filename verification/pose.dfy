/**
 * The pose arithmetic of `CharacterRenderer.draw`: where each part is drawn,
 * at what display width and rotation, and which eye and mouth sprites are
 * chosen. Each part is placed on its own; the head, the eyes and the mouth
 * receive the same rotation value, with no parent transform between them.
 * `sin` is a parameter, standing for `kotlin.math.sin`.
 */
module Pose {
  import opened Numbers

  datatype Sprite =
    | Body | Head | ArmLeft | ArmRight
    | EyeLeftOpen | EyeLeftClosed | EyeRightOpen | EyeRightClosed
    | MouthOpen | MouthClosed

  /**
   * The arguments of one `drawBitmapFitWidth` call: sprite, anchor, display
   * width, rotation in degrees. The anchor is the drawn centre only at
   * rotation 0, since `drawBitmap` turns the bitmap about its own scaled
   * top-left corner before shifting it.
   */
  datatype Placement = Placement(sprite: Sprite, x: real, y: real, targetW: real, rotation: real)

  /** The seven draw calls of one frame, named by part. */
  datatype Pose = Pose(
    body: Placement, armLeft: Placement, armRight: Placement, head: Placement,
    eyeLeft: Placement, eyeRight: Placement, mouth: Placement)
  {
    /** The order in which `draw` issues the calls, back to front. */
    function DrawOrder(): (r: seq<Placement>)
      ensures |r| == 7
      ensures r[0] == body && r[3] == head && r[6] == mouth
    {
      [body, armLeft, armRight, head, eyeLeft, eyeRight, mouth]
    }
  }

  /** The reference canvas the part sizes are laid out on. */
  const LayoutWidth: real := 500.0
  const LayoutHeight: real := 700.0

  /** `baseScale`: the largest scale at which the 500x700 reference canvas fits the surface. */
  function BaseScale(width: int, height: int): (s: real)
    ensures s <= width as real / LayoutWidth && s <= height as real / LayoutHeight
    ensures s == width as real / LayoutWidth || s == height as real / LayoutHeight
  {
    Min(width as real / LayoutWidth, height as real / LayoutHeight)
  }

  /** A sine value `x` scaled by `amplitude`: within the amplitude when `x` is in [-1, 1]. */
  function Swing(x: real, amplitude: real): (w: real)
    ensures amplitude == 0.0 ==> w == 0.0
    ensures 0.0 <= amplitude && -1.0 <= x <= 1.0 ==> -amplitude <= w <= amplitude
  {
    if 0.0 <= amplitude && -1.0 <= x <= 1.0 then
      MulNonNegative(1.0 - x, amplitude);
      MulNonNegative(1.0 + x, amplitude);
      x * amplitude
    else
      x * amplitude
  }

  lemma MulNonNegative(a: real, b: real)
    requires 0.0 <= a && 0.0 <= b
    ensures 0.0 <= a * b
  {
  }

  /** The vertical bounce shared by every part: amplitude `10a`, angular speed `2 + 2a`. */
  function BodyOffsetY(sin: real -> real, elapsed: real, arousal: real): (dy: real)
    ensures arousal == 0.0 ==> dy == 0.0
    ensures 0.0 <= arousal && -1.0 <= sin(elapsed * (2.0 + arousal * 2.0)) <= 1.0 ==>
      -10.0 * arousal <= dy <= 10.0 * arousal
  {
    Swing(sin(elapsed * (2.0 + arousal * 2.0)), 10.0 * arousal)
  }

  /** The arm swing angle: amplitude `15a`, angular speed `1.5 + a`. */
  function ArmAngle(sin: real -> real, elapsed: real, arousal: real): (angle: real)
    ensures arousal == 0.0 ==> angle == 0.0
    ensures 0.0 <= arousal && -1.0 <= sin(elapsed * (1.5 + arousal)) <= 1.0 ==>
      -15.0 * arousal <= angle <= 15.0 * arousal
  {
    Swing(sin(elapsed * (1.5 + arousal)), 15.0 * arousal)
  }

  /** The head idle sway, independent of the emotion. */
  function HeadShake(sin: real -> real, elapsed: real): (angle: real)
    ensures -1.0 <= sin(elapsed * 1.5) <= 1.0 ==> -3.0 <= angle <= 3.0
    ensures sin(elapsed * 1.5) == 0.0 ==> angle == 0.0
  {
    sin(elapsed * 1.5) * 3.0
  }

  /** The rotation shared by head, eyes and mouth: the valence tilt plus the sway. */
  function HeadRotation(sin: real -> real, elapsed: real, valence: real): (angle: real)
    ensures -1.0 <= valence <= 1.0 && -1.0 <= sin(elapsed * 1.5) <= 1.0 ==> -13.0 <= angle <= 13.0
    ensures sin(elapsed * 1.5) == 0.0 ==> angle == valence * 10.0
  {
    valence * 10.0 + HeadShake(sin, elapsed)
  }

  /** The open mouth is chosen only above 0.6 arousal, strictly. */
  predicate MouthIsOpen(arousal: real): (open: bool)
    ensures arousal <= 0.6 ==> !open
    ensures arousal >= 0.61 ==> open
  {
    arousal > 0.6
  }

  /** The pose `draw` computes from the clock, the emotion and the surface size. */
  function Solve(sin: real -> real, elapsed: real, blinking: bool, valence: real, arousal: real, width: int, height: int): (p: Pose)
    ensures p.body.sprite == Body && p.head.sprite == Head
    ensures p.armLeft.sprite == ArmLeft && p.armRight.sprite == ArmRight
    ensures p.eyeLeft.sprite == (if blinking then EyeLeftClosed else EyeLeftOpen)
    ensures p.eyeRight.sprite == (if blinking then EyeRightClosed else EyeRightOpen)
    ensures p.mouth.sprite == MouthOpen <==> arousal > 0.6
    ensures p.mouth.sprite == MouthOpen || p.mouth.sprite == MouthClosed
    ensures p.body.rotation == 0.0
    ensures p.armRight.rotation == -p.armLeft.rotation
    ensures p.head.rotation == p.eyeLeft.rotation == p.eyeRight.rotation == p.mouth.rotation
    ensures p.head.rotation == HeadRotation(sin, elapsed, valence)
    // every part bounces by the same offset
    ensures p.body.y - 120.0 == p.armLeft.y - 70.0 == p.armRight.y - 70.0 == p.head.y + 80.0
         == p.eyeLeft.y + 92.0 == p.eyeRight.y + 92.0 == p.mouth.y + 55.0
         == height as real / 2.0 + BodyOffsetY(sin, elapsed, arousal)
    // display widths and horizontal offsets are fixed multiples of the base scale
    ensures var b := BaseScale(width, height);
      p.body.targetW == 260.0 * b && p.head.targetW == 220.0 * b && p.armLeft.targetW == 170.0 * b &&
      p.eyeLeft.targetW == 60.0 * b && p.mouth.targetW == 90.0 * b &&
      p.armRight.x - p.armLeft.x == 190.0 * b && p.eyeRight.x - p.eyeLeft.x == 76.0 * b
    // the anchors are mirror-symmetric about the vertical centre line
    ensures p.body.x == p.head.x == p.mouth.x == width as real / 2.0
    ensures p.armLeft.x + p.armRight.x == width as real && p.eyeLeft.x + p.eyeRight.x == width as real
    ensures p.armLeft.targetW == p.armRight.targetW && p.eyeLeft.targetW == p.eyeRight.targetW
  {
    var centerX := width as real / 2.0;
    var centerY := height as real / 2.0;
    var baseScale := BaseScale(width, height);
    var bodyOffsetY := BodyOffsetY(sin, elapsed, arousal);
    var armAngle := ArmAngle(sin, elapsed, arousal);
    var headRotation := HeadRotation(sin, elapsed, valence);
    var bodyTargetW := 260.0 * baseScale;
    var headTargetW := 220.0 * baseScale;
    var armTargetW := 170.0 * baseScale;
    var eyeTargetW := 60.0 * baseScale;
    var mouthTargetW := 90.0 * baseScale;
    Pose(
      Placement(Body, centerX, centerY + 120.0 + bodyOffsetY, bodyTargetW, 0.0),
      Placement(ArmLeft, centerX - 95.0 * baseScale, centerY + 70.0 + bodyOffsetY, armTargetW, armAngle),
      Placement(ArmRight, centerX + 95.0 * baseScale, centerY + 70.0 + bodyOffsetY, armTargetW, -armAngle),
      Placement(Head, centerX, centerY - 80.0 + bodyOffsetY, headTargetW, headRotation),
      Placement(if blinking then EyeLeftClosed else EyeLeftOpen,
                centerX - 38.0 * baseScale, centerY - 92.0 + bodyOffsetY, eyeTargetW, headRotation),
      Placement(if blinking then EyeRightClosed else EyeRightOpen,
                centerX + 38.0 * baseScale, centerY - 92.0 + bodyOffsetY, eyeTargetW, headRotation),
      Placement(if MouthIsOpen(arousal) then MouthOpen else MouthClosed,
                centerX, centerY - 55.0 + bodyOffsetY, mouthTargetW, headRotation))
  }

  /**
   * Valence changes no part's anchor: eyes and mouth are anchored on their
   * own, not inside a rotated head frame, and there is no neck pivot.
   */
  lemma TiltMovesNoPart(sin: real -> real, elapsed: real, blinking: bool, v1: real, v2: real, arousal: real, width: int, height: int)
    ensures var p1, p2 := Solve(sin, elapsed, blinking, v1, arousal, width, height), Solve(sin, elapsed, blinking, v2, arousal, width, height);
      forall k :: 0 <= k < 7 ==>
        p1.DrawOrder()[k].x == p2.DrawOrder()[k].x && p1.DrawOrder()[k].y == p2.DrawOrder()[k].y
  {
  }

  /** At time 0 nothing sways: the arms hang straight, nothing bounces, the head shows only the tilt. */
  lemma AtRest(sin: real -> real, blinking: bool, valence: real, arousal: real, width: int, height: int)
    requires sin(0.0) == 0.0
    ensures var p := Solve(sin, 0.0, blinking, valence, arousal, width, height);
      p.armLeft.rotation == 0.0 && p.armRight.rotation == 0.0
      && p.head.rotation == valence * 10.0
      && p.body.y == height as real / 2.0 + 120.0
  {
  }

  /** Full valence and arousal at time 0 tilt the head by exactly 10 degrees and leave the arms at 0. */
  lemma FullEmotionAtRest(sin: real -> real, width: int, height: int)
    requires sin(0.0) == 0.0
    ensures Solve(sin, 0.0, false, 1.0, 1.0, width, height).head.rotation == 10.0
    ensures Solve(sin, 0.0, false, 1.0, 1.0, width, height).armLeft.rotation == 0.0
  {
    AtRest(sin, false, 1.0, 1.0, width, height);
  }

  /** The mouth threshold is exclusive: 0.6 keeps it closed, 0.61 opens it. */
  lemma MouthThreshold(sin: real -> real, elapsed: real, blinking: bool, valence: real, width: int, height: int)
    ensures Solve(sin, elapsed, blinking, valence, 0.6, width, height).mouth.sprite == MouthClosed
    ensures Solve(sin, elapsed, blinking, valence, 0.61, width, height).mouth.sprite == MouthOpen
  {
  }

  /**
   * `drawBitmapFitWidth`: the scale at which a bitmap `bitmapWidth` pixels wide
   * is drawn `targetW` wide. A width below 1 is taken as 1, so the division is
   * always defined.
   */
  function FitScale(targetW: real, bitmapWidth: int): (scale: real)
    ensures bitmapWidth >= 1 ==> scale * bitmapWidth as real == targetW
    ensures bitmapWidth < 1 ==> scale == targetW
  {
    targetW / Max(bitmapWidth as real, 1.0)
  }
}
