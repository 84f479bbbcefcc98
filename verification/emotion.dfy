/**
 * The two emotion scalars of `EmotionData`: valence in [-1, 1] and arousal in
 * [0, 1]. Every write goes through a clamping setter; the state can be loaded
 * from a JSON object and written back as a fixed-format JSON text.
 */
module Emotions {
  import opened Numbers
  import opened Wrappers

  const DefaultValence: real := 0.3
  const DefaultArousal: real := 0.5

  /** A snapshot of the two fields of an `EmotionData`. */
  datatype Emotion = Emotion(valence: real, arousal: real)

  const Default: Emotion := Emotion(DefaultValence, DefaultArousal)

  /** The invariant the clamping setters keep. */
  predicate InRange(e: Emotion) {
    -1.0 <= e.valence <= 1.0 && 0.0 <= e.arousal <= 1.0
  }

  /** What the valence setter stores for a written value `v`. */
  function ClampValence(v: real): (r: real)
    ensures -1.0 <= r <= 1.0
    ensures -1.0 <= v <= 1.0 ==> r == v
    ensures v < -1.0 ==> r == -1.0
    ensures v > 1.0 ==> r == 1.0
  {
    Clamp(v, -1.0, 1.0)
  }

  /** What the arousal setter stores for a written value `a`. */
  function ClampArousal(a: real): (r: real)
    ensures 0.0 <= r <= 1.0
    ensures 0.0 <= a <= 1.0 ==> r == a
    ensures a < 0.0 ==> r == 0.0
    ensures a > 1.0 ==> r == 1.0
  {
    Clamp(a, 0.0, 1.0)
  }

  /** Writing back a value the setter stored leaves it unchanged. */
  lemma RewriteIsNoOp(v: real, a: real)
    ensures ClampValence(ClampValence(v)) == ClampValence(v)
    ensures ClampArousal(ClampArousal(a)) == ClampArousal(a)
  {
  }

  /**
   * What `org.json` makes of a text: either the constructor of `JSONObject`
   * rejects it, or it is an object whose `valence` and `arousal` entries are
   * numbers (`Some`) or are missing or not numeric (`None`, where `optDouble`
   * returns its fallback).
   */
  datatype JsonDoc = Rejected | Object(valence: Option<real>, arousal: Option<real>)

  /**
   * The state after `parseJson` on a text the library reads as `doc`, starting
   * from `e`. A rejected text throws before either field is assigned, and the
   * handler only logs, so the previous values stay.
   */
  function Parsed(e: Emotion, doc: JsonDoc): (r: Emotion)
    ensures doc.Rejected? ==> r == e
    ensures doc.Object? ==> InRange(r)
    ensures doc.Object? && doc.valence.None? ==> r.valence == DefaultValence
    ensures doc.Object? && doc.arousal.None? ==> r.arousal == DefaultArousal
    ensures doc.Object? && doc.valence.Some? && -1.0 <= doc.valence.value <= 1.0 ==> r.valence == doc.valence.value
    ensures doc.Object? && doc.arousal.Some? && 0.0 <= doc.arousal.value <= 1.0 ==> r.arousal == doc.arousal.value
    ensures doc.Object? && doc.valence.Some? ==> r.valence == ClampValence(doc.valence.value)
    ensures doc.Object? && doc.arousal.Some? ==> r.arousal == ClampArousal(doc.arousal.value)
  {
    match doc
    case Rejected => e
    case Object(v, a) => Emotion(ClampValence(v.GetOr(DefaultValence)), ClampArousal(a.GetOr(DefaultArousal)))
  }

  /** An accepted object overwrites both fields: the earlier state does not show through. */
  lemma ParsedObjectForgetsPrevious(e1: Emotion, e2: Emotion, doc: JsonDoc)
    requires doc.Object?
    ensures Parsed(e1, doc) == Parsed(e2, doc)
  {
  }

  /** A clamped number, an empty object and a rejected text, as the library reads them. */
  lemma ParseExamples(e: Emotion)
    ensures Parsed(e, Object(Some(-2.0), Some(0.7))) == Emotion(-1.0, 0.7)
    ensures Parsed(e, Object(None, None)) == Default
    ensures Parsed(e, Rejected) == e
  {
  }

  const ValenceKey: string := "{\"valence\":"
  const ArousalKey: string := ",\"arousal\":"

  /** The text `toJson` builds, given how Kotlin prints a number (`show`). */
  function EmotionJson(show: real -> string, v: real, a: real): (s: string)
    ensures |s| == |ValenceKey| + |show(v)| + |ArousalKey| + |show(a)| + 1
    ensures s[..|ValenceKey|] == ValenceKey && s[|s| - 1] == '}'
  {
    ValenceKey + show(v) + ArousalKey + show(a) + "}"
  }

  /** The position of the first `c` in `s`, or `|s|` when there is none. */
  function IndexOf(s: string, c: char): (i: nat)
    ensures i <= |s|
    ensures i < |s| ==> s[i] == c
    ensures forall j :: 0 <= j < i ==> s[j] != c
  {
    if s == [] then 0 else if s[0] == c then 0 else 1 + IndexOf(s[1..], c)
  }

  /**
   * Reads the two number texts back out of a text of the `toJson` shape: the
   * valence text runs up to the first comma.
   */
  function SplitEmotionJson(s: string): (r: Option<(string, string)>)
    ensures r.Some? ==> s == ValenceKey + r.value.0 + ArousalKey + r.value.1 + "}"
    ensures r.Some? ==> ',' !in r.value.0
  {
    if |s| < |ValenceKey| + 1 || s[..|ValenceKey|] != ValenceKey || s[|s| - 1] != '}' then None
    else
      var body := s[|ValenceKey|..|s| - 1];
      var i := IndexOf(body, ',');
      if i + |ArousalKey| <= |body| && body[i..i + |ArousalKey|] == ArousalKey then
        Reassemble(s, ValenceKey, ArousalKey, i);
        Some((body[..i], body[i + |ArousalKey|..]))
      else None
  }

  /** A text cut into a head `k1`, a middle holding `k2` at `i`, and a closing brace is their concatenation. */
  lemma Reassemble(s: string, k1: string, k2: string, i: nat)
    requires |k1| + 1 <= |s| && s[..|k1|] == k1 && s[|s| - 1] == '}'
    requires i + |k2| <= |s| - 1 - |k1| && s[|k1|..|s| - 1][i..i + |k2|] == k2
    ensures s == k1 + s[|k1|..|s| - 1][..i] + k2 + s[|k1|..|s| - 1][i + |k2|..] + "}"
  {
  }

  /** The first comma of `x + y` is the head of `y` when `x` has none. */
  lemma {:induction false} IndexOfAfterPrefix(x: string, y: string, c: char)
    requires c !in x && |y| > 0 && y[0] == c
    ensures IndexOf(x + y, c) == |x|
  {
    if x != [] {
      assert (x + y)[1..] == x[1..] + y;
      IndexOfAfterPrefix(x[1..], y, c);
    }
  }

  /** `toJson` followed by reading the texts back gives the two printed numbers. */
  lemma {:induction false} EmotionJsonRoundTrip(show: real -> string, v: real, a: real)
    requires ',' !in show(v)
    ensures SplitEmotionJson(EmotionJson(show, v, a)) == Some((show(v), show(a)))
  {
    var s := EmotionJson(show, v, a);
    var body := show(v) + ArousalKey + show(a);
    assert s == ValenceKey + body + "}";
    assert s[..|ValenceKey|] == ValenceKey;
    assert s[|ValenceKey|..|s| - 1] == body;
    IndexOfAfterPrefix(show(v), ArousalKey + show(a), ',');
    assert body == show(v) + (ArousalKey + show(a));
    assert body[..|show(v)|] == show(v);
    assert body[|show(v)|..|show(v)| + |ArousalKey|] == ArousalKey;
    assert body[|show(v)| + |ArousalKey|..] == show(a);
  }

  /**
   * Saving with `toJson` and loading with `parseJson` restores an in-range
   * state, whatever state the loader held, as long as the library reads the
   * printed numbers back as the stored ones.
   */
  lemma SaveThenLoad(e: Emotion, previous: Emotion, show: real -> string, parse: string -> JsonDoc)
    requires InRange(e)
    requires parse(EmotionJson(show, e.valence, e.arousal)) == Object(Some(e.valence), Some(e.arousal))
    ensures Parsed(previous, parse(EmotionJson(show, e.valence, e.arousal))) == e
  {
  }

  /** The mutable emotion holder shared by the view and the renderer. */
  class EmotionData {
    var valence: real
    var arousal: real

    ghost predicate Valid()
      reads this
    {
      InRange(State())
    }

    function State(): Emotion
      reads this
    {
      Emotion(valence, arousal)
    }

    constructor()
      ensures State() == Default
      ensures Valid()
    {
      valence := DefaultValence;
      arousal := DefaultArousal;
    }

    /** The valence setter. */
    method SetValence(v: real)
      requires Valid()
      modifies this`valence
      ensures Valid()
      ensures valence == ClampValence(v)
    {
      valence := ClampValence(v);
    }

    /** The arousal setter. */
    method SetArousal(a: real)
      requires Valid()
      modifies this`arousal
      ensures Valid()
      ensures arousal == ClampArousal(a)
    {
      arousal := ClampArousal(a);
    }

    /**
     * `parseJson`: `parse` stands for `JSONObject` and `optDouble`. Both
     * fields are assigned through their setters, valence first; a rejected
     * text leaves both untouched and nothing escapes.
     */
    method ParseJson(jsonString: string, parse: string -> JsonDoc)
      requires Valid()
      modifies this
      ensures Valid()
      ensures State() == Parsed(old(State()), parse(jsonString))
    {
      match parse(jsonString)
      case Rejected =>
      case Object(v, a) =>
        SetValence(v.GetOr(DefaultValence));
        SetArousal(a.GetOr(DefaultArousal));
    }

    /**
     * `toJson`, with `show` standing for Kotlin's `Float.toString`, which
     * never prints a comma.
     */
    function ToJson(show: real -> string): (r: string)
      reads this
      ensures ',' !in show(valence) ==> SplitEmotionJson(r) == Some((show(valence), show(arousal)))
    {
      if ',' !in show(valence) then EmotionJsonRoundTrip(show, valence, arousal); EmotionJson(show, valence, arousal)
      else EmotionJson(show, valence, arousal)
    }
  }
}
