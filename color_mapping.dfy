/**
 * The emotion classifiers and the colour parser of app/utils/colorMapping.ts.
 * The source looks the chosen emotion up in a colour palette file that is not
 * part of this model, so the classifiers here return the emotion itself.
 */
module ColorMapping {
  import opened Types
  import opened ColorMap

  // ---- getEmotionFromDimensions ----

  /** The dominant emotion of a persona: the first rule that matches, else joy. */
  function GetEmotionFromDimensions(d: PersonaDimensions): Emotion {
    if d.emotionality > 0.6 then Anxiety
    else if d.extraversion < 0.4 && d.emotionality > 0.4 then Sadness
    else if d.warmth > 0.6 && d.extraversion > 0.6 then Joy
    else if d.warmth < 0.4 && d.confidence < 0.4 then Embarrassment
    else if d.conscientiousness > 0.7 && d.emotionality > 0.3 then Anxiety
    else if d.confidence < 0.3 && d.emotionality > 0.5 then Fear
    else if Abs(d.extraversion - 0.5) < 0.2 && Abs(d.warmth - 0.5) < 0.2 then Envy
    else Joy
  }

  /**
   * First match wins: each emotion is chosen exactly when one of its rules
   * holds and no earlier rule does; joy is also the default when none holds.
   */
  lemma DimensionRulesInOrder(d: PersonaDimensions)
    ensures var e := GetEmotionFromDimensions(d);
      var r1 := d.emotionality > 0.6;
      var r2 := d.extraversion < 0.4 && d.emotionality > 0.4;
      var r3 := d.warmth > 0.6 && d.extraversion > 0.6;
      var r4 := d.warmth < 0.4 && d.confidence < 0.4;
      var r5 := d.conscientiousness > 0.7 && d.emotionality > 0.3;
      var r6 := d.confidence < 0.3 && d.emotionality > 0.5;
      var r7 := Abs(d.extraversion - 0.5) < 0.2 && Abs(d.warmth - 0.5) < 0.2;
      && (e == Anxiety <==> r1 || (!r2 && !r3 && !r4 && r5))
      && (e == Sadness <==> !r1 && r2)
      && (e == Embarrassment <==> !r1 && !r2 && !r3 && r4)
      && (e == Fear <==> !r1 && !r2 && !r3 && !r4 && !r5 && r6)
      && (e == Envy <==> !r1 && !r2 && !r3 && !r4 && !r5 && !r6 && r7)
      && (e == Joy <==> (!r1 && !r2 && r3) || (!r1 && !r2 && !r3 && !r4 && !r5 && !r6 && !r7))
  {
  }

  /** High emotionality decides anxiety whatever the other traits are. */
  lemma EmotionalityWins(d: PersonaDimensions)
    ensures d.emotionality > 0.6 ==> GetEmotionFromDimensions(d) == Anxiety
  {
  }

  /** The persona classifier only ever picks one of six emotions: never anger, never neutral. */
  lemma DimensionEmotionRange(d: PersonaDimensions)
    ensures GetEmotionFromDimensions(d) in {Joy, Anxiety, Sadness, Embarrassment, Fear, Envy}
  {
  }

  /** Fear needs low confidence and emotionality above 0.5 but at most 0.6. */
  lemma FearBand(d: PersonaDimensions)
    ensures GetEmotionFromDimensions(d) == Fear ==> d.confidence < 0.3 && 0.5 < d.emotionality <= 0.6
  {
  }

  // ---- getEmotionFromPost ----

  /** The emotion of a post from its sentiment in [-1, 1] and intensity in [0, 1]; joy when no band matches. */
  function GetEmotionFromPost(sentiment: real, intensity: real): Emotion {
    if sentiment > 0.5 && intensity > 0.6 then Joy
    else if sentiment < -0.5 && intensity > 0.5 then Sadness
    else if sentiment < 0.0 && intensity > 0.7 then Anxiety
    else if sentiment > 0.0 && intensity < 0.4 then Embarrassment
    else if sentiment > 0.2 && sentiment < 0.6 then Envy
    else Joy
  }

  /** The five bands of getEmotionFromPost, in the order they are tried. */
  predicate JoyBand(s: real, i: real) { s > 0.5 && i > 0.6 }
  predicate SadnessBand(s: real, i: real) { s < -0.5 && i > 0.5 }
  predicate AnxietyBand(s: real, i: real) { s < 0.0 && i > 0.7 }
  predicate EmbarrassmentBand(s: real, i: real) { s > 0.0 && i < 0.4 }
  predicate EnvyBand(s: real) { s > 0.2 && s < 0.6 }

  /**
   * The bands of getEmotionFromPost, each with the earlier bands that take
   * precedence over it; joy is the first band or the fallback when none matches.
   */
  lemma PostBands(s: real, i: real)
    ensures s > 0.5 && i > 0.6 ==> GetEmotionFromPost(s, i) == Joy
    ensures s < -0.5 && i > 0.5 ==> GetEmotionFromPost(s, i) == Sadness
    ensures GetEmotionFromPost(s, i) == Sadness <==> s < -0.5 && i > 0.5
    ensures GetEmotionFromPost(s, i) == Anxiety <==> s < 0.0 && i > 0.7 && !(s < -0.5 && i > 0.5)
    ensures GetEmotionFromPost(s, i) == Embarrassment <==> s > 0.0 && i < 0.4 && !(s > 0.5 && i > 0.6)
    ensures GetEmotionFromPost(s, i) == Envy <==>
      !JoyBand(s, i) && !SadnessBand(s, i) && !AnxietyBand(s, i) && !EmbarrassmentBand(s, i) && EnvyBand(s)
    ensures GetEmotionFromPost(s, i) == Joy <==>
      JoyBand(s, i) || (!SadnessBand(s, i) && !AnxietyBand(s, i) && !EmbarrassmentBand(s, i) && !EnvyBand(s))
    ensures GetEmotionFromPost(s, i) in {Joy, Sadness, Anxiety, Embarrassment, Envy}
  {
  }

  /** A post with neutral sentiment and middling intensity matches no band and falls back to joy. */
  lemma PostDefaultJoy(i: real)
    ensures 0.4 <= i <= 0.7 ==> GetEmotionFromPost(0.0, i) == Joy
  {
  }

  /** Whatever the sentiment and intensity, a post that matches no band is joy. */
  lemma NoBandIsJoy(s: real, i: real)
    ensures !JoyBand(s, i) && !SadnessBand(s, i) && !AnxietyBand(s, i) && !EmbarrassmentBand(s, i) && !EnvyBand(s)
            ==> GetEmotionFromPost(s, i) == Joy
  {
  }

  // ---- blendEmotionColors ----

  /** One weighted entry of blendEmotionColors' argument. */
  datatype WeightedEmotion = WeightedEmotion(emotion: string, weight: real)

  /**
   * The index `emotions.reduce((prev, cur) => cur.weight > prev.weight ? cur : prev)`
   * ends on: the first entry of maximum weight.
   */
  function DominantIndex(emotions: seq<WeightedEmotion>): (k: nat)
    requires |emotions| >= 1
    ensures k < |emotions|
    ensures forall j :: 0 <= j < |emotions| ==> emotions[j].weight <= emotions[k].weight
    ensures forall j :: 0 <= j < k ==> emotions[j].weight < emotions[k].weight
  {
    if |emotions| == 1 then 0
    else
      var prev := DominantIndex(emotions[..|emotions| - 1]);
      var last := |emotions| - 1;
      assert forall j :: 0 <= j < last ==> emotions[..last][j] == emotions[j];
      if emotions[last].weight > emotions[prev].weight then last else prev
  }

  /** The name of the dominant emotion (the source then looks up its primary colour). */
  function BlendEmotionColors(emotions: seq<WeightedEmotion>): string
    requires |emotions| >= 1
  {
    emotions[DominantIndex(emotions)].emotion
  }

  /** Ties keep the earliest entry: equal weights never displace the current leader. */
  lemma BlendKeepsFirstOnTies(a: WeightedEmotion, b: WeightedEmotion)
    ensures a.weight >= b.weight ==> BlendEmotionColors([a, b]) == a.emotion
    ensures b.weight > a.weight ==> BlendEmotionColors([a, b]) == b.emotion
  {
    assert [a, b][..1] == [a];
  }

  // ---- hexToRgb ----

  /** A colour with components in [0, 1], as Three.js takes it. */
  datatype Rgb = Rgb(r: real, g: real, b: real)

  const White := Rgb(1.0, 1.0, 1.0)

  /** The value of a hex digit `[a-f\d]`, matched case-insensitively. */
  function HexDigit(c: char): (v: int)
    ensures -1 <= v < 16
  {
    if '0' <= c <= '9' then (c as int) - ('0' as int)
    else if 'a' <= c <= 'f' then (c as int) - ('a' as int) + 10
    else if 'A' <= c <= 'F' then (c as int) - ('A' as int) + 10
    else -1
  }

  /** Every character of `s` is a hex digit. */
  predicate AllHex(s: string) {
    forall k :: 0 <= k < |s| ==> HexDigit(s[k]) >= 0
  }

  /** `parseInt(pair, 16)` for a matched pair of hex digits. */
  function ByteOf(hi: char, lo: char): int {
    HexDigit(hi) * 16 + HexDigit(lo)
  }

  /** The six digits the pattern `^#?([a-f\d]{2}){3}$` captures, if it matches the whole string. */
  function HexBody(hex: string): (body: Wrappers.Option<string>)
    ensures body.Some? <==> (|hex| == 7 && hex[0] == '#' && AllHex(hex[1..])) || (|hex| == 6 && AllHex(hex))
    ensures body.Some? ==> |body.value| == 6 && AllHex(body.value)
    ensures body.Some? ==> body.value == hex[|hex| - 6..]
  {
    if |hex| == 7 && hex[0] == '#' && AllHex(hex[1..]) then Wrappers.Some(hex[1..])
    else if |hex| == 6 && AllHex(hex) then Wrappers.Some(hex)
    else Wrappers.None
  }

  /** Every EMOTION_COLORS entry is a `#rrggbb` string, so hexToRgb reads it rather than falling back to white. */
  lemma EmotionColorIsHex(e: Emotion)
    ensures AllHex(EmotionColor(e)[1..])
    ensures HexBody(EmotionColor(e)) == Wrappers.Some(EmotionColor(e)[1..])
  {
    var hex := EmotionColor(e);
    assert forall k :: 0 <= k < 6 ==> HexDigit(hex[1..][k]) >= 0;
  }

  /** `hexToRgb(hex)`: each captured pair divided by 255, or white when the pattern does not match. */
  function HexToRgb(hex: string): Rgb {
    match HexBody(hex)
    case None => White
    case Some(h) => Rgb(ByteOf(h[0], h[1]) as real / 255.0,
                        ByteOf(h[2], h[3]) as real / 255.0,
                        ByteOf(h[4], h[5]) as real / 255.0)
  }

  /** Whatever the input, each component of the result lies in [0, 1]. */
  lemma HexToRgbInUnitCube(hex: string)
    ensures 0.0 <= HexToRgb(hex).r <= 1.0
    ensures 0.0 <= HexToRgb(hex).g <= 1.0
    ensures 0.0 <= HexToRgb(hex).b <= 1.0
  {
  }

  /**
   * Anything but six hex digits after an optional '#' gives white: other
   * lengths (the three-digit short form too), a seventh character that is not
   * '#', and any character outside `[a-fA-F0-9]`.
   */
  lemma NonMatchingIsWhite(hex: string)
    ensures |hex| != 6 && |hex| != 7 ==> HexToRgb(hex) == White
    ensures |hex| == 7 && hex[0] != '#' ==> HexToRgb(hex) == White
    ensures HexBody(hex).None? ==> HexToRgb(hex) == White
    ensures !((|hex| == 7 && hex[0] == '#' && AllHex(hex[1..])) || (|hex| == 6 && AllHex(hex))) ==> HexToRgb(hex) == White
  {
  }

  /** Any six hex digits, in either case and with or without '#', are read pair by pair. */
  lemma SixDigitsAccepted(h: string)
    requires |h| == 6 && AllHex(h)
    ensures var rgb := Rgb(ByteOf(h[0], h[1]) as real / 255.0, ByteOf(h[2], h[3]) as real / 255.0, ByteOf(h[4], h[5]) as real / 255.0);
      HexToRgb(h) == rgb && HexToRgb("#" + h) == rgb
    ensures 0 <= ByteOf(h[0], h[1]) < 256 && 0 <= ByteOf(h[2], h[3]) < 256 && 0 <= ByteOf(h[4], h[5]) < 256
  {
    assert ("#" + h)[1..] == h;
  }

  /** The lower-case hex digit for 0..15. */
  function DigitOf(v: nat): char
    requires v < 16
  {
    "0123456789abcdef"[v]
  }

  /** The digit printed for `v` parses back to `v`. */
  lemma DigitRoundTrip(v: nat)
    requires v < 16
    ensures HexDigit(DigitOf(v)) == v
  {
  }

  /** A byte as two hex digits. */
  function ByteHex(v: nat): string
    requires v < 256
  {
    [DigitOf(v / 16), DigitOf(v % 16)]
  }

  /** `#rrggbb` for three bytes. */
  function FormatHex(r: nat, g: nat, b: nat): (hex: string)
    requires r < 256 && g < 256 && b < 256
    ensures |hex| == 7
  {
    "#" + ByteHex(r) + ByteHex(g) + ByteHex(b)
  }

  /** Parsing a formatted colour gives back each byte over 255. */
  lemma {:induction false} HexRoundTrip(r: nat, g: nat, b: nat)
    requires r < 256 && g < 256 && b < 256
    ensures HexToRgb(FormatHex(r, g, b)) == Rgb(r as real / 255.0, g as real / 255.0, b as real / 255.0)
  {
    var hex := FormatHex(r, g, b);
    DigitRoundTrip(r / 16); DigitRoundTrip(r % 16);
    DigitRoundTrip(g / 16); DigitRoundTrip(g % 16);
    DigitRoundTrip(b / 16); DigitRoundTrip(b % 16);
    var h := hex[1..];
    assert h == ByteHex(r) + ByteHex(g) + ByteHex(b);
    assert AllHex(h);
    assert ByteOf(h[0], h[1]) == r;
    assert ByteOf(h[2], h[3]) == g;
    assert ByteOf(h[4], h[5]) == b;
  }

  /** The '#' is optional: the same six digits parse the same with or without it. */
  lemma HashOptional(digits: string)
    requires |digits| == 6
    ensures HexToRgb("#" + digits) == HexToRgb(digits)
  {
    assert ("#" + digits)[1..] == digits;
  }

  /** Upper-case digits read like their lower-case forms. */
  lemma CaseInsensitiveDigit(k: nat)
    requires k < 6
    ensures HexDigit(("ABCDEF")[k]) == HexDigit(("abcdef")[k]) == 10 + k
  {
  }
}
