/**
 * The emotion colour system of the main application (app/utils/colorMap.ts):
 * a category rule wins; categories without a rule fall back to sentiment bands.
 */
module ColorMap {
  import opened Wrappers
  import opened Types

  /** The keys of EMOTION_COLORS. */
  datatype Emotion = Joy | Sadness | Anxiety | Envy | Embarrassment | Anger | Fear | Neutral

  /** EMOTION_COLORS: the hex colour of each emotion. */
  function EmotionColor(e: Emotion): (hex: string)
    ensures |hex| == 7 && hex[0] == '#'
  {
    match e
    case Joy => "#FFD700"
    case Sadness => "#4A90E2"
    case Anxiety => "#FF6B35"
    case Envy => "#00D9B5"
    case Embarrassment => "#FF9ECD"
    case Anger => "#E63946"
    case Fear => "#9B59B6"
    case Neutral => "#A8B5C7"
  }

  /** The table gives each emotion its own colour. */
  lemma EmotionColorInjective(e1: Emotion, e2: Emotion)
    ensures EmotionColor(e1) == EmotionColor(e2) ==> e1 == e2
  {
  }

  /** The colours getSphereColor can return: every emotion but anger and fear. */
  const SphereColors: set<string> := {
    EmotionColor(Joy), EmotionColor(Sadness), EmotionColor(Anxiety),
    EmotionColor(Envy), EmotionColor(Embarrassment), EmotionColor(Neutral)
  }

  /** `getSphereColor(sentimentScore, category?)`. */
  function GetSphereColor(sentimentScore: real, category: Option<PostCategory>): (color: string)
    ensures color in SphereColors
    ensures color != EmotionColor(Anger) && color != EmotionColor(Fear)
  {
    if category == Some(Rant) then EmotionColor(Anxiety)
    else if category == Some(Achievement) then EmotionColor(Joy)
    else if category == Some(Reflection) then EmotionColor(Sadness)
    else if category == Some(Daily) then
      (if sentimentScore > 0.0 then EmotionColor(Joy) else EmotionColor(Embarrassment))
    else if category == Some(Relationship) then
      (if sentimentScore > 0.3 then EmotionColor(Joy)
       else if sentimentScore < -0.3 then EmotionColor(Sadness)
       else EmotionColor(Embarrassment))
    else if sentimentScore > 0.5 then EmotionColor(Joy)
    else if sentimentScore > 0.1 then EmotionColor(Envy)
    else if sentimentScore < -0.5 then EmotionColor(Sadness)
    else if sentimentScore < -0.2 then EmotionColor(Anxiety)
    else EmotionColor(Neutral)
  }

  /** Rant, achievement and reflection have a fixed colour whatever the score. */
  lemma CategoryRuleWins(s1: real, s2: real)
    ensures GetSphereColor(s1, Some(Rant)) == GetSphereColor(s2, Some(Rant)) == EmotionColor(Anxiety)
    ensures GetSphereColor(s1, Some(Achievement)) == GetSphereColor(s2, Some(Achievement)) == EmotionColor(Joy)
    ensures GetSphereColor(s1, Some(Reflection)) == GetSphereColor(s2, Some(Reflection)) == EmotionColor(Sadness)
  {
  }

  /** A daily post is joy exactly when its score is positive, embarrassment otherwise (0 included). */
  lemma DailyBands(s: real)
    ensures GetSphereColor(s, Some(Daily)) == EmotionColor(Joy) <==> s > 0.0
    ensures GetSphereColor(s, Some(Daily)) == EmotionColor(Embarrassment) <==> s <= 0.0
    ensures GetSphereColor(0.0, Some(Daily)) == EmotionColor(Embarrassment)
  {
  }

  /** A relationship post is joy above 0.3, sadness below -0.3, embarrassment in between (bounds included). */
  lemma RelationshipBands(s: real)
    ensures GetSphereColor(s, Some(Relationship)) == EmotionColor(Joy) <==> s > 0.3
    ensures GetSphereColor(s, Some(Relationship)) == EmotionColor(Sadness) <==> s < -0.3
    ensures GetSphereColor(s, Some(Relationship)) == EmotionColor(Embarrassment) <==> -0.3 <= s <= 0.3
  {
  }

  /** Posts with no category rule ('other' or no category) follow the five sentiment bands. */
  lemma UncategorisedBands(s: real, c: Option<PostCategory>)
    requires c == None || c == Some(Other)
    ensures GetSphereColor(s, c) == EmotionColor(Joy) <==> s > 0.5
    ensures GetSphereColor(s, c) == EmotionColor(Envy) <==> 0.1 < s <= 0.5
    ensures GetSphereColor(s, c) == EmotionColor(Sadness) <==> s < -0.5
    ensures GetSphereColor(s, c) == EmotionColor(Anxiety) <==> -0.5 <= s < -0.2
    ensures GetSphereColor(s, c) == EmotionColor(Neutral) <==> -0.2 <= s <= 0.1
    ensures GetSphereColor(0.5, c) == EmotionColor(Envy)
    ensures GetSphereColor(-0.2, c) == EmotionColor(Neutral)
  {
  }

  /** Only uncategorised posts can be neutral. */
  lemma NeutralOnlyWithoutRule(s: real, c: Option<PostCategory>)
    ensures GetSphereColor(s, c) == EmotionColor(Neutral) ==> c == None || c == Some(Other)
  {
    if c != None && c != Some(Other) {
      var e: Emotion;
      if c.value == Daily {
        e := if s > 0.0 then Joy else Embarrassment;
      } else if c.value == Relationship {
        e := if s > 0.3 then Joy else if s < -0.3 then Sadness else Embarrassment;
      } else {
        e := if c.value == Rant then Anxiety else if c.value == Achievement then Joy else Sadness;
      }
      assert GetSphereColor(s, c) == EmotionColor(e);
      EmotionColorInjective(e, Neutral);
    }
  }

  /** `getAvatarBaseColor`: deprecated; neutral for every score. */
  function GetAvatarBaseColor(sentimentScore: real): (color: string)
    ensures color in SphereColors
  {
    EmotionColor(Neutral)
  }

  lemma AvatarBaseColorConstant(s1: real, s2: real)
    ensures GetAvatarBaseColor(s1) == GetAvatarBaseColor(s2) == EmotionColor(Neutral)
  {
  }
}
