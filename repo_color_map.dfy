/**
 * The colour map of the gallery variant (app/github-repo/utils/colorMap.ts):
 * every named category has a fixed colour; only 'other' and a missing
 * category use the sentiment bands.
 */
module RepoColorMap {
  import opened Wrappers
  import opened Types

  const SafetyYellow := "#FFFF00"
  const ElectricCrimson := "#FF0055"
  const DeepNeonBlue := "#2E2EFF"
  const NeonLime := "#CCFF00"
  const CoolGrey := "#D1D5DB"

  const Palette: set<string> := {SafetyYellow, ElectricCrimson, DeepNeonBlue, NeonLime, CoolGrey}

  /** `getSphereColor(sentimentScore, category?)` of the gallery variant. */
  function GetSphereColor(sentimentScore: real, category: Option<PostCategory>): (color: string)
    ensures color in Palette
  {
    if category == Some(Rant) then SafetyYellow
    else if category == Some(Achievement) then ElectricCrimson
    else if category == Some(Reflection) then DeepNeonBlue
    else if category == Some(Daily) then NeonLime
    else if category == Some(Relationship) then ElectricCrimson
    else if sentimentScore > 0.4 then ElectricCrimson
    else if sentimentScore > 0.1 then NeonLime
    else if sentimentScore < -0.2 then DeepNeonBlue
    else CoolGrey
  }

  /** The five named categories ignore the score; achievement and relationship share crimson. */
  lemma NamedCategoriesFixed(s1: real, s2: real, c: PostCategory)
    requires c != Other
    ensures GetSphereColor(s1, Some(c)) == GetSphereColor(s2, Some(c))
    ensures GetSphereColor(s1, Some(Achievement)) == GetSphereColor(s2, Some(Relationship)) == ElectricCrimson
    ensures GetSphereColor(s1, Some(Rant)) == SafetyYellow
    ensures GetSphereColor(s1, Some(Reflection)) == DeepNeonBlue
    ensures GetSphereColor(s1, Some(Daily)) == NeonLime
  {
  }

  /** 'other' and a missing category follow the four sentiment bands. */
  lemma FallbackBands(s: real, c: Option<PostCategory>)
    requires c == None || c == Some(Other)
    ensures GetSphereColor(s, c) == ElectricCrimson <==> s > 0.4
    ensures GetSphereColor(s, c) == NeonLime <==> 0.1 < s <= 0.4
    ensures GetSphereColor(s, c) == DeepNeonBlue <==> s < -0.2
    ensures GetSphereColor(s, c) == CoolGrey <==> -0.2 <= s <= 0.1
    ensures GetSphereColor(s, c) != SafetyYellow
  {
  }

  /** `getAvatarBaseColor`: deprecated; cool grey for every score. */
  function GetAvatarBaseColor(sentimentScore: real): (color: string)
    ensures color in Palette
  {
    CoolGrey
  }

  lemma AvatarBaseColorConstant(s1: real, s2: real)
    ensures GetAvatarBaseColor(s1) == GetAvatarBaseColor(s2) == CoolGrey
  {
  }
}
