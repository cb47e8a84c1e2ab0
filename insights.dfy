/**
 * The curator notes of the gallery variant
 * (app/github-repo/components/LanguageInsightsPanel.tsx): category counts
 * over the posts, then rules tried in a fixed order, each pushing at most one
 * message, with a closing "balanced" message when none fired.
 */
module Insights {
  import opened Types
  import opened Wrappers

  /** The messages; the frustration one carries the share of rants in percent. */
  datatype Insight =
    | Frustration(rantPercent: real)
    | AchievementFocus
    | InternalFocus
    | EmotionalWinds
    | SoftLanguage
    | Balanced

  /** `posts.filter(p => p.category === category).length`. */
  function CountOf(posts: seq<AnalyzedPost>, category: PostCategory): (n: nat)
    ensures n <= |posts|
  {
    if posts == [] then 0
    else (if posts[0].category == category then 1 else 0) + CountOf(posts[1..], category)
  }

  /** The frustration rule: more than three rants and more than twice as many rants as achievements. */
  predicate FrustrationFires(rants: nat, achievements: nat) {
    rants > achievements * 2 && rants > 3
  }

  /** The achievement-focus rule: more than three times as many achievements as rants. */
  predicate AchievementFocusFires(rants: nat, achievements: nat) {
    achievements > rants * 3
  }

  /** The note of a rule that fires, or nothing. */
  function NoteIf(fires: bool, note: Insight): seq<Insight> {
    if fires then [note] else []
  }

  /** A rule after the frustration rule: whether it fires and the note it pushes. */
  datatype Rule = Rule(fires: bool, note: Insight)

  /** The notes of the rules that fire, in rule order. */
  function Fired(rules: seq<Rule>): (notes: seq<Insight>)
    ensures |notes| <= |rules|
  {
    if rules == [] then [] else NoteIf(rules[0].fires, rules[0].note) + Fired(rules[1..])
  }

  /** The four rules after the frustration rule, in the order the source tries them. */
  function LaterRules(achievementFocus: bool, internalFocus: bool, emotionalWinds: bool, softLanguage: bool): seq<Rule> {
    [Rule(achievementFocus, AchievementFocus), Rule(internalFocus, InternalFocus),
     Rule(emotionalWinds, EmotionalWinds), Rule(softLanguage, SoftLanguage)]
  }

  /** The notes of the rules that fire, in rule order, or "balanced" alone when none does. */
  function Notes(frustration: Option<real>, achievementFocus: bool, internalFocus: bool, emotionalWinds: bool, softLanguage: bool): seq<Insight> {
    var fired :=
      (if frustration.Some? then [Frustration(frustration.value)] else [])
      + Fired(LaterRules(achievementFocus, internalFocus, emotionalWinds, softLanguage));
    if fired == [] then [Balanced] else fired
  }

  /** The frustration note, with the rants' share of all posts in percent, when its rule fires. */
  function FrustrationNote(posts: seq<AnalyzedPost>): Option<real>
    requires |posts| > 0
  {
    var rants := CountOf(posts, Rant);
    var achievements := CountOf(posts, Achievement);
    if FrustrationFires(rants, achievements) then Some((rants as real / |posts| as real) * 100.0) else None
  }

  /** The notes as a list of the rules that fire, in rule order. */
  function InsightList(posts: seq<AnalyzedPost>, dimensions: Option<PersonaDimensions>): seq<Insight> {
    if |posts| == 0 || dimensions.None? then []
    else
      var d := dimensions.value;
      Notes(
        FrustrationNote(posts),
        AchievementFocusFires(CountOf(posts, Rant), CountOf(posts, Achievement)),
        CountOf(posts, Relationship) < 2,
        d.emotionality > 0.8,
        d.confidence < 0.4)
  }

  /** No note appears twice. */
  predicate Distinct(notes: seq<Insight>) {
    forall i, j :: 0 <= i < j < |notes| ==> notes[i] != notes[j]
  }

  /**
   * With distinct notes, each rule's note is there exactly when the rule
   * fires, nothing else is there, and no note comes twice.
   */
  lemma {:induction false} FiredExact(rules: seq<Rule>)
    requires forall i, j :: 0 <= i < j < |rules| ==> rules[i].note != rules[j].note
    ensures forall k :: 0 <= k < |rules| ==> (rules[k].note in Fired(rules) <==> rules[k].fires)
    ensures forall m :: m in Fired(rules) ==> exists k :: 0 <= k < |rules| && rules[k].note == m
    ensures Distinct(Fired(rules))
  {
    if rules != [] {
      var tail := rules[1..];
      FiredExact(tail);
      assert forall k :: 1 <= k < |rules| ==> rules[k] == tail[k - 1];
      assert rules[0].note !in Fired(tail);
      assert Fired(rules) == NoteIf(rules[0].fires, rules[0].note) + Fired(tail);
    }
  }

  /** A rule that does not fire leaves one note fewer than there are rules. */
  lemma FiredQuietHead(rules: seq<Rule>)
    requires rules != [] && !rules[0].fires
    ensures |Fired(rules)| <= |rules| - 1
  {
    assert Fired(rules) == Fired(rules[1..]);
  }

  /** Four rules pushed one after the other. */
  lemma FiredFour(a: Rule, b: Rule, c: Rule, d: Rule)
    ensures Fired([a, b, c, d]) == NoteIf(a.fires, a.note) + NoteIf(b.fires, b.note) + NoteIf(c.fires, c.note) + NoteIf(d.fires, d.note)
  {
    assert [d][1..] == [];
    assert Fired([d]) == NoteIf(d.fires, d.note);
    assert [c, d][1..] == [d];
    assert Fired([c, d]) == NoteIf(c.fires, c.note) + NoteIf(d.fires, d.note);
    assert [b, c, d][1..] == [c, d];
    assert Fired([b, c, d]) == NoteIf(b.fires, b.note) + NoteIf(c.fires, c.note) + NoteIf(d.fires, d.note);
    assert [a, b, c, d][1..] == [b, c, d];
  }

  /**
   * The four later rules: each note exactly when its rule fires, none twice,
   * nothing else, and at most three notes when achievement focus is quiet.
   */
  lemma LaterNotesExact(achievementFocus: bool, internalFocus: bool, emotionalWinds: bool, softLanguage: bool)
    ensures var later := Fired(LaterRules(achievementFocus, internalFocus, emotionalWinds, softLanguage));
      && (AchievementFocus in later <==> achievementFocus)
      && (InternalFocus in later <==> internalFocus)
      && (EmotionalWinds in later <==> emotionalWinds)
      && (SoftLanguage in later <==> softLanguage)
      && (forall m :: m in later ==> m == AchievementFocus || m == InternalFocus || m == EmotionalWinds || m == SoftLanguage)
      && Distinct(later)
      && |later| <= 4
      && (!achievementFocus ==> |later| <= 3)
  {
    var rules := LaterRules(achievementFocus, internalFocus, emotionalWinds, softLanguage);
    FiredExact(rules);
    assert rules[0].note in Fired(rules) <==> achievementFocus;
    assert rules[1].note in Fired(rules) <==> internalFocus;
    assert rules[2].note in Fired(rules) <==> emotionalWinds;
    assert rules[3].note in Fired(rules) <==> softLanguage;
    if !achievementFocus {
      FiredQuietHead(rules);
    }
  }

  /** Each flag adds its own note exactly when set, no note twice, and frustration only at the front. */
  lemma NotesExact(frustration: Option<real>, achievementFocus: bool, internalFocus: bool, emotionalWinds: bool, softLanguage: bool)
    ensures var notes := Notes(frustration, achievementFocus, internalFocus, emotionalWinds, softLanguage);
      && (notes[0].Frustration? <==> frustration.Some?)
      && (frustration.Some? ==> notes[0] == Frustration(frustration.value))
      && (forall k :: 0 < k < |notes| ==> !notes[k].Frustration?)
      && (AchievementFocus in notes <==> achievementFocus)
      && (InternalFocus in notes <==> internalFocus)
      && (EmotionalWinds in notes <==> emotionalWinds)
      && (SoftLanguage in notes <==> softLanguage)
      && Distinct(notes)
  {
    var later := Fired(LaterRules(achievementFocus, internalFocus, emotionalWinds, softLanguage));
    LaterNotesExact(achievementFocus, internalFocus, emotionalWinds, softLanguage);
    var notes := Notes(frustration, achievementFocus, internalFocus, emotionalWinds, softLanguage);
    if frustration.Some? {
      assert notes == [Frustration(frustration.value)] + later;
      assert forall k :: 0 < k < |notes| ==> notes[k] == later[k - 1] && later[k - 1] in later;
    } else if later == [] {
      assert notes == [Balanced];
    } else {
      assert notes == later;
      assert forall k :: 0 <= k < |notes| ==> notes[k] in later;
    }
  }

  /** "Balanced" comes alone, exactly when nothing fires; otherwise one note per rule that fires. */
  lemma NotesBalanced(frustration: Option<real>, achievementFocus: bool, internalFocus: bool, emotionalWinds: bool, softLanguage: bool)
    ensures var notes := Notes(frustration, achievementFocus, internalFocus, emotionalWinds, softLanguage);
      && (Balanced in notes <==> notes == [Balanced])
      && (notes == [Balanced] <==> frustration.None? && !achievementFocus && !internalFocus && !emotionalWinds && !softLanguage)
      && 1 <= |notes| <= (if frustration.Some? && !achievementFocus then 4 else 5)
  {
    var later := Fired(LaterRules(achievementFocus, internalFocus, emotionalWinds, softLanguage));
    LaterNotesExact(achievementFocus, internalFocus, emotionalWinds, softLanguage);
    var notes := Notes(frustration, achievementFocus, internalFocus, emotionalWinds, softLanguage);
    if frustration.Some? {
      assert notes == [Frustration(frustration.value)] + later;
      assert notes[0] != Balanced;
    } else if later == [] {
      assert notes == [Balanced];
    } else {
      assert notes == later;
      assert later[0] in later;
    }
  }

  /** The `useMemo` body: the local `results` array, pushed to once per rule that fires. */
  method ComputeInsights(posts: seq<AnalyzedPost>, dimensions: Option<PersonaDimensions>) returns (results: seq<Insight>)
    ensures results == InsightList(posts, dimensions)
  {
    if |posts| == 0 || dimensions.None? {
      return [];
    }
    var d := dimensions.value;
    results := [];
    var count := |posts|;
    var rants := CountOf(posts, Rant);
    var achievements := CountOf(posts, Achievement);
    var relationships := CountOf(posts, Relationship);
    if rants > achievements * 2 && rants > 3 {
      results := results + [Frustration((rants as real / count as real) * 100.0)];
    }
    results := PushLaterNotes(results, achievements > rants * 3, relationships < 2, d.emotionality > 0.8, d.confidence < 0.4);
    if |results| == 0 {
      results := results + [Balanced];
    }
  }

  /** The pushes of the four later rules, in order, each when its condition holds. */
  method PushLaterNotes(results: seq<Insight>, achievementFocus: bool, internalFocus: bool, emotionalWinds: bool, softLanguage: bool)
    returns (pushed: seq<Insight>)
    ensures pushed == results + Fired(LaterRules(achievementFocus, internalFocus, emotionalWinds, softLanguage))
  {
    pushed := results;
    if achievementFocus {
      pushed := pushed + [AchievementFocus];
    }
    assert pushed == results + NoteIf(achievementFocus, AchievementFocus);
    if internalFocus {
      pushed := pushed + [InternalFocus];
    }
    assert pushed == results + NoteIf(achievementFocus, AchievementFocus) + NoteIf(internalFocus, InternalFocus);
    if emotionalWinds {
      pushed := pushed + [EmotionalWinds];
    }
    assert pushed == results + NoteIf(achievementFocus, AchievementFocus) + NoteIf(internalFocus, InternalFocus)
                   + NoteIf(emotionalWinds, EmotionalWinds);
    if softLanguage {
      pushed := pushed + [SoftLanguage];
    }
    FiredFour(Rule(achievementFocus, AchievementFocus), Rule(internalFocus, InternalFocus),
              Rule(emotionalWinds, EmotionalWinds), Rule(softLanguage, SoftLanguage));
  }

  /** The frustration and achievement-focus rules never fire together. */
  lemma FrustrationExcludesAchievementFocus(rants: nat, achievements: nat)
    ensures !(FrustrationFires(rants, achievements) && AchievementFocusFires(rants, achievements))
  {
  }

  /** With posts and dimensions there are one to four notes; "balanced" comes alone, and only when no other rule fired. */
  lemma InsightBounds(posts: seq<AnalyzedPost>, d: PersonaDimensions)
    requires |posts| > 0
    ensures var notes := InsightList(posts, Some(d));
      && 1 <= |notes| <= 4
      && (Balanced in notes <==> notes == [Balanced])
  {
    var rants := CountOf(posts, Rant);
    var achievements := CountOf(posts, Achievement);
    FrustrationExcludesAchievementFocus(rants, achievements);
    NotesBalanced(FrustrationNote(posts), AchievementFocusFires(rants, achievements), CountOf(posts, Relationship) < 2,
               d.emotionality > 0.8, d.confidence < 0.4);
    if FrustrationNote(posts).None? {
      LaterNotesExact(AchievementFocusFires(rants, achievements), CountOf(posts, Relationship) < 2,
                      d.emotionality > 0.8, d.confidence < 0.4);
    }
  }

  /** Balanced exactly when every rule stays quiet. */
  lemma BalancedIffQuiet(posts: seq<AnalyzedPost>, d: PersonaDimensions)
    requires |posts| > 0
    ensures var rants := CountOf(posts, Rant);
      var achievements := CountOf(posts, Achievement);
      InsightList(posts, Some(d)) == [Balanced] <==>
        && !FrustrationFires(rants, achievements)
        && !AchievementFocusFires(rants, achievements)
        && CountOf(posts, Relationship) >= 2
        && d.emotionality <= 0.8
        && d.confidence >= 0.4
  {
    var rants := CountOf(posts, Rant);
    var achievements := CountOf(posts, Achievement);
    NotesBalanced(FrustrationNote(posts), AchievementFocusFires(rants, achievements), CountOf(posts, Relationship) < 2,
               d.emotionality > 0.8, d.confidence < 0.4);
  }

  /**
   * Each rule adds its own note exactly when its condition holds, at most once:
   * frustration first, then achievement focus, the relationship count, the
   * emotionality and the confidence rules.
   */
  lemma EachRuleAddsItsNote(posts: seq<AnalyzedPost>, d: PersonaDimensions)
    requires |posts| > 0
    ensures var notes := InsightList(posts, Some(d));
      var rants := CountOf(posts, Rant);
      var achievements := CountOf(posts, Achievement);
      && (notes[0].Frustration? <==> FrustrationFires(rants, achievements))
      && (notes[0].Frustration? ==> notes[0].rantPercent == (rants as real / |posts| as real) * 100.0)
      && (forall k :: 0 < k < |notes| ==> !notes[k].Frustration?)
      && (AchievementFocus in notes <==> AchievementFocusFires(rants, achievements))
      && (InternalFocus in notes <==> CountOf(posts, Relationship) < 2)
      && (EmotionalWinds in notes <==> d.emotionality > 0.8)
      && (SoftLanguage in notes <==> d.confidence < 0.4)
      && Distinct(notes)
  {
    var rants := CountOf(posts, Rant);
    var achievements := CountOf(posts, Achievement);
    NotesExact(FrustrationNote(posts), AchievementFocusFires(rants, achievements), CountOf(posts, Relationship) < 2,
               d.emotionality > 0.8, d.confidence < 0.4);
  }

  /** No posts or no dimensions gives no notes at all. */
  lemma NoInputNoNotes(posts: seq<AnalyzedPost>, dimensions: Option<PersonaDimensions>)
    ensures |posts| == 0 || dimensions.None? ==> InsightList(posts, dimensions) == []
  {
  }

  /** The counts of two batches add up. */
  lemma {:induction false} CountOfAppend(a: seq<AnalyzedPost>, b: seq<AnalyzedPost>, category: PostCategory)
    ensures CountOf(a + b, category) == CountOf(a, category) + CountOf(b, category)
  {
    if a == [] {
      assert a + b == b;
    } else {
      assert (a + b)[1..] == a[1..] + b;
      CountOfAppend(a[1..], b, category);
    }
  }

  /** Categories partition the posts: rants, achievements and relationships never outnumber the posts together. */
  lemma {:induction false} CountsBounded(posts: seq<AnalyzedPost>)
    ensures CountOf(posts, Rant) + CountOf(posts, Achievement) + CountOf(posts, Relationship) <= |posts|
  {
    if posts != [] {
      CountsBounded(posts[1..]);
    }
  }

  /** The frustration note's percentage is the rants' share of all posts, between 0 and 100. */
  lemma FrustrationPercent(posts: seq<AnalyzedPost>, d: PersonaDimensions)
    requires |posts| > 0
    ensures var notes := InsightList(posts, Some(d));
      notes != [] && notes[0].Frustration? ==> 0.0 < notes[0].rantPercent <= 100.0
  {
    var rants := CountOf(posts, Rant);
    var achievements := CountOf(posts, Achievement);
    NotesExact(FrustrationNote(posts), AchievementFocusFires(rants, achievements), CountOf(posts, Relationship) < 2,
               d.emotionality > 0.8, d.confidence < 0.4);
    if FrustrationFires(rants, achievements) {
      PercentWithinRange(rants, |posts|);
    }
  }

  /** A share of at most all posts, in percent, lies in (0, 100] when positive. */
  lemma PercentWithinRange(part: nat, whole: nat)
    requires 0 < part <= whole
    ensures 0.0 < (part as real / whole as real) * 100.0 <= 100.0
  {
    var q := part as real / whole as real;
    assert q * whole as real == part as real;
    assert q <= 1.0;
  }
}
