/**
 * The what-if simulator of the main application
 * (app/components/WhatIfStudio.tsx): analyse a draft line, append it to the
 * current posts, recompute the dimensions, and list the dimensions that would
 * move by at least half a percentage point.
 *
 * The main application's analysis hook and computePersonaDimensions are not
 * part of this model: `analyzeFirst` stands for the first record the analysis
 * of `[draft]` produces and `compute` for computePersonaDimensions. The keys are listed in the
 * declaration order of the dimension record.
 */
module WhatIf {
  import opened Types
  import opened Wrappers
  import opened Text

  /** The smallest shift that is shown. */
  const ShiftThreshold: real := 0.005

  /** `[...currentPosts, newPostAnalysis]`. */
  function Combined(currentPosts: seq<AnalyzedPost>, draftPost: AnalyzedPost): (combined: seq<AnalyzedPost>)
    ensures |combined| == |currentPosts| + 1
    ensures combined[..|currentPosts|] == currentPosts
    ensures combined[|currentPosts|] == draftPost
  {
    currentPosts + [draftPost]
  }

  /** The simulator's state: the draft text and the simulated dimensions. */
  class WhatIfStudio {
    var draft: string
    var simulatedDims: Option<PersonaDimensions>

    /** An empty draft and nothing simulated yet. */
    constructor()
      ensures draft == [] && simulatedDims == None
    {
      draft := [];
      simulatedDims := None;
    }

    /** The text area's `onChange`. */
    method SetDraft(text: string)
      modifies this
      ensures draft == text && simulatedDims == old(simulatedDims)
    {
      draft := text;
    }

    /**
     * `handleSimulate()`: a blank draft does nothing; otherwise the draft (untrimmed)
     * is analysed, appended, and the dimensions of the combined list are kept.
     */
    method HandleSimulate(currentPosts: seq<AnalyzedPost>, analyzeFirst: string -> AnalyzedPost,
                          compute: seq<AnalyzedPost> -> PersonaDimensions)
      modifies this
      ensures Trim(old(draft)) == [] ==> unchanged(this)
      ensures Trim(old(draft)) != [] ==>
        simulatedDims == Some(compute(Combined(currentPosts, analyzeFirst(old(draft))))) && draft == old(draft)
    {
      if Trim(draft) == [] {
        return;
      }
      var newPostAnalysis := analyzeFirst(draft);
      var combinedPosts := Combined(currentPosts, newPostAnalysis);
      simulatedDims := Some(compute(combinedPosts));
    }
  }

  // ---- the handler as written, with an asynchronous analysis ----

  /** What an `async` analyzePosts returns at once: a promise of the records it later settles to. */
  datatype PendingAnalysis = PendingAnalysis(settlesTo: seq<AnalyzedPost>)

  /** `[0]` of a promise: a promise has no index properties, so the read gives `undefined`, whatever it settles to. */
  function FirstOfPending(p: PendingAnalysis): (entry: Option<AnalyzedPost>)
    ensures entry.None?
    ensures p.settlesTo != [] ==> entry != Some(p.settlesTo[0])
  {
    None
  }

  /** A list of posts as a list of possibly `undefined` entries. */
  function Lifted(posts: seq<AnalyzedPost>): (entries: seq<Option<AnalyzedPost>>)
    ensures |entries| == |posts|
    ensures forall i :: 0 <= i < |posts| ==> entries[i] == Some(posts[i])
  {
    seq(|posts|, i requires 0 <= i < |posts| => Some(posts[i]))
  }

  /** `[...currentPosts, newPostAnalysis]` when the appended entry may be `undefined`. */
  function CombinedAsWritten(currentPosts: seq<AnalyzedPost>, draftEntry: Option<AnalyzedPost>): (combined: seq<Option<AnalyzedPost>>)
    ensures |combined| == |currentPosts| + 1
    ensures combined[..|currentPosts|] == Lifted(currentPosts)
    ensures combined[|currentPosts|] == draftEntry
  {
    Lifted(currentPosts) + [draftEntry]
  }

  /**
   * With an asynchronous analysis, the list handed to computePersonaDimensions
   * ends in `undefined`: every record in it is one of the current posts, and
   * it is not the intended list for any analysis of the draft.
   */
  lemma DraftLostAsWritten(currentPosts: seq<AnalyzedPost>, settled: seq<AnalyzedPost>)
    ensures var combined := CombinedAsWritten(currentPosts, FirstOfPending(PendingAnalysis(settled)));
      && combined[|currentPosts|] == None
      && (forall a :: Some(a) in combined ==> a in currentPosts)
      && (forall d :: combined != Lifted(Combined(currentPosts, d)))
  {
    var combined := CombinedAsWritten(currentPosts, FirstOfPending(PendingAnalysis(settled)));
    forall a | Some(a) in combined
      ensures a in currentPosts
    {
      var i :| 0 <= i < |combined| && combined[i] == Some(a);
      assert combined[i] == combined[..|currentPosts|][i];
    }
    forall d
      ensures combined != Lifted(Combined(currentPosts, d))
    {
      assert Lifted(Combined(currentPosts, d))[|currentPosts|] == Some(d);
    }
  }

  /** A listed shift: the key, whether the arrow points up, and the magnitude in percent. */
  datatype Shift = Shift(key: Dimension, up: bool, percent: real)

  /** `simulatedDims[k] - currentDimensions[k]`. */
  function Diff(simulated: PersonaDimensions, current: PersonaDimensions, k: Dimension): real {
    Get(simulated, k) - Get(current, k)
  }

  /** A key is listed unless its shift is below the threshold in magnitude. */
  predicate Shown(simulated: PersonaDimensions, current: PersonaDimensions, k: Dimension) {
    Abs(Diff(simulated, current, k)) >= ShiftThreshold
  }

  /** The row shown for key `k`: an up arrow exactly when the shift is positive, and its magnitude times 100. */
  function ShiftFor(simulated: PersonaDimensions, current: PersonaDimensions, k: Dimension): (s: Shift)
    ensures s.key == k
    ensures s.up <==> Get(simulated, k) > Get(current, k)
    ensures s.percent == Abs(Get(simulated, k) - Get(current, k)) * 100.0
    ensures s.percent >= 0.0
    ensures Shown(simulated, current, k) ==> s.percent >= 0.5
  {
    var diff := Diff(simulated, current, k);
    Shift(k, diff > 0.0, Abs(diff) * 100.0)
  }

  /** Swapping the simulated and the current persona keeps the magnitude and turns a shift's arrow around. */
  lemma ShiftReversed(simulated: PersonaDimensions, current: PersonaDimensions, k: Dimension)
    ensures ShiftFor(current, simulated, k).percent == ShiftFor(simulated, current, k).percent
    ensures Diff(simulated, current, k) != 0.0 ==> ShiftFor(current, simulated, k).up == !ShiftFor(simulated, current, k).up
    ensures Shown(current, simulated, k) <==> Shown(simulated, current, k)
  {
  }

  /** The rows for `keys`, in order, with the small shifts left out. */
  function ShiftsOver(keys: seq<Dimension>, simulated: PersonaDimensions, current: PersonaDimensions): (shifts: seq<Shift>)
    ensures |shifts| <= |keys|
  {
    if keys == [] then []
    else
      (if Shown(simulated, current, keys[0]) then [ShiftFor(simulated, current, keys[0])] else [])
      + ShiftsOver(keys[1..], simulated, current)
  }

  /** The predicted-shift list over the five dimensions. */
  function PredictedShifts(simulated: PersonaDimensions, current: PersonaDimensions): seq<Shift> {
    ShiftsOver(DimensionKeys, simulated, current)
  }

  /** A key has a row exactly when it is one of the keys and its shift reaches the threshold. */
  lemma {:induction false} ShiftsOverListed(keys: seq<Dimension>, simulated: PersonaDimensions, current: PersonaDimensions, k: Dimension)
    ensures ShiftFor(simulated, current, k) in ShiftsOver(keys, simulated, current)
        <==> k in keys && Shown(simulated, current, k)
  {
    if keys != [] {
      ShiftsOverListed(keys[1..], simulated, current, k);
      assert k in keys <==> k == keys[0] || k in keys[1..];
    }
  }

  /** Every row is the row of a listed key that reaches the threshold. */
  lemma {:induction false} ShiftsOverSound(keys: seq<Dimension>, simulated: PersonaDimensions, current: PersonaDimensions)
    ensures forall s :: s in ShiftsOver(keys, simulated, current) ==>
      s.key in keys && Shown(simulated, current, s.key) && s == ShiftFor(simulated, current, s.key)
  {
    if keys != [] {
      ShiftsOverSound(keys[1..], simulated, current);
    }
  }

  /** Keys whose shifts all stay below the threshold give no rows. */
  lemma {:induction false} ShiftsOverEmpty(keys: seq<Dimension>, simulated: PersonaDimensions, current: PersonaDimensions)
    requires forall k :: k in keys ==> !Shown(simulated, current, k)
    ensures ShiftsOver(keys, simulated, current) == []
  {
    if keys != [] {
      assert keys[0] in keys;
      ShiftsOverEmpty(keys[1..], simulated, current);
    }
  }

  /** All five dimensions are candidates: a shift is listed exactly when it reaches the threshold. */
  lemma PredictedShiftListed(simulated: PersonaDimensions, current: PersonaDimensions, k: Dimension)
    ensures ShiftFor(simulated, current, k) in PredictedShifts(simulated, current) <==> Shown(simulated, current, k)
  {
    DimensionKeysComplete(k);
    ShiftsOverListed(DimensionKeys, simulated, current, k);
  }

  /** A simulation that changes no dimension lists nothing. */
  lemma NoChangeNoShifts(d: PersonaDimensions)
    ensures PredictedShifts(d, d) == []
  {
    ShiftsOverEmpty(DimensionKeys, d, d);
  }

  /** The shift panel: shown only when both the simulated and the current dimensions exist. */
  function ShiftPanel(simulated: Option<PersonaDimensions>, current: Option<PersonaDimensions>): (panel: Option<seq<Shift>>)
    ensures panel.Some? <==> simulated.Some? && current.Some?
    ensures panel.Some? ==> panel.value == PredictedShifts(simulated.value, current.value)
  {
    if simulated.Some? && current.Some? then Some(PredictedShifts(simulated.value, current.value)) else None
  }
}
