/**
 * The session state of the main application (app/App.tsx): the analyzed
 * posts, their spheres, the persona dimensions, the scene phase and whether
 * the UI is hidden, changed by the initial load, the generate handler and the
 * delete handler, with the autosave effect as a method of its own.
 *
 * React's effects, state batching and async handlers become sequential
 * methods. The main application's analysis hook, its record types and
 * computePersonaDimensions are not part of this model: the hook's outcome and
 * its running flag are parameters, the records are those of the gallery
 * variant, and `compute` stands for computePersonaDimensions.
 */
module App {
  import opened Types
  import opened Wrappers
  import opened Placement
  import opened Layout3d
  import opened MemoryStorage

  /** The ids of a list, in order, read by `id`. */
  function Ids<T>(xs: seq<T>, id: T -> string): (ids: seq<string>)
    ensures |ids| == |xs|
  {
    if xs == [] then [] else Ids(xs[..|xs| - 1], id) + [id(xs[|xs| - 1])]
  }

  function PostId(p: AnalyzedPost): string { p.id }

  function SphereId(s: CastleSphere): string { s.id }

  /** Sphere `i` carries the id of post `i`: what lets a sphere be matched to its post. */
  predicate Aligned(posts: seq<AnalyzedPost>, spheres: seq<CastleSphere>) {
    Ids(spheres, SphereId) == Ids(posts, PostId)
  }

  /** Id `i` is the id of entry `i`. */
  lemma {:induction false} IdsAt<T>(xs: seq<T>, id: T -> string)
    ensures forall i :: 0 <= i < |xs| ==> Ids(xs, id)[i] == id(xs[i])
    decreases |xs|
  {
    if xs != [] {
      IdsAt(xs[..|xs| - 1], id);
    }
  }

  /** Aligned lists have the same length and sphere `i` has the id of post `i`. */
  lemma AlignedIds(posts: seq<AnalyzedPost>, spheres: seq<CastleSphere>)
    ensures Aligned(posts, spheres) <==>
      |spheres| == |posts| && forall i :: 0 <= i < |posts| ==> spheres[i].id == posts[i].id
  {
    IdsAt(posts, PostId);
    IdsAt(spheres, SphereId);
    if |spheres| == |posts| && forall i :: 0 <= i < |posts| ==> spheres[i].id == posts[i].id {
      assert forall i :: 0 <= i < |posts| ==> Ids(spheres, SphereId)[i] == Ids(posts, PostId)[i];
    }
  }

  /** The ids of a concatenation are the ids of its parts. */
  lemma {:induction false} IdsAppend<T>(xs: seq<T>, more: seq<T>, id: T -> string)
    ensures Ids(xs + more, id) == Ids(xs, id) + Ids(more, id)
    decreases |more|
  {
    if more == [] {
      assert xs + more == xs;
    } else {
      assert (xs + more)[..|xs + more| - 1] == xs + more[..|more| - 1];
      IdsAppend(xs, more[..|more| - 1], id);
    }
  }

  /** A fresh layout is aligned with the posts it was made from. */
  lemma LayoutAligned(posts: seq<AnalyzedPost>, random: nat -> Draws, trig: Trig)
    ensures Aligned(posts, Layout(posts, random, trig))
  {
    var spheres := Layout(posts, random, trig);
    LayoutSpheres(posts, random, trig);
    forall i | 0 <= i < |posts|
      ensures spheres[i].id == posts[i].id
    {
      SphereKeepsPost(posts, i, random(i), trig);
    }
    AlignedIds(posts, spheres);
  }

  /** Appending an aligned batch to an aligned list keeps it aligned. */
  lemma AlignedAppend(posts: seq<AnalyzedPost>, spheres: seq<CastleSphere>,
                      newPosts: seq<AnalyzedPost>, newSpheres: seq<CastleSphere>)
    requires Aligned(posts, spheres) && Aligned(newPosts, newSpheres)
    ensures Aligned(posts + newPosts, spheres + newSpheres)
  {
    IdsAppend(posts, newPosts, PostId);
    IdsAppend(spheres, newSpheres, SphereId);
  }

  /** The state held by the `AppContent` component. */
  class AppContent {
    var scenePhase: ScenePhase
    var analyzedPosts: seq<AnalyzedPost>
    var spheres: seq<CastleSphere>
    var currentDimensions: Option<PersonaDimensions>
    var uiHidden: bool
    const storage: Storage

    /** The invariant every handler keeps: sphere `i` belongs to post `i`. */
    predicate Valid()
      reads this
    {
      Aligned(analyzedPosts, spheres)
    }

    /** The initial state: caged, with no posts, no spheres and no dimensions. */
    constructor(storage: Storage)
      ensures scenePhase == Caged && analyzedPosts == [] && spheres == []
      ensures currentDimensions == None && !uiHidden && this.storage == storage
      ensures Valid()
    {
      scenePhase := Caged;
      analyzedPosts := [];
      spheres := [];
      currentDimensions := None;
      uiHidden := false;
      this.storage := storage;
    }

    /**
     * The mount effect: a non-empty stored list becomes the posts, is laid out
     * in full and goes straight to the universe phase; otherwise nothing changes.
     */
    method LoadFromStorage(compute: seq<AnalyzedPost> -> PersonaDimensions, random: nat -> Draws, trig: Trig)
      requires Valid()
      modifies this
      ensures Valid()
      ensures old(storage.Loaded()) != [] ==>
        && analyzedPosts == old(storage.Loaded())
        && spheres == Layout(analyzedPosts, random, trig)
        && currentDimensions == Some(compute(analyzedPosts))
        && scenePhase == Universe
        && uiHidden == old(uiHidden)
      ensures old(storage.Loaded()) == [] ==>
        scenePhase == old(scenePhase) && analyzedPosts == old(analyzedPosts) && spheres == old(spheres)
        && currentDimensions == old(currentDimensions) && uiHidden == old(uiHidden)
    {
      var stored := storage.Load();
      if |stored| > 0 {
        Replace(stored, compute, random, trig);
        scenePhase := Universe;
      }
    }

    /** Makes `posts` the current posts, with their own fresh layout and dimensions. */
    method Replace(posts: seq<AnalyzedPost>,
                   compute: seq<AnalyzedPost> -> PersonaDimensions, random: nat -> Draws, trig: Trig)
      modifies this
      ensures Valid()
      ensures analyzedPosts == posts
      ensures spheres == Layout(posts, random, trig)
      ensures currentDimensions == Some(compute(posts))
      ensures scenePhase == old(scenePhase) && uiHidden == old(uiHidden)
    {
      analyzedPosts := posts;
      spheres := LayoutMemorySpheres(posts, random, trig);
      LayoutAligned(posts, random, trig);
      currentDimensions := Some(compute(posts));
    }

    /** The autosave effect: the posts are saved only when there are some. */
    method Autosave(accepted: bool)
      modifies storage
      ensures analyzedPosts != [] && accepted ==> storage.items == old(storage.items)[StorageKey := Saved(analyzedPosts)]
      ensures analyzedPosts != [] && accepted ==> storage.Loaded() == analyzedPosts
      ensures analyzedPosts == [] || !accepted ==> storage.items == old(storage.items)
    {
      if |analyzedPosts| > 0 {
        storage.Save(analyzedPosts, accepted);
      }
    }

    /**
     * `handleGenerate(lines)`. `isAnalyzing` is the hook's flag; `outcome` is what
     * analyzePosts returned for the lines, or `None` when it threw. A new batch is
     * laid out on its own and appended; the dimensions are recomputed over all posts.
     */
    method HandleGenerate(isAnalyzing: bool, outcome: Option<seq<AnalyzedPost>>,
                          compute: seq<AnalyzedPost> -> PersonaDimensions, random: nat -> Draws, trig: Trig)
      requires Valid()
      modifies this
      ensures Valid()
      ensures isAnalyzing || outcome.None? || outcome.value == [] ==>
        scenePhase == old(scenePhase) && analyzedPosts == old(analyzedPosts) && spheres == old(spheres)
        && currentDimensions == old(currentDimensions) && uiHidden == old(uiHidden)
      ensures !isAnalyzing && outcome.Some? && outcome.value != [] ==>
        && analyzedPosts == old(analyzedPosts) + outcome.value
        && spheres == old(spheres) + Layout(outcome.value, random, trig)
        && currentDimensions == Some(compute(analyzedPosts))
        && scenePhase == Analyzing
        && !uiHidden
    {
      if isAnalyzing {
        return;
      }
      if outcome.None? {
        return;
      }
      if |outcome.value| > 0 {
        Accumulate(outcome.value, compute, random, trig);
      }
    }

    /** The successful branch of `handleGenerate`: append the batch and its own spheres. */
    method Accumulate(newAnalyzed: seq<AnalyzedPost>,
                      compute: seq<AnalyzedPost> -> PersonaDimensions, random: nat -> Draws, trig: Trig)
      requires Valid()
      modifies this
      ensures Valid()
      ensures analyzedPosts == old(analyzedPosts) + newAnalyzed
      ensures spheres == old(spheres) + Layout(newAnalyzed, random, trig)
      ensures currentDimensions == Some(compute(analyzedPosts))
      ensures scenePhase == Analyzing && !uiHidden
    {
      var newSpheres := LayoutMemorySpheres(newAnalyzed, random, trig);
      LayoutAligned(newAnalyzed, random, trig);
      AlignedAppend(analyzedPosts, spheres, newAnalyzed, newSpheres);
      spheres := spheres + newSpheres;
      analyzedPosts := analyzedPosts + newAnalyzed;
      currentDimensions := Some(compute(analyzedPosts));
      scenePhase := Analyzing;
      uiHidden := false;
    }

    /**
     * `handleDeleteMemory(id)`: the stored list without the id replaces the posts
     * and everything derived from them; deleting the last post returns to input.
     */
    method HandleDeleteMemory(id: string, accepted: bool,
                              compute: seq<AnalyzedPost> -> PersonaDimensions, random: nat -> Draws, trig: Trig)
      modifies this, storage
      ensures Valid()
      ensures analyzedPosts == Without(old(storage.Loaded()), id)
      ensures forall k :: 0 <= k < |analyzedPosts| ==> analyzedPosts[k].id != id
      ensures spheres == Layout(analyzedPosts, random, trig)
      ensures currentDimensions == Some(compute(analyzedPosts))
      ensures accepted ==> storage.Loaded() == analyzedPosts
      ensures !accepted ==> storage.items == old(storage.items)
      ensures analyzedPosts == [] ==> scenePhase == Input && !uiHidden
      ensures analyzedPosts != [] ==> scenePhase == old(scenePhase) && uiHidden == old(uiHidden)
    {
      var updatedPosts := storage.DeleteMemory(id, accepted);
      Replace(updatedPosts, compute, random, trig);
      if |updatedPosts| == 0 {
        scenePhase := Input;
        uiHidden := false;
      }
    }
  }
}
