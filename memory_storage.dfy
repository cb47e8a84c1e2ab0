/**
 * The persistence layer of the main application (app/utils/memoryStorage.ts):
 * one browser-storage slot under a fixed key holding the saved posts.
 *
 * `localStorage` is the map `items` of a `Storage` object. JSON.stringify and
 * JSON.parse are not modelled: a slot holds either the saved sequence itself
 * or text that `JSON.parse` rejects (`Unparsable`). Stored text that parses
 * to something other than an array of posts (`null`, `{}`) is outside the
 * model: loadMemories would return that value as it is.
 */
module MemoryStorage {
  import opened Types

  /** The one key every operation uses. */
  const StorageKey := "inside_out_memories"

  /** What a storage slot holds: saved posts, or text `JSON.parse` rejects. */
  datatype Slot = Saved(posts: seq<AnalyzedPost>) | Unparsable

  /** What loadMemories returns for a given storage content: [] when the key is missing or does not parse. */
  function LoadFrom(items: map<string, Slot>): (posts: seq<AnalyzedPost>)
    ensures StorageKey !in items ==> posts == []
    ensures StorageKey in items && items[StorageKey].Unparsable? ==> posts == []
    ensures StorageKey in items && items[StorageKey].Saved? ==> posts == items[StorageKey].posts
  {
    if StorageKey in items && items[StorageKey].Saved? then items[StorageKey].posts else []
  }

  /** `current.filter(p => p.id !== id)`. */
  function Without(posts: seq<AnalyzedPost>, id: string): (kept: seq<AnalyzedPost>)
    ensures |kept| <= |posts|
    ensures forall k :: 0 <= k < |kept| ==> kept[k].id != id
    ensures forall k :: 0 <= k < |kept| ==> kept[k] in posts
  {
    if posts == [] then []
    else (if posts[0].id == id then [] else [posts[0]]) + Without(posts[1..], id)
  }

  /** Filtering works piece by piece, so what is kept stays in its original relative order. */
  lemma {:induction false} WithoutAppend(a: seq<AnalyzedPost>, b: seq<AnalyzedPost>, id: string)
    ensures Without(a + b, id) == Without(a, id) + Without(b, id)
  {
    if a == [] {
      assert a + b == b;
    } else {
      assert (a + b)[0] == a[0];
      assert (a + b)[1..] == a[1..] + b;
      WithoutAppend(a[1..], b, id);
    }
  }

  /** Every post with another id is kept. */
  lemma {:induction false} WithoutKeepsOthers(posts: seq<AnalyzedPost>, id: string, p: AnalyzedPost)
    requires p in posts && p.id != id
    ensures p in Without(posts, id)
  {
    if posts[0] != p {
      assert p in posts[1..];
      WithoutKeepsOthers(posts[1..], id, p);
    }
  }

  /** Deleting an id no post carries changes nothing. */
  lemma {:induction false} WithoutAbsent(posts: seq<AnalyzedPost>, id: string)
    requires forall k :: 0 <= k < |posts| ==> posts[k].id != id
    ensures Without(posts, id) == posts
  {
    if posts != [] {
      WithoutAbsent(posts[1..], id);
    }
  }

  /** Deleting twice is deleting once. */
  lemma WithoutIdempotent(posts: seq<AnalyzedPost>, id: string)
    ensures Without(Without(posts, id), id) == Without(posts, id)
  {
    WithoutAbsent(Without(posts, id), id);
  }

  /** Deletions by different ids commute. */
  lemma {:induction false} WithoutCommutes(posts: seq<AnalyzedPost>, id1: string, id2: string)
    ensures Without(Without(posts, id1), id2) == Without(Without(posts, id2), id1)
  {
    if posts != [] {
      var head := posts[0];
      WithoutCommutes(posts[1..], id1, id2);
      WithoutAppend(if head.id == id1 then [] else [head], Without(posts[1..], id1), id2);
      WithoutAppend(if head.id == id2 then [] else [head], Without(posts[1..], id2), id1);
    }
  }

  /** The browser storage, of which the model uses one key. */
  class Storage {
    var items: map<string, Slot>

    /** A storage holding `items`. */
    constructor(items: map<string, Slot>)
      ensures this.items == items
    {
      this.items := items;
    }

    /** `loadMemories()` as a value of the current storage. */
    function Loaded(): seq<AnalyzedPost>
      reads this
    {
      LoadFrom(items)
    }

    /**
     * `saveMemories(posts)`. `accepted` is false when setItem throws (a full
     * quota, say); the error is swallowed and nothing changes.
     */
    method Save(posts: seq<AnalyzedPost>, accepted: bool)
      modifies this
      ensures accepted ==> items == old(items)[StorageKey := Saved(posts)]
      ensures !accepted ==> items == old(items)
      ensures accepted ==> Loaded() == posts
    {
      if accepted {
        items := items[StorageKey := Saved(posts)];
      }
    }

    /** `loadMemories()`. */
    method Load() returns (posts: seq<AnalyzedPost>)
      ensures posts == LoadFrom(items)
    {
      if StorageKey in items && items[StorageKey].Saved? {
        posts := items[StorageKey].posts;
      } else {
        posts := [];
      }
    }

    /** `clearMemories()`: the key goes, and a later load gives []. */
    method Clear()
      modifies this
      ensures items == old(items) - {StorageKey}
      ensures Loaded() == []
    {
      items := items - {StorageKey};
    }

    /** `deleteMemory(id)`: load, filter out the id, save, and return what was saved. */
    method DeleteMemory(id: string, accepted: bool) returns (updated: seq<AnalyzedPost>)
      modifies this
      ensures updated == Without(old(Loaded()), id)
      ensures accepted ==> items == old(items)[StorageKey := Saved(updated)]
      ensures accepted ==> Loaded() == updated
      ensures !accepted ==> items == old(items)
    {
      var current := Load();
      updated := Without(current, id);
      Save(updated, accepted);
    }
  }

  /** Save then load gives back what was saved, and other keys are untouched. */
  lemma SaveLoad(items: map<string, Slot>, posts: seq<AnalyzedPost>, key: string)
    ensures LoadFrom(items[StorageKey := Saved(posts)]) == posts
    ensures key != StorageKey && key in items ==>
      key in items[StorageKey := Saved(posts)] && items[StorageKey := Saved(posts)][key] == items[key]
  {
  }

  /** After a delete, no saved post carries the id; a second delete finds nothing to remove. */
  lemma DeleteLeavesNoId(items: map<string, Slot>, id: string)
    ensures var after := items[StorageKey := Saved(Without(LoadFrom(items), id))];
      && (forall k :: 0 <= k < |LoadFrom(after)| ==> LoadFrom(after)[k].id != id)
      && Without(LoadFrom(after), id) == LoadFrom(after)
  {
    WithoutIdempotent(LoadFrom(items), id);
  }
}
