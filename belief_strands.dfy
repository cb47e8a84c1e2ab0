/**
 * The strand selection of the main application
 * (app/components/BeliefStrands.tsx): when visible, one strand from every
 * "core" memory at the bottom of the castle towards the "self" above, provided
 * there is at least one memory of each kind. The curve geometry and the line
 * meshes are not part of this model; a strand is its sphere's id and colour.
 *
 * The source picks core memories by castle height below -8, which no sphere
 * of the layout reaches (every castle y is at least -8). The model keeps that
 * selection as `StrandsAsWritten` and uses the bottom level, y below -7.5, in
 * `Strands`.
 */
module BeliefStrands {
  import opened Types
  import opened Placement
  import opened Layout3d

  /** The threshold the source uses for core memories. */
  const AsWrittenCoreBelow: real := -8.0

  /** The height below which a sphere is on the bottom level of its tower. */
  const CoreBelow: real := -7.5

  /** Self memories sit above this height. */
  const SelfAbove: real := 4.0

  /** What a strand keeps of its core memory. */
  datatype Strand = Strand(id: string, color: string)

  /** `spheres.filter(s => s.castlePosition[1] < threshold)`: every sphere below the threshold, and only those. */
  function Below(spheres: seq<CastleSphere>, threshold: real): (core: seq<CastleSphere>)
    ensures |core| <= |spheres|
    ensures forall k :: 0 <= k < |core| ==> core[k].castlePosition.y < threshold && core[k] in spheres
    ensures forall k :: 0 <= k < |spheres| && spheres[k].castlePosition.y < threshold ==> spheres[k] in core
  {
    if spheres == [] then []
    else
      assert forall k :: 1 <= k < |spheres| ==> spheres[k] == spheres[1..][k - 1];
      (if spheres[0].castlePosition.y < threshold then [spheres[0]] else []) + Below(spheres[1..], threshold)
  }

  /** `spheres.filter(s => s.castlePosition[1] > 4)`: every sphere above the threshold, and only those. */
  function Above(spheres: seq<CastleSphere>, threshold: real): (self: seq<CastleSphere>)
    ensures |self| <= |spheres|
    ensures forall k :: 0 <= k < |self| ==> self[k].castlePosition.y > threshold && self[k] in spheres
    ensures forall k :: 0 <= k < |spheres| && spheres[k].castlePosition.y > threshold ==> spheres[k] in self
  {
    if spheres == [] then []
    else
      assert forall k :: 1 <= k < |spheres| ==> spheres[k] == spheres[1..][k - 1];
      (if spheres[0].castlePosition.y > threshold then [spheres[0]] else []) + Above(spheres[1..], threshold)
  }

  /** The filter keeps order: filtering a concatenation concatenates the filtered parts. */
  lemma {:induction false} BelowAppend(a: seq<CastleSphere>, b: seq<CastleSphere>, threshold: real)
    ensures Below(a + b, threshold) == Below(a, threshold) + Below(b, threshold)
  {
    if a == [] {
      assert a + b == b;
    } else {
      assert (a + b)[0] == a[0];
      assert (a + b)[1..] == a[1..] + b;
      BelowAppend(a[1..], b, threshold);
    }
  }

  /** The same for the self memories. */
  lemma {:induction false} AboveAppend(a: seq<CastleSphere>, b: seq<CastleSphere>, threshold: real)
    ensures Above(a + b, threshold) == Above(a, threshold) + Above(b, threshold)
  {
    if a == [] {
      assert a + b == b;
    } else {
      assert (a + b)[0] == a[0];
      assert (a + b)[1..] == a[1..] + b;
      AboveAppend(a[1..], b, threshold);
    }
  }

  /** A single sphere is kept exactly when it is below (above) the threshold. */
  lemma FilterSingle(s: CastleSphere, threshold: real)
    ensures Below([s], threshold) == if s.castlePosition.y < threshold then [s] else []
    ensures Above([s], threshold) == if s.castlePosition.y > threshold then [s] else []
  {
    assert [s][1..] == [];
  }

  /** `coreMemories.map(core => ({ id, color, ... }))`. */
  function ToStrands(core: seq<CastleSphere>): (strands: seq<Strand>)
    ensures |strands| == |core|
    ensures forall k :: 0 <= k < |core| ==> strands[k] == Strand(core[k].id, core[k].color)
  {
    seq(|core|, k requires 0 <= k < |core| => Strand(core[k].id, core[k].color))
  }

  /**
   * The `strands` memo for a given core threshold: when visible and both
   * kinds of memory exist, one strand per core memory in order; otherwise none.
   */
  function StrandsWith(spheres: seq<CastleSphere>, visible: bool, coreBelow: real): (strands: seq<Strand>)
    ensures strands != [] <==> visible && Below(spheres, coreBelow) != [] && Above(spheres, SelfAbove) != []
    ensures strands != [] ==> strands == ToStrands(Below(spheres, coreBelow))
  {
    if !visible then []
    else
      var coreMemories := Below(spheres, coreBelow);
      var selfMemories := Above(spheres, SelfAbove);
      if coreMemories == [] || selfMemories == [] then [] else ToStrands(coreMemories)
  }

  /** The selection as the source writes it. */
  function StrandsAsWritten(spheres: seq<CastleSphere>, visible: bool): seq<Strand> {
    StrandsWith(spheres, visible, AsWrittenCoreBelow)
  }

  /** The selection of the bottom level. */
  function Strands(spheres: seq<CastleSphere>, visible: bool): seq<Strand> {
    StrandsWith(spheres, visible, CoreBelow)
  }

  /** Nothing is below a threshold no sphere goes under. */
  lemma {:induction false} BelowNone(spheres: seq<CastleSphere>, threshold: real)
    requires forall k :: 0 <= k < |spheres| ==> spheres[k].castlePosition.y >= threshold
    ensures Below(spheres, threshold) == []
  {
    if spheres != [] {
      BelowNone(spheres[1..], threshold);
    }
  }

  /** The castle y of every laid-out sphere is at least -8. */
  lemma LayoutFloor(posts: seq<AnalyzedPost>, random: nat -> Draws, trig: Trig)
    requires forall i: nat :: i < |posts| ==> UnitDraws(random(i))
    ensures forall k :: 0 <= k < |Layout(posts, random, trig)| ==> Layout(posts, random, trig)[k].castlePosition.y >= -8.0
  {
    LayoutSpheres(posts, random, trig);
    forall k | 0 <= k < |posts|
      ensures Layout(posts, random, trig)[k].castlePosition.y >= -8.0
    {
      CastleFloor(posts, k, random(k), trig);
    }
  }

  /** As written, the layout never yields a strand: no sphere lies below -8. */
  lemma AsWrittenNeverStrands(posts: seq<AnalyzedPost>, random: nat -> Draws, trig: Trig, visible: bool)
    requires forall i: nat :: i < |posts| ==> UnitDraws(random(i))
    ensures StrandsAsWritten(Layout(posts, random, trig), visible) == []
  {
    LayoutFloor(posts, random, trig);
    BelowNone(Layout(posts, random, trig), AsWrittenCoreBelow);
  }

  /** A sphere of the bottom level, just above -8, starts a strand only with the corrected threshold. */
  lemma BottomLevelMissedAsWritten(core: CastleSphere, self: CastleSphere)
    requires -8.0 <= core.castlePosition.y < CoreBelow
    requires self.castlePosition.y > SelfAbove
    ensures StrandsAsWritten([core, self], true) == []
    ensures Strands([core, self], true) == [Strand(core.id, core.color)]
  {
    var both := [core, self];
    assert both[1..] == [self] && [self][1..] == [];
    assert Below(both, CoreBelow) == [core] by {
      assert Below([self], CoreBelow) == [];
    }
    assert Below(both, AsWrittenCoreBelow) == [] by {
      assert Below([self], AsWrittenCoreBelow) == [];
    }
    assert Above(both, SelfAbove) == [self] by {
      assert Above([self], SelfAbove) == [self];
    }
    assert ToStrands([core]) == [Strand(core.id, core.color)];
  }

  /** With the corrected threshold, sphere `i` is a core memory exactly when it is the first of its tower. */
  lemma CoreIsBottomLevel(posts: seq<AnalyzedPost>, random: nat -> Draws, trig: Trig, i: nat)
    requires i < |posts| && UnitDraws(random(i))
    ensures |Layout(posts, random, trig)| == |posts|
    ensures Layout(posts, random, trig)[i].castlePosition.y < CoreBelow <==> Level(posts, i) == 0
  {
    LayoutSpheres(posts, random, trig);
    CastleFloor(posts, i, random(i), trig);
  }

  /** The spheres among the first `n` whose flag in `keep` is set, in order. */
  function KeptWhere(spheres: seq<CastleSphere>, keep: seq<bool>, n: nat): seq<CastleSphere>
    requires n <= |spheres| == |keep|
  {
    if n == 0 then [] else KeptWhere(spheres, keep, n - 1) + (if keep[n - 1] then [spheres[n - 1]] else [])
  }

  /** For each post, whether it is the first of its tower. */
  function TowerStarts(posts: seq<AnalyzedPost>): (starts: seq<bool>)
    ensures |starts| == |posts|
  {
    seq(|posts|, k requires 0 <= k < |posts| => Level(posts, k) == 0)
  }

  /** The spheres whose posts are the first of their tower, in post order. */
  function FirstOfTowers(posts: seq<AnalyzedPost>, spheres: seq<CastleSphere>): seq<CastleSphere>
    requires |spheres| == |posts|
  {
    KeptWhere(spheres, TowerStarts(posts), |posts|)
  }

  /** When the flags mark exactly the spheres below -7.5, the filter keeps the flagged spheres, in order. */
  lemma {:induction false} BelowIsKeptWhere(spheres: seq<CastleSphere>, keep: seq<bool>, n: nat)
    requires n <= |spheres| == |keep|
    requires forall k :: 0 <= k < |spheres| ==> (spheres[k].castlePosition.y < CoreBelow <==> keep[k])
    ensures Below(spheres[..n], CoreBelow) == KeptWhere(spheres, keep, n)
  {
    if n > 0 {
      BelowIsKeptWhere(spheres, keep, n - 1);
      assert spheres[..n] == spheres[..n - 1] + [spheres[n - 1]];
      BelowAppend(spheres[..n - 1], [spheres[n - 1]], CoreBelow);
      FilterSingle(spheres[n - 1], CoreBelow);
    }
  }

  /** With the corrected threshold, the core memories of a layout are the first sphere of each tower, in post order. */
  lemma CoreOfLayout(posts: seq<AnalyzedPost>, random: nat -> Draws, trig: Trig)
    requires forall i: nat :: i < |posts| ==> UnitDraws(random(i))
    ensures |Layout(posts, random, trig)| == |posts|
    ensures Below(Layout(posts, random, trig), CoreBelow) == FirstOfTowers(posts, Layout(posts, random, trig))
  {
    var spheres := Layout(posts, random, trig);
    LayoutSpheres(posts, random, trig);
    var starts := TowerStarts(posts);
    forall k | 0 <= k < |spheres|
      ensures spheres[k].castlePosition.y < CoreBelow <==> starts[k]
    {
      CoreIsBottomLevel(posts, random, trig, k);
    }
    BelowIsKeptWhere(spheres, starts, |posts|);
    assert spheres[..|posts|] == spheres;
  }

  /** A visible layout with a self memory draws one strand per tower's first sphere, in post order. */
  lemma StrandsOfLayout(posts: seq<AnalyzedPost>, random: nat -> Draws, trig: Trig)
    requires forall i: nat :: i < |posts| ==> UnitDraws(random(i))
    requires Above(Layout(posts, random, trig), SelfAbove) != []
    ensures |Layout(posts, random, trig)| == |posts|
    ensures Strands(Layout(posts, random, trig), true) == ToStrands(FirstOfTowers(posts, Layout(posts, random, trig)))
  {
    CoreOfLayout(posts, random, trig);
  }

  /** Core and self memories are disjoint: no sphere is both below -7.5 and above 4. */
  lemma CoreAndSelfDisjoint(spheres: seq<CastleSphere>, s: CastleSphere)
    ensures !(s in Below(spheres, CoreBelow) && s in Above(spheres, SelfAbove))
  {
  }
}
