/**
 * The layout engine of the main application (app/utils/layout3d.ts): one
 * in-order pass over the posts that places each in the timeline, humanoid and
 * castle modes. The castle mode sorts each post's colour into one of five
 * emotion towers and stacks the posts of a tower in input order, using a
 * counter per tower that the pass threads from post to post.
 */
module Layout3d {
  import opened Types
  import opened Wrappers
  import opened Text
  import opened Placement
  import ColorMap

  /** The five castle towers (`emotions` in the source), in ring order. */
  datatype Cluster = Joy | Sadness | Anxiety | Envy | Embarrassment

  const Emotions: seq<Cluster> := [Joy, Sadness, Anxiety, Envy, Embarrassment]

  const TowerRadius: real := 12.0

  /** `getColorCategory(color)`: substring tests in a fixed order; pink/purple is the default. */
  function GetColorCategory(color: string): Cluster {
    if Contains(color, "#FFD700") || Contains(color, "#FFFFE0") then Joy
    else if Contains(color, "#4A90E2") || Contains(color, "#E0F7FA") then Sadness
    else if Contains(color, "#FF6B35") || Contains(color, "#FFE0B2") then Anxiety
    else if Contains(color, "#00D9B5") || Contains(color, "#E0F2F1") then Envy
    else Embarrassment
  }

  /** For a 7-character colour, each substring test of getColorCategory is an equality test. */
  lemma ColorCategoryOfHex(color: string)
    requires |color| == 7
    ensures GetColorCategory(color) ==
      if color == "#FFD700" || color == "#FFFFE0" then Joy
      else if color == "#4A90E2" || color == "#E0F7FA" then Sadness
      else if color == "#FF6B35" || color == "#FFE0B2" then Anxiety
      else if color == "#00D9B5" || color == "#E0F2F1" then Envy
      else Embarrassment
  {
    ContainsSameLength(color, "#FFD700");
    ContainsSameLength(color, "#FFFFE0");
    ContainsSameLength(color, "#4A90E2");
    ContainsSameLength(color, "#E0F7FA");
    ContainsSameLength(color, "#FF6B35");
    ContainsSameLength(color, "#FFE0B2");
    ContainsSameLength(color, "#00D9B5");
    ContainsSameLength(color, "#E0F2F1");
  }

  /** The tower of each colour getSphereColor returns: its namesake, and neutral grey falls to Embarrassment. */
  lemma ClusterOfSphereColors()
    ensures GetColorCategory(ColorMap.EmotionColor(ColorMap.Joy)) == Joy
    ensures GetColorCategory(ColorMap.EmotionColor(ColorMap.Sadness)) == Sadness
    ensures GetColorCategory(ColorMap.EmotionColor(ColorMap.Anxiety)) == Anxiety
    ensures GetColorCategory(ColorMap.EmotionColor(ColorMap.Envy)) == Envy
    ensures GetColorCategory(ColorMap.EmotionColor(ColorMap.Embarrassment)) == Embarrassment
    ensures GetColorCategory(ColorMap.EmotionColor(ColorMap.Neutral)) == Embarrassment
  {
    ColorCategoryOfHex(ColorMap.EmotionColor(ColorMap.Joy));
    ColorCategoryOfHex(ColorMap.EmotionColor(ColorMap.Sadness));
    ColorCategoryOfHex(ColorMap.EmotionColor(ColorMap.Anxiety));
    ColorCategoryOfHex(ColorMap.EmotionColor(ColorMap.Envy));
    ColorCategoryOfHex(ColorMap.EmotionColor(ColorMap.Embarrassment));
    ColorCategoryOfHex(ColorMap.EmotionColor(ColorMap.Neutral));
  }

  /** `emotions.indexOf(category)`, or -1. */
  function IndexInEmotions(c: Cluster): (i: int)
    ensures 0 <= i < |Emotions| && Emotions[i] == c
  {
    match c
    case Joy => 0
    case Sadness => 1
    case Anxiety => 2
    case Envy => 3
    case Embarrassment => 4
  }

  /** `emotionIndex >= 0 ? emotionIndex : 4`. */
  function TowerIndex(c: Cluster): int {
    var i := IndexInEmotions(c);
    if i >= 0 then i else 4
  }

  /** Every cluster has its own tower slot in 0..4. */
  lemma TowerIndexRange(c1: Cluster, c2: Cluster)
    ensures 0 <= TowerIndex(c1) <= 4
    ensures Emotions[TowerIndex(c1)] == c1
    ensures TowerIndex(c1) == TowerIndex(c2) ==> c1 == c2
  {
  }

  /** The colour-derived tower of a post. */
  function ClusterOf(p: AnalyzedPost): Cluster {
    GetColorCategory(ColorMap.GetSphereColor(p.sentimentScore, Some(p.category)))
  }

  /** The tower of every post, in input order. */
  function Clusters(posts: seq<AnalyzedPost>): (cs: seq<Cluster>)
    ensures |cs| == |posts|
  {
    seq(|posts|, k requires 0 <= k < |posts| => ClusterOf(posts[k]))
  }

  /** The number of entries before index `i` that are tower `c`: the counter's value at post `i`. */
  function CountBefore(cs: seq<Cluster>, i: nat, c: Cluster): nat
    requires i <= |cs|
  {
    if i == 0 then 0
    else CountBefore(cs, i - 1, c) + (if cs[i - 1] == c then 1 else 0)
  }

  /** The draws the castle placement makes for one post, in call order: angle jitter, then x, y and z offsets. */
  datatype CastleDraws = CastleDraws(jitter: real, dx: real, dy: real, dz: real)

  /** All draws for one post. */
  datatype Draws = Draws(humanoid: HumanoidDraws, castle: CastleDraws)

  predicate UnitDraws(d: Draws) {
    UnitHumanoidDraws(d.humanoid) && Unit(d.castle.jitter) && Unit(d.castle.dx)
    && Unit(d.castle.dy) && Unit(d.castle.dz)
  }

  /** `(towerIndex / 5) * Math.PI * 2`. */
  function AngleStart(towerIndex: int): real {
    ((towerIndex as real) / 5.0) * Pi * 2.0
  }

  /** The castle position of the post at `level` (its counter value) in tower `towerIndex`. */
  function CastlePosition(towerIndex: int, level: nat, d: CastleDraws, trig: Trig): Vec3 {
    var angle := AngleStart(towerIndex) + (d.jitter - 0.5) * 0.8;
    var height := (level as real) * 0.8;
    Vec3(trig.cos(angle) * TowerRadius + (d.dx - 0.5) * 2.0,
         height - 8.0 + d.dy * 0.5,
         trig.sin(angle) * TowerRadius + (d.dz - 0.5) * 2.0)
  }

  /** Castle height: the level-k post sits at 0.8k - 8 plus less than 0.5, so never below -8. */
  lemma CastleHeight(towerIndex: int, level: nat, d: CastleDraws, trig: Trig)
    requires Unit(d.dy)
    ensures var y := CastlePosition(towerIndex, level, d, trig).y;
      (level as real) * 0.8 - 8.0 <= y < (level as real) * 0.8 - 7.5 && y >= -8.0
  {
  }

  /** The tower angles are evenly spaced: base angle k * 2π / 5 for k in 0..4. */
  lemma AngleStartSpacing(c: Cluster)
    ensures AngleStart(TowerIndex(c)) == (TowerIndex(c) as real) * (2.0 * Pi / 5.0)
    ensures 0.0 <= AngleStart(TowerIndex(c)) < 2.0 * Pi
  {
  }

  /** The main application's sphere record: MemorySphere plus its castle position. */
  datatype CastleSphere = CastleSphere(
    id: string,
    post: AnalyzedPost,
    radius: real,
    color: string,
    timelinePosition: Vec3,
    humanoidPosition: Vec3,
    castlePosition: Vec3)


  /** The sphere of post `i`, given its counter value `level`. */
  function PlaceSphere(posts: seq<AnalyzedPost>, i: nat, level: nat, d: Draws, trig: Trig): CastleSphere
    requires i < |posts|
  {
    var p := posts[i];
    var color := ColorMap.GetSphereColor(p.sentimentScore, Some(p.category));
    CastleSphere(
      p.id, p, Radius(p.intensity), color,
      TimelinePosition(i, |posts|, p.sentimentScore, trig),
      HumanoidPosition(p, i, d.humanoid, trig),
      CastlePosition(TowerIndex(GetColorCategory(color)), level, d.castle, trig))
  }

  /** The level of post `i`: the number of earlier posts in its tower. */
  function Level(posts: seq<AnalyzedPost>, i: nat): nat
    requires i < |posts|
  {
    CountBefore(Clusters(posts), i, ClusterOf(posts[i]))
  }

  /** What `layoutMemorySpheres` yields for post `i`. */
  function SphereAt(posts: seq<AnalyzedPost>, i: nat, d: Draws, trig: Trig): CastleSphere
    requires i < |posts|
  {
    PlaceSphere(posts, i, Level(posts, i), d, trig)
  }

  /** The counter of tower `c` (a missing entry reads as 0). */
  function Counter(towers: map<Cluster, nat>, c: Cluster): nat {
    if c in towers then towers[c] else 0
  }

  /** Bumping the counter of entry `i`'s tower turns the counters before `i` into those before `i + 1`. */
  lemma TowerUpdate(cs: seq<Cluster>, i: nat, towers: map<Cluster, nat>, next: map<Cluster, nat>)
    requires i < |cs| && cs[i] in towers
    requires next == towers[cs[i] := towers[cs[i]] + 1]
    requires forall c :: Counter(towers, c) == CountBefore(cs, i, c)
    ensures towers[cs[i]] == CountBefore(cs, i, cs[i])
    ensures forall c :: Counter(next, c) == CountBefore(cs, i + 1, c)
  {
    forall c ensures Counter(next, c) == CountBefore(cs, i + 1, c) {
      assert CountBefore(cs, i + 1, c) == CountBefore(cs, i, c) + (if cs[i] == c then 1 else 0);
    }
  }

  /**
   * One iteration of the pass in `layoutMemorySpheres`: classify post `i`, read
   * and bump its tower's counter, and place its sphere at the counter's old value.
   */
  method PlacePost(posts: seq<AnalyzedPost>, i: nat, towers: map<Cluster, nat>, d: Draws, trig: Trig)
    returns (sphere: CastleSphere, next: map<Cluster, nat>)
    requires i < |posts|
    requires forall c :: Counter(towers, c) == CountBefore(Clusters(posts), i, c)
    ensures sphere == SphereAt(posts, i, d, trig)
    ensures forall c :: Counter(next, c) == CountBefore(Clusters(posts), i + 1, c)
  {
    var post := posts[i];
    var color := ColorMap.GetSphereColor(post.sentimentScore, Some(post.category));
    var category := GetColorCategory(color);
    ghost var cs := Clusters(posts);
    assert cs[i] == category;
    next := towers;
    if category !in next {
      next := next[category := 0];
    }
    var height := next[category];
    var bumped := next[category := next[category] + 1];
    TowerUpdate(cs, i, next, bumped);
    next := bumped;
    sphere := PlaceSphere(posts, i, height, d, trig);
  }

  /** The spheres `layoutMemorySpheres` yields for the first `n` posts, in input order. */
  function LayoutPrefix(posts: seq<AnalyzedPost>, n: nat, random: nat -> Draws, trig: Trig): (spheres: seq<CastleSphere>)
    requires n <= |posts|
    ensures |spheres| == n
  {
    if n == 0 then [] else LayoutPrefix(posts, n - 1, random, trig) + [SphereAt(posts, n - 1, random(n - 1), trig)]
  }

  /** The spheres of all posts. */
  function Layout(posts: seq<AnalyzedPost>, random: nat -> Draws, trig: Trig): seq<CastleSphere> {
    LayoutPrefix(posts, |posts|, random, trig)
  }

  /** The sequence f(0), ..., f(n - 1). */
  function Tabulate<T>(n: nat, f: nat --> T): (r: seq<T>)
    requires forall j: nat :: j < n ==> f.requires(j)
    ensures |r| == n
  {
    if n == 0 then [] else Tabulate(n - 1, f) + [f(n - 1)]
  }

  lemma {:induction false} TabulateAt<T>(n: nat, f: nat --> T, i: nat)
    requires forall j: nat :: j < n ==> f.requires(j)
    requires i < n
    ensures Tabulate(n, f)[i] == f(i)
  {
    if i < n - 1 {
      TabulateAt(n - 1, f, i);
    }
  }

  /** Post index to sphere. */
  function SphereFn(posts: seq<AnalyzedPost>, random: nat -> Draws, trig: Trig): (f: nat --> CastleSphere)
    ensures forall j: nat :: j < |posts| ==> f.requires(j) && f(j) == SphereAt(posts, j, random(j), trig)
  {
    (j: nat) requires j < |posts| => SphereAt(posts, j, random(j), trig)
  }

  lemma {:induction false} PrefixIsTabulate(posts: seq<AnalyzedPost>, n: nat, random: nat -> Draws, trig: Trig)
    requires n <= |posts|
    ensures LayoutPrefix(posts, n, random, trig) == Tabulate(n, SphereFn(posts, random, trig))
  {
    if n > 0 {
      PrefixIsTabulate(posts, n - 1, random, trig);
    }
  }

  /** Layout places every post: one sphere per post, sphere `i` from post `i` and draw `random(i)`. */
  lemma LayoutSpheres(posts: seq<AnalyzedPost>, random: nat -> Draws, trig: Trig)
    ensures |Layout(posts, random, trig)| == |posts|
    ensures forall i :: 0 <= i < |posts| ==> Layout(posts, random, trig)[i] == SphereAt(posts, i, random(i), trig)
  {
    PrefixIsTabulate(posts, |posts|, random, trig);
    forall i | 0 <= i < |posts|
      ensures Layout(posts, random, trig)[i] == SphereAt(posts, i, random(i), trig)
    {
      TabulateAt(|posts|, SphereFn(posts, random, trig), i);
    }
  }

  /**
   * `layoutMemorySpheres(posts)`: `random(i)` are the draws made for post `i`.
   * The tower counters start empty on every call and are updated post by post.
   */
  method LayoutMemorySpheres(posts: seq<AnalyzedPost>, random: nat -> Draws, trig: Trig)
    returns (spheres: seq<CastleSphere>)
    ensures spheres == Layout(posts, random, trig)
  {
    var towers: map<Cluster, nat> := map[];
    spheres := [];
    var i := 0;
    while i < |posts|
      invariant 0 <= i <= |posts|
      invariant spheres == LayoutPrefix(posts, i, random, trig)
      invariant forall c :: Counter(towers, c) == CountBefore(Clusters(posts), i, c)
    {
      var sphere;
      sphere, towers := PlacePost(posts, i, towers, random(i), trig);
      spheres := spheres + [sphere];
      i := i + 1;
    }
  }

  /** Sphere i carries the id, the post, the colour and the radius of post i. */
  lemma SphereKeepsPost(posts: seq<AnalyzedPost>, i: nat, d: Draws, trig: Trig)
    requires i < |posts|
    ensures SphereAt(posts, i, d, trig).id == posts[i].id
    ensures SphereAt(posts, i, d, trig).post == posts[i]
    ensures SphereAt(posts, i, d, trig).color == ColorMap.GetSphereColor(posts[i].sentimentScore, Some(posts[i].category))
    ensures SphereAt(posts, i, d, trig).radius == Radius(posts[i].intensity)
  {
  }

  /** Counters only grow along the pass. */
  lemma {:induction false} CountBeforeMonotone(cs: seq<Cluster>, i: nat, j: nat, c: Cluster)
    requires i <= j <= |cs|
    ensures CountBefore(cs, i, c) <= CountBefore(cs, j, c)
    decreases j
  {
    if i < j {
      CountBeforeMonotone(cs, i, j - 1, c);
    }
  }

  /** Two posts of the same tower never share a level: a later one sits strictly higher. */
  lemma LaterPostsStackHigher(posts: seq<AnalyzedPost>, i: nat, j: nat)
    requires i < j < |posts|
    requires ClusterOf(posts[i]) == ClusterOf(posts[j])
    ensures Level(posts, i) < Level(posts, j)
  {
    var cs := Clusters(posts);
    var c := cs[i];
    CountBeforeMonotone(cs, i + 1, j, c);
    assert CountBefore(cs, i + 1, c) == CountBefore(cs, i, c) + 1;
  }

  /** The sum of the five tower counters after `i` entries. */
  function TotalCount(cs: seq<Cluster>, i: nat): nat
    requires i <= |cs|
  {
    CountBefore(cs, i, Joy) + CountBefore(cs, i, Sadness) + CountBefore(cs, i, Anxiety)
    + CountBefore(cs, i, Envy) + CountBefore(cs, i, Embarrassment)
  }

  /** Every post lands in exactly one tower: after the pass the counters add up to the number of posts. */
  lemma {:induction false} CountsSumToLength(cs: seq<Cluster>, i: nat)
    requires i <= |cs|
    ensures TotalCount(cs, i) == i
  {
    if i > 0 {
      CountsSumToLength(cs, i - 1);
    }
  }

  /** The first post of each tower sits on level 0, whatever came before it in other towers. */
  lemma {:induction false} FirstOfTowerAtGround(cs: seq<Cluster>, i: nat, c: Cluster)
    requires i <= |cs|
    requires forall j :: 0 <= j < i ==> cs[j] != c
    ensures CountBefore(cs, i, c) == 0
  {
    if i > 0 {
      FirstOfTowerAtGround(cs, i - 1, c);
    }
  }

  /** The castle y of every sphere is at least -8, and it is fixed by the sphere's level. */
  lemma CastleFloor(posts: seq<AnalyzedPost>, i: nat, d: Draws, trig: Trig)
    requires i < |posts| && UnitDraws(d)
    ensures SphereAt(posts, i, d, trig).castlePosition.y >= -8.0
    ensures SphereAt(posts, i, d, trig).castlePosition.y == (Level(posts, i) as real) * 0.8 - 8.0 + d.castle.dy * 0.5
  {
    CastleHeight(TowerIndex(ClusterOf(posts[i])), Level(posts, i), d.castle, trig);
  }
}
