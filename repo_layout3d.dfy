/**
 * The layout engine of the gallery variant (app/github-repo/utils/layout3d.ts):
 * a single `posts.map` that places each post in timeline and humanoid mode.
 * Unlike the main application there is no castle mode and no state carried
 * from one post to the next.
 */
module RepoLayout3d {
  import opened Types
  import opened Wrappers
  import opened Placement
  import RepoColorMap

  /** The sphere of post `p` at index `i` among `count` posts. */
  function SphereFor(p: AnalyzedPost, i: nat, count: nat, d: HumanoidDraws, trig: Trig): MemorySphere {
    MemorySphere(
      p.id, p, Radius(p.intensity),
      RepoColorMap.GetSphereColor(p.sentimentScore, Some(p.category)),
      TimelinePosition(i, count, p.sentimentScore, trig),
      HumanoidPosition(p, i, d, trig))
  }

  /** `layoutMemorySpheres(posts)`: `random(i)` are the draws made for post `i`. */
  function LayoutMemorySpheres(posts: seq<AnalyzedPost>, random: nat -> HumanoidDraws, trig: Trig): (spheres: seq<MemorySphere>)
    ensures |spheres| == |posts|
  {
    seq(|posts|, i requires 0 <= i < |posts| => SphereFor(posts[i], i, |posts|, random(i), trig))
  }

  /** One sphere per post: sphere `i` carries the id and the post of post `i`, this variant's colour and the radius of its intensity. */
  lemma SpheresFollowPosts(posts: seq<AnalyzedPost>, random: nat -> HumanoidDraws, trig: Trig, i: nat)
    requires i < |posts|
    ensures LayoutMemorySpheres(posts, random, trig)[i].id == posts[i].id
    ensures LayoutMemorySpheres(posts, random, trig)[i].post == posts[i]
    ensures LayoutMemorySpheres(posts, random, trig)[i].color
         == RepoColorMap.GetSphereColor(posts[i].sentimentScore, Some(posts[i].category))
    ensures LayoutMemorySpheres(posts, random, trig)[i].radius == 0.15 + posts[i].intensity * 0.05
    ensures LayoutMemorySpheres(posts, random, trig)[i].timelinePosition.y == 3.0 * posts[i].sentimentScore
  {
    assert LayoutMemorySpheres(posts, random, trig)[i] == SphereFor(posts[i], i, |posts|, random(i), trig);
  }

  /** An empty batch lays out to no spheres. */
  lemma EmptyLayout(random: nat -> HumanoidDraws, trig: Trig)
    ensures LayoutMemorySpheres([], random, trig) == []
  {
  }

  /** Consecutive spheres are 0.6 apart along the timeline. */
  lemma TimelineSpacing(posts: seq<AnalyzedPost>, random: nat -> HumanoidDraws, trig: Trig, i: nat)
    requires i + 1 < |posts|
    ensures LayoutMemorySpheres(posts, random, trig)[i + 1].timelinePosition.x
          - LayoutMemorySpheres(posts, random, trig)[i].timelinePosition.x == 0.6
  {
    var spheres := LayoutMemorySpheres(posts, random, trig);
    assert spheres[i] == SphereFor(posts[i], i, |posts|, random(i), trig);
    assert spheres[i + 1] == SphereFor(posts[i + 1], i + 1, |posts|, random(i + 1), trig);
  }

  /**
   * No state crosses posts: two batches of the same length that agree on post
   * `i` and on its draws give the same sphere `i`, whatever the other posts are.
   */
  lemma SphereIsLocal(posts1: seq<AnalyzedPost>, posts2: seq<AnalyzedPost>,
                      random1: nat -> HumanoidDraws, random2: nat -> HumanoidDraws, trig: Trig, i: nat)
    requires |posts1| == |posts2| && i < |posts1|
    requires posts1[i] == posts2[i] && random1(i) == random2(i)
    ensures LayoutMemorySpheres(posts1, random1, trig)[i] == LayoutMemorySpheres(posts2, random2, trig)[i]
  {
  }
}
