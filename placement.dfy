/**
 * The per-post placement formulas that both layout engines share
 * (app/utils/layout3d.ts and app/github-repo/utils/layout3d.ts hold the same
 * text for them): timeline coordinates, radius, and the humanoid body region.
 *
 * Every `Math.random()` draw is a real in [0, 1) supplied by the caller;
 * `Math.cos`, `Math.sin`, `Math.acos` and `Math.cbrt` are supplied as a `Trig`
 * record whose only known facts are the bounds in `TrigBounded`.
 */
module Placement {
  import opened Types

  const Pi: real := 3.141592653589793

  /** The transcendental functions the layout calls. */
  datatype Trig = Trig(cos: real -> real, sin: real -> real, acos: real -> real, cbrt: real -> real)

  /** What the layout may assume of them: cos and sin in [-1, 1], cbrt maps [0, 1) into [0, 1). */
  ghost predicate TrigBounded(t: Trig) {
    && (forall x :: -1.0 <= t.cos(x) <= 1.0)
    && (forall x :: -1.0 <= t.sin(x) <= 1.0)
    && (forall x :: 0.0 <= x < 1.0 ==> 0.0 <= t.cbrt(x) < 1.0)
  }

  /** A value of `Math.random()`. */
  predicate Unit(r: real) {
    0.0 <= r < 1.0
  }

  /**
   * The draws getHumanoidPosition makes for one post, in call order:
   * `zone` is the fallback-zone draw (made only for uncategorised posts);
   * a head point uses a, b, c (u, v and the cube-root argument);
   * a torso point uses a, b, c (x, y, z);
   * a limb point uses a (t) and b, c, d (the jitter of x, y, z);
   * the fallback leg line uses a (its end x), b (t) and c, d, e (jitter).
   */
  datatype HumanoidDraws = HumanoidDraws(zone: real, a: real, b: real, c: real, d: real, e: real)

  predicate UnitHumanoidDraws(d: HumanoidDraws) {
    Unit(d.zone) && Unit(d.a) && Unit(d.b) && Unit(d.c) && Unit(d.d) && Unit(d.e)
  }

  // ---- timeline mode and radius ----

  /** `[(i - count / 2) * 0.6, sentimentScore * 3, cos(i * 0.2) * 2 - 2]`. */
  function TimelinePosition(i: nat, count: nat, sentimentScore: real, trig: Trig): Vec3 {
    Vec3(((i as real) - (count as real) / 2.0) * 0.6,
         sentimentScore * 3.0,
         trig.cos((i as real) * 0.2) * 2.0 - 2.0)
  }

  /** Consecutive spheres are 0.6 apart along x; height is three times the sentiment, so in [-3, 3]; depth lies in [-4, 0]. */
  lemma TimelineProperties(i: nat, count: nat, s: real, trig: Trig)
    requires TrigBounded(trig)
    ensures TimelinePosition(i + 1, count, s, trig).x - TimelinePosition(i, count, s, trig).x == 0.6
    ensures TimelinePosition(i, count, s, trig).y == 3.0 * s
    ensures -1.0 <= s <= 1.0 ==> -3.0 <= TimelinePosition(i, count, s, trig).y <= 3.0
    ensures -4.0 <= TimelinePosition(i, count, s, trig).z <= 0.0
  {
    assert -1.0 <= trig.cos((i as real) * 0.2) <= 1.0;
  }

  /** `0.15 + (intensity / 5) * 0.25`. */
  function Radius(intensity: real): real {
    0.15 + (intensity / 5.0) * 0.25
  }

  /** The radius grows strictly with intensity: 0.2 at intensity 1, 0.4 at intensity 5. */
  lemma RadiusMonotone(i1: real, i2: real)
    ensures i1 < i2 ==> Radius(i1) < Radius(i2)
    ensures Radius(1.0) == 0.2 && Radius(5.0) == 0.4
    ensures 1.0 <= i1 <= 5.0 ==> 0.2 <= Radius(i1) <= 0.4
  {
  }

  /** A post within its documented ranges gets a radius between 0.2 and 0.4. */
  lemma ValidPostRadius(p: AnalyzedPost)
    requires ValidPost(p)
    ensures 0.2 <= Radius(p.intensity) <= 0.4
  {
    RadiusMonotone(p.intensity, p.intensity);
  }

  // ---- humanoid mode ----

  /** The body part a post is placed in. */
  datatype BodyRegion = Head | Torso | LeftArm | RightArm | LeftLeg | RightLeg | FallbackLegs

  /** The branch getHumanoidPosition takes for a post of this category at this index. */
  function Region(category: PostCategory, index: nat, zone: real): BodyRegion {
    if category == Reflection || category == Daily then Head
    else if category == Relationship || category == Rant then Torso
    else if category == Achievement then
      (match index % 4
       case 0 => LeftArm
       case 1 => RightArm
       case 2 => LeftLeg
       case _ => RightLeg)
    else if zone < 0.2 then Head
    else if zone < 0.6 then Torso
    else FallbackLegs
  }

  /** Only uncategorised posts depend on the random zone; the other five categories are placed by category (and index). */
  lemma RegionDeterministic(category: PostCategory, index: nat, z1: real, z2: real)
    ensures category != Other ==> Region(category, index, z1) == Region(category, index, z2)
    ensures category == Reflection || category == Daily ==> Region(category, index, z1) == Head
    ensures category == Relationship || category == Rant ==> Region(category, index, z1) == Torso
    ensures category == Other && z1 < 0.2 ==> Region(category, index, z1) == Head
    ensures category == Other && 0.2 <= z1 < 0.6 ==> Region(category, index, z1) == Torso
    ensures category == Other && 0.6 <= z1 ==> Region(category, index, z1) == FallbackLegs
  {
  }

  /** Achievements go round-robin over the limbs: four consecutive indices cover all four. */
  lemma LimbsRoundRobin(index: nat, zone: real)
    ensures Region(Achievement, index, zone) == Region(Achievement, index + 4, zone)
    ensures {Region(Achievement, index, zone), Region(Achievement, index + 1, zone),
             Region(Achievement, index + 2, zone), Region(Achievement, index + 3, zone)}
            == {LeftArm, RightArm, LeftLeg, RightLeg}
  {
    var k := index % 4;
    assert (index + 1) % 4 == (k + 1) % 4;
    assert (index + 2) % 4 == (k + 2) % 4;
    assert (index + 3) % 4 == (k + 3) % 4;
    assert (index + 4) % 4 == k;
  }

  /** `randomPointInSphere`. */
  function PointInSphere(center: Vec3, radius: real, u: real, v: real, w: real, trig: Trig): Vec3 {
    var theta := 2.0 * Pi * u;
    var phi := trig.acos(2.0 * v - 1.0);
    var r := trig.cbrt(w) * radius;
    var sinPhi := trig.sin(phi);
    Vec3(center.x + r * sinPhi * trig.cos(theta),
         center.y + r * sinPhi * trig.sin(theta),
         center.z + r * trig.cos(phi))
  }

  /** `randomPointInBox`. */
  function PointInBox(center: Vec3, width: real, height: real, depth: real, a: real, b: real, c: real): Vec3 {
    Vec3(center.x + (a - 0.5) * width, center.y + (b - 0.5) * height, center.z + (c - 0.5) * depth)
  }

  /** `randomPointOnLine`. */
  function PointOnLine(start: Vec3, end: Vec3, jitter: real, t: real, jx: real, jy: real, jz: real): Vec3 {
    Vec3(start.x + (end.x - start.x) * t + (jx - 0.5) * jitter,
         start.y + (end.y - start.y) * t + (jy - 0.5) * jitter,
         start.z + (end.z - start.z) * t + (jz - 0.5) * jitter)
  }

  const HeadCenter := Vec3(0.0, 1.6, 0.0)
  const HeadRadius := 0.25
  const TorsoCenter := Vec3(0.0, 1.15, 0.0)

  function HeadPoint(d: HumanoidDraws, trig: Trig): Vec3 {
    PointInSphere(HeadCenter, HeadRadius, d.a, d.b, d.c, trig)
  }

  function TorsoPoint(d: HumanoidDraws): Vec3 {
    PointInBox(TorsoCenter, 0.45, 0.6, 0.3, d.a, d.b, d.c)
  }

  function LimbPoint(start: Vec3, end: Vec3, d: HumanoidDraws): Vec3 {
    PointOnLine(start, end, 0.15, d.a, d.b, d.c, d.d)
  }

  /** `getHumanoidPosition(post, index)`. */
  function HumanoidPosition(post: AnalyzedPost, index: nat, d: HumanoidDraws, trig: Trig): Vec3 {
    match Region(post.category, index, d.zone)
    case Head => HeadPoint(d, trig)
    case Torso => TorsoPoint(d)
    case LeftArm => LimbPoint(Vec3(-0.25, 1.4, 0.0), Vec3(-0.7, 0.9, 0.2), d)
    case RightArm => LimbPoint(Vec3(0.25, 1.4, 0.0), Vec3(0.7, 0.9, 0.2), d)
    case LeftLeg => LimbPoint(Vec3(-0.15, 0.8, 0.0), Vec3(-0.2, 0.0, 0.0), d)
    case RightLeg => LimbPoint(Vec3(0.15, 0.8, 0.0), Vec3(0.2, 0.0, 0.0), d)
    case FallbackLegs =>
      PointOnLine(Vec3(0.0, 0.8, 0.0), Vec3((d.a - 0.5) * 0.5, 0.0, 0.0), 0.3, d.b, d.c, d.d, d.e)
  }

  /** `p` lies in the axis-aligned box of the given size centred at `c` (upper faces open). */
  predicate InBox(p: Vec3, c: Vec3, width: real, height: real, depth: real) {
    && c.x - width / 2.0 <= p.x < c.x + width / 2.0
    && c.y - height / 2.0 <= p.y < c.y + height / 2.0
    && c.z - depth / 2.0 <= p.z < c.z + depth / 2.0
  }

  /** Relationship and rant posts land inside the torso box (width 0.45, height 0.6, depth 0.3 around (0, 1.15, 0)). */
  lemma TorsoWithinBox(post: AnalyzedPost, index: nat, d: HumanoidDraws, trig: Trig)
    requires post.category == Relationship || post.category == Rant
    requires UnitHumanoidDraws(d)
    ensures InBox(HumanoidPosition(post, index, d, trig), TorsoCenter, 0.45, 0.6, 0.3)
  {
  }

  lemma NonNegativeProduct(x: real, y: real)
    requires 0.0 <= x && 0.0 <= y
    ensures 0.0 <= x * y
  {
  }

  lemma MulMonotone(x: real, y1: real, y2: real)
    requires 0.0 <= x && y1 <= y2
    ensures x * y1 <= x * y2
  {
    NonNegativeProduct(x, y2 - y1);
    assert x * (y2 - y1) == x * y2 - x * y1;
  }

  /** |r * a| <= bound when 0 <= r <= bound and |a| <= 1. */
  lemma ScaledUnit(r: real, a: real, bound: real)
    requires 0.0 <= r <= bound
    requires -1.0 <= a <= 1.0
    ensures -bound <= r * a <= bound
  {
    MulMonotone(r, a, 1.0);
    assert r * a <= r * 1.0;
    assert r * 1.0 == r;
    MulMonotone(r, -1.0, a);
    assert r * -1.0 <= r * a;
    assert r * -1.0 == -r;
  }

  /** |r * a * b| <= bound when 0 <= r <= bound and |a|, |b| <= 1. */
  lemma ScaledUnitProduct(r: real, a: real, b: real, bound: real)
    requires 0.0 <= r <= bound
    requires -1.0 <= a <= 1.0 && -1.0 <= b <= 1.0
    ensures -bound <= r * a * b <= bound
  {
    ScaledUnit(r, a, bound);
    var ra := r * a;
    if ra >= 0.0 {
      ScaledUnit(ra, b, bound);
    } else {
      ScaledUnit(-ra, b, bound);
      assert (-ra) * b == -(ra * b);
    }
  }

  /** Reflection and daily posts land within the head sphere's bounding cube (half side 0.25 around (0, 1.6, 0)). */
  lemma HeadWithinCube(post: AnalyzedPost, index: nat, d: HumanoidDraws, trig: Trig)
    requires post.category == Reflection || post.category == Daily
    requires UnitHumanoidDraws(d) && TrigBounded(trig)
    ensures var p := HumanoidPosition(post, index, d, trig);
      && -0.25 <= p.x <= 0.25
      && 1.35 <= p.y <= 1.85
      && -0.25 <= p.z <= 0.25
  {
    var theta := 2.0 * Pi * d.a;
    var phi := trig.acos(2.0 * d.b - 1.0);
    var c := trig.cbrt(d.c);
    assert 0.0 <= c < 1.0;
    var r := c * HeadRadius;
    MulMonotone(HeadRadius, c, 1.0);
    NonNegativeProduct(c, HeadRadius);
    assert 0.0 <= r <= 0.25;
    var sinPhi := trig.sin(phi);
    assert -1.0 <= sinPhi <= 1.0 && -1.0 <= trig.cos(theta) <= 1.0;
    assert -1.0 <= trig.sin(theta) <= 1.0 && -1.0 <= trig.cos(phi) <= 1.0;
    ScaledUnitProduct(r, sinPhi, trig.cos(theta), 0.25);
    ScaledUnitProduct(r, sinPhi, trig.sin(theta), 0.25);
    ScaledUnit(r, trig.cos(phi), 0.25);
  }
}
