/**
 * The records shared by the analyzer, the layout engine and the UI
 * (app/github-repo/types.ts). Numbers of the source are `real`; the documented
 * ranges are predicates, since nothing in the source enforces them.
 */
module Types {

  /** The closed set of post categories. */
  datatype PostCategory = Daily | Rant | Reflection | Achievement | Relationship | Other

  /** One analyzed journal line; immutable once created. */
  datatype AnalyzedPost = AnalyzedPost(
    id: string,
    originalText: string,
    sentimentScore: real,   // documented -1 .. 1
    intensity: real,        // documented 1 .. 5
    category: PostCategory,
    timestampIndex: int)

  /** The documented ranges of a post's metrics. */
  predicate ValidPost(p: AnalyzedPost) {
    && -1.0 <= p.sentimentScore <= 1.0
    && 1.0 <= p.intensity <= 5.0
    && p.timestampIndex >= 0
  }

  /** A point in the 3D scene (`[number, number, number]`). */
  datatype Vec3 = Vec3(x: real, y: real, z: real)

  /** The per-post placement of the gallery variant (no castle position). */
  datatype MemorySphere = MemorySphere(
    id: string,
    post: AnalyzedPost,
    radius: real,
    color: string,
    timelinePosition: Vec3,
    humanoidPosition: Vec3)

  /** The five persona traits, each documented in [0, 1]. */
  datatype PersonaDimensions = PersonaDimensions(
    extraversion: real,
    emotionality: real,
    warmth: real,
    conscientiousness: real,
    confidence: real)

  /** `Math.abs`. */
  function Abs(x: real): real {
    if x < 0.0 then -x else x
  }

  /** The keys of PersonaDimensions, in declaration order. */
  datatype Dimension = Extraversion | Emotionality | Warmth | Conscientiousness | Confidence

  const DimensionKeys: seq<Dimension> :=
    [Extraversion, Emotionality, Warmth, Conscientiousness, Confidence]

  /** `dimensions[key]`. */
  function Get(d: PersonaDimensions, k: Dimension): real {
    match k
    case Extraversion => d.extraversion
    case Emotionality => d.emotionality
    case Warmth => d.warmth
    case Conscientiousness => d.conscientiousness
    case Confidence => d.confidence
  }

  /** Every key appears exactly once in DimensionKeys. */
  lemma DimensionKeysComplete(k: Dimension)
    ensures k in DimensionKeys
    ensures |DimensionKeys| == 5
    ensures forall i, j :: 0 <= i < j < 5 ==> DimensionKeys[i] != DimensionKeys[j]
  {
  }

  /** A reference persona; it always carries a full dimension record. */
  datatype TargetPersona = TargetPersona(
    id: string,
    name: string,
    description: string,
    dimensions: PersonaDimensions,
    colorHint: string)

  /** The animation phases of the scene. */
  datatype ScenePhase = Caged | Liberating | Input | Analyzing | Universe
}
