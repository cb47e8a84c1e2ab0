/**
 * The model-backed analyzer of the main application (app/utils/llmService.ts,
 * `analyzePostsWithLLM`): normalise the input lines, ask the chat-completions
 * relay for metrics, strip a markdown code fence from the reply, and map the
 * parsed entries back onto the input lines by index.
 *
 * The request itself, `response.json()` and `JSON.parse` are not modelled:
 * their outcomes are parameters (`Reply` and `parse`).
 */
module LlmService {
  import opened Types
  import opened Wrappers
  import opened Text

  const MaxPosts: nat := 50

  /** `posts.slice(0, 50).map(p => p.trim()).filter(p => p.length > 0)`: cap first, then filter. */
  function ValidPosts(posts: seq<string>): (valid: seq<string>)
    ensures |valid| <= MaxPosts
    ensures forall k :: 0 <= k < |valid| ==> TrimmedNonEmpty(valid[k])
  {
    NonEmptyTrimmed(Take(posts, MaxPosts))
  }

  /** The kept lines come from the first 50 in their original order: a capped batch filters piece by piece. */
  lemma ValidPostsOrder(a: seq<string>, b: seq<string>)
    requires |a| + |b| <= MaxPosts
    ensures ValidPosts(a + b) == ValidPosts(a) + ValidPosts(b)
  {
    NonEmptyTrimmedAppend(a, b);
  }

  /** Lines beyond the 50th are never looked at. */
  lemma ValidPostsIgnoresTail(a: seq<string>, b: seq<string>)
    requires |a| >= MaxPosts
    ensures ValidPosts(a + b) == ValidPosts(a)
  {
    assert (a + b)[..MaxPosts] == a[..MaxPosts];
  }

  // ---- code fences ----

  /** What the fence cleanup leaves of a trimmed reply. */
  function Unfenced(content: string): string {
    if StartsWith(content, "```json") then DropClosingFence(content[7..])
    else if StartsWith(content, "```") then DropClosingFence(content[3..])
    else content
  }

  /** `s.replace(/```$/, '')`: one closing fence at the very end of the text. */
  function DropClosingFence(s: string): (r: string)
    ensures EndsWith(s, "```") ==> s == r + "```"
    ensures !EndsWith(s, "```") ==> r == s
  {
    if EndsWith(s, "```") then s[..|s| - 3] else s
  }

  /**
   * The step-by-step reassignment of `content` in analyzePostsWithLLM: the
   * `json`-tagged opening fence is tried first, then the bare one.
   */
  method StripCodeFence(reply: string) returns (content: string)
    ensures content == Unfenced(reply)
  {
    content := reply;
    if StartsWith(content, "```json") {
      content := content[7..];
      if EndsWith(content, "```") {
        content := content[..|content| - 3];
      }
    } else if StartsWith(content, "```") {
      content := content[3..];
      if EndsWith(content, "```") {
        content := content[..|content| - 3];
      }
    }
  }

  /** A reply wrapped in a `json`-tagged fence comes back as its body, whatever the body is. */
  lemma UnfencedJsonFence(body: string)
    ensures Unfenced("```json" + body + "```") == body
  {
    var s := "```json" + body + "```";
    assert s[..7] == "```json";
    assert s[7..] == body + "```";
    assert (body + "```")[..|body|] == body;
  }

  /** A reply wrapped in a bare fence comes back as its body, unless the body itself starts with `json`. */
  lemma UnfencedBareFence(body: string)
    requires !StartsWith(body, "json")
    ensures Unfenced("```" + body + "```") == body
  {
    var s := "```" + body + "```";
    assert s[..3] == "```";
    assert s[3..] == body + "```";
    if |body| >= 4 {
      assert s[3..7] == body[..4];
    } else {
      assert s[3 + |body|] == '`';
    }
    assert !StartsWith(s, "```json");
    assert (body + "```")[..|body|] == body;
  }

  /** A reply that does not start with a fence is left as it is. */
  lemma UnfencedPlain(content: string)
    requires !StartsWith(content, "```")
    ensures Unfenced(content) == content
  {
  }

  // ---- result alignment ----

  /** The fields the relay is asked for, as JSON.parse delivers them. */
  datatype LlmMetrics = LlmMetrics(sentimentScore: real, intensity: real, category: PostCategory)

  /** `{ sentimentScore: 0, intensity: 1, category: 'other' }`. */
  const MissingMetrics := LlmMetrics(0.0, 1.0, Other)

  /** `parsedResults[index] || default`: a missing or falsy entry (`None`) takes the default. */
  function EntryAt(parsed: seq<Option<LlmMetrics>>, index: nat): LlmMetrics {
    if index < |parsed| && parsed[index].Some? then parsed[index].value else MissingMetrics
  }

  /** `post-llm-${index}-${Date.now()}`, with the clock reading for that entry. */
  function LlmPostId(index: nat, now: nat): string {
    "post-llm-" + Decimal(index) + "-" + Decimal(now)
  }

  /** The record built for valid post `index`. */
  function AlignedPost(validPosts: seq<string>, parsed: seq<Option<LlmMetrics>>, clock: nat -> nat, index: nat): AnalyzedPost
    requires index < |validPosts|
  {
    var m := EntryAt(parsed, index);
    AnalyzedPost(LlmPostId(index, clock(index)), validPosts[index], m.sentimentScore, m.intensity, m.category, index)
  }

  /** `validPosts.map((originalText, index) => ...)`. */
  function Align(validPosts: seq<string>, parsed: seq<Option<LlmMetrics>>, clock: nat -> nat): (posts: seq<AnalyzedPost>)
    ensures |posts| == |validPosts|
  {
    seq(|validPosts|, i requires 0 <= i < |validPosts| => AlignedPost(validPosts, parsed, clock, i))
  }

  /**
   * One record per valid post whatever the relay returned: the text and the
   * index come from the input; the metrics are entry `i` copied unclamped, or the
   * default when entry `i` is missing; extra entries are ignored.
   */
  lemma AlignByIndex(validPosts: seq<string>, parsed: seq<Option<LlmMetrics>>, clock: nat -> nat, i: nat)
    requires i < |validPosts|
    ensures var p := Align(validPosts, parsed, clock)[i];
      && p.originalText == validPosts[i]
      && p.timestampIndex == i
      && (i < |parsed| && parsed[i].Some? ==>
            p.sentimentScore == parsed[i].value.sentimentScore
            && p.intensity == parsed[i].value.intensity
            && p.category == parsed[i].value.category)
      && (i >= |parsed| || parsed[i].None? ==>
            p.sentimentScore == 0.0 && p.intensity == 1.0 && p.category == Other)
  {
  }

  /** Entries past the number of valid posts do not change the result. */
  lemma AlignIgnoresExtra(validPosts: seq<string>, parsed: seq<Option<LlmMetrics>>, extra: seq<Option<LlmMetrics>>, clock: nat -> nat)
    requires |parsed| >= |validPosts|
    ensures Align(validPosts, parsed + extra, clock) == Align(validPosts, parsed, clock)
  {
    assert forall i :: 0 <= i < |validPosts| ==> (parsed + extra)[i] == parsed[i];
  }

  // ---- the request ----

  /** Why analyzePostsWithLLM throws. */
  datatype LlmError =
    | NetworkError            // fetch rejected
    | ApiCallFailed(status: int)  // `API call failed: ${status}`
    | MissingContent          // the body is not JSON, or has no choices[0].message.content
    | InvalidJson             // `Invalid JSON response from LLM`

  /** What the relay answered: `response.ok`, `response.status`, and the message content if there is one. */
  datatype Reply = Reply(ok: bool, status: int, content: Option<string>)

  /** The reply content once trimmed and cleaned of a code fence. */
  function CleanContent(raw: string): string {
    Unfenced(Trim(raw))
  }

  /**
   * `analyzePostsWithLLM(posts)`. `fetch` is `None` when the request itself
   * failed; `parse` is JSON.parse of the cleaned content, giving the array's
   * entries, or `None` when it throws. `requested` says whether a request went out.
   */
  method AnalyzePostsWithLlm(posts: seq<string>, fetch: Option<Reply>,
                             parse: string -> Option<seq<Option<LlmMetrics>>>, clock: nat -> nat)
    returns (result: Result<seq<AnalyzedPost>, LlmError>, requested: bool)
    ensures requested <==> ValidPosts(posts) != []
    ensures !requested ==> result == Success([])
    ensures requested && fetch.None? ==> result == Failure(NetworkError)
    ensures requested && fetch.Some? && !fetch.value.ok ==> result == Failure(ApiCallFailed(fetch.value.status))
    ensures requested && fetch.Some? && fetch.value.ok && fetch.value.content.None? ==> result == Failure(MissingContent)
    ensures requested && fetch.Some? && fetch.value.ok && fetch.value.content.Some? ==>
      match parse(CleanContent(fetch.value.content.value))
      case None => result == Failure(InvalidJson)
      case Some(parsed) => result == Success(Align(ValidPosts(posts), parsed, clock))
  {
    var validPosts := ValidPosts(posts);
    if validPosts == [] {
      return Success([]), false;
    }
    requested := true;
    if fetch.None? {
      return Failure(NetworkError), requested;
    }
    var response := fetch.value;
    if !response.ok {
      return Failure(ApiCallFailed(response.status)), requested;
    }
    if response.content.None? {
      return Failure(MissingContent), requested;
    }
    var content := Trim(response.content.value);
    content := StripCodeFence(content);
    var parsed := parse(content);
    if parsed.None? {
      return Failure(InvalidJson), requested;
    }
    result := Success(Align(validPosts, parsed.value, clock));
  }

  /** Every successful analysis has one record per valid post, at most 50, each with its own index. */
  lemma SuccessShape(posts: seq<string>, parsed: seq<Option<LlmMetrics>>, clock: nat -> nat)
    ensures var r := Align(ValidPosts(posts), parsed, clock);
      |r| <= MaxPosts && forall i :: 0 <= i < |r| ==> r[i].timestampIndex == i && r[i].originalText != []
  {
    var valid := ValidPosts(posts);
    forall i | 0 <= i < |valid|
      ensures Align(valid, parsed, clock)[i].timestampIndex == i && Align(valid, parsed, clock)[i].originalText != []
    {
      AlignByIndex(valid, parsed, clock, i);
    }
  }
}
