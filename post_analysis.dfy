/**
 * The analysis hook of the gallery variant
 * (app/github-repo/hooks/usePostAnalysis.ts): normalise the lines, try the
 * model-backed analyzer, and fall back to the rule-based analyzer when it
 * throws. The hook's two state cells, `isAnalyzing` and `error`, are the
 * fields of a class.
 *
 * The gallery's own llmService and sentimentRules are not part of this model:
 * the analyzer is a parameter returning `None` when it throws, and the rule
 * analyzer is a parameter from (line, index) to metrics. `Date.now()` is a
 * clock read per record.
 */
module PostAnalysis {
  import opened Types
  import opened Wrappers
  import opened Text
  import LlmService

  const MaxLines: nat := 50

  /** The message set when the analyzer fails. */
  const FallbackError := "AI connection failed. Using basic analysis instead."

  /** `lines.map(l => l.trim()).filter(l => l.length > 0).slice(0, 50)`: filter first, then cap. */
  function ValidLines(lines: seq<string>): (valid: seq<string>)
    ensures |valid| <= MaxLines
    ensures forall k :: 0 <= k < |valid| ==> TrimmedNonEmpty(valid[k])
    ensures |valid| <= |NonEmptyTrimmed(lines)| && valid == NonEmptyTrimmed(lines)[..|valid|]
    ensures |NonEmptyTrimmed(lines)| >= MaxLines ==> |valid| == MaxLines
  {
    Take(NonEmptyTrimmed(lines), MaxLines)
  }

  /** The kept lines are the non-blank ones in order, as long as there are at most 50 of them. */
  lemma ValidLinesOrder(a: seq<string>, b: seq<string>)
    requires |NonEmptyTrimmed(a + b)| <= MaxLines
    ensures ValidLines(a + b) == ValidLines(a) + ValidLines(b)
  {
    NonEmptyTrimmedAppend(a, b);
  }

  /**
   * Filtering before the cap differs from the cap-then-filter of the main
   * application's analyzer (app/utils/llmService.ts): 50 blank lines followed
   * by a real one keep that line here, while that normalisation keeps nothing.
   */
  lemma FilterBeforeCap(blanks: seq<string>, line: string)
    requires |blanks| >= MaxLines
    requires forall k :: 0 <= k < |blanks| ==> AllWhitespace(blanks[k])
    requires TrimmedNonEmpty(line)
    ensures ValidLines(blanks + [line]) == [line]
    ensures LlmService.ValidPosts(blanks + [line]) == []
  {
    BlankLinesDropped(blanks);
    NonEmptyTrimmedAppend(blanks, [line]);
    TrimOfTrimmed(line);
    assert NonEmptyTrimmed([line]) == [line] + NonEmptyTrimmed([]);
    assert (blanks + [line])[..MaxLines] == blanks[..MaxLines];
    BlankLinesDropped(blanks[..MaxLines]);
  }

  /** The hook's lines are already normalised: the main application's analyzer normalisation leaves them as they are. */
  lemma ValidLinesStable(lines: seq<string>)
    ensures LlmService.ValidPosts(ValidLines(lines)) == ValidLines(lines)
  {
    NonEmptyTrimmedFixpoint(ValidLines(lines));
  }

  /** What `analyzeTextRuleBased(line, index)` returns. */
  datatype RuleMetrics = RuleMetrics(sentimentScore: real, intensity: real, category: PostCategory)

  /** `post-${index}-${Date.now()}`. */
  function FallbackId(index: nat, now: nat): string {
    "post-" + Decimal(index) + "-" + Decimal(now)
  }

  /** The fallback record of line `index`. */
  function FallbackPost(validLines: seq<string>, rules: (string, nat) -> RuleMetrics, clock: nat -> nat, index: nat): AnalyzedPost
    requires index < |validLines|
  {
    var m := rules(validLines[index], index);
    AnalyzedPost(FallbackId(index, clock(index)), validLines[index], m.sentimentScore, m.intensity, m.category, index)
  }

  /** `validLines.map((line, index) => ...)` with the rule analyzer. */
  function FallbackPosts(validLines: seq<string>, rules: (string, nat) -> RuleMetrics, clock: nat -> nat): (posts: seq<AnalyzedPost>)
    ensures |posts| == |validLines|
  {
    seq(|validLines|, i requires 0 <= i < |validLines| => FallbackPost(validLines, rules, clock, i))
  }

  /** Fallback record `i` is line `i` with its own index and the rule analyzer's metrics for (line `i`, `i`). */
  lemma FallbackByIndex(validLines: seq<string>, rules: (string, nat) -> RuleMetrics, clock: nat -> nat, i: nat)
    requires i < |validLines|
    ensures var p := FallbackPosts(validLines, rules, clock)[i];
      && p.originalText == validLines[i]
      && p.timestampIndex == i
      && p.sentimentScore == rules(validLines[i], i).sentimentScore
      && p.intensity == rules(validLines[i], i).intensity
      && p.category == rules(validLines[i], i).category
  {
  }

  /** The hook's state: whether an analysis is running, and the last error message. */
  class PostAnalysisHook {
    var isAnalyzing: bool
    var error: Option<string>

    /** `useState(false)` and `useState(null)`. */
    constructor()
      ensures !isAnalyzing && error == None
    {
      isAnalyzing := false;
      error := None;
    }

    /**
     * `analyzePosts(lines)`. `llm` is the analyzer (`None` when it throws);
     * `calledLlm` says whether it was called.
     */
    method AnalyzePosts(lines: seq<string>, llm: seq<string> -> Option<seq<AnalyzedPost>>,
                        rules: (string, nat) -> RuleMetrics, clock: nat -> nat)
      returns (posts: seq<AnalyzedPost>, calledLlm: bool)
      modifies this
      ensures !isAnalyzing
      ensures calledLlm <==> ValidLines(lines) != []
      ensures !calledLlm ==> posts == [] && error == None
      ensures calledLlm && llm(ValidLines(lines)).Some? ==>
        posts == llm(ValidLines(lines)).value && error == None
      ensures calledLlm && llm(ValidLines(lines)).None? ==>
        posts == FallbackPosts(ValidLines(lines), rules, clock) && error == Some(FallbackError)
    {
      isAnalyzing := true;
      error := None;
      var validLines := ValidLines(lines);
      if validLines == [] {
        isAnalyzing := false;
        return [], false;
      }
      calledLlm := true;
      var results := llm(validLines);
      if results.Some? {
        posts := results.value;
      } else {
        error := Some(FallbackError);
        posts := FallbackPosts(validLines, rules, clock);
      }
      isAnalyzing := false;
    }
  }

  /** On fallback there is one record per valid line, at most 50, each carrying its line and its index. */
  lemma FallbackShape(lines: seq<string>, rules: (string, nat) -> RuleMetrics, clock: nat -> nat)
    ensures var r := FallbackPosts(ValidLines(lines), rules, clock);
      |r| <= MaxLines && forall i :: 0 <= i < |r| ==> r[i].timestampIndex == i && TrimmedNonEmpty(r[i].originalText)
  {
    var valid := ValidLines(lines);
    forall i | 0 <= i < |valid|
      ensures FallbackPosts(valid, rules, clock)[i].timestampIndex == i
      ensures TrimmedNonEmpty(FallbackPosts(valid, rules, clock)[i].originalText)
    {
      FallbackByIndex(valid, rules, clock, i);
    }
  }
}
