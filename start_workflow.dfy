// The workflow starter script: it scores a request by the frontend and
// cross-project trigger words it holds, suggests the workflows whose
// triggers occur in it, most matches first, and names a level for the score.

module StartWorkflow {
  import opened Text
  import DiagnoseTask

  /** A workflow of the starter: its key, the agents it runs and the words that suggest it. */
  datatype Workflow = Workflow(key: string, steps: seq<string>, triggers: seq<string>)

  /** The result of scoring a request: the points and the triggers found, in check order. */
  datatype Complexity = Complexity(points: int, triggers: seq<string>)

  /** A suggested workflow with the triggers that matched and their number. */
  datatype Suggestion = Suggestion(workflow: string, matches: seq<string>, priority: int)

  const FrontendWorkflow := Workflow(
    "frontend",
    ["product-requirements-analyzer", "product-feature-specifier", "frontend-planner",
     "USER_APPROVAL_GATE", "code-writer", "quality-checker", "test-writer (optional)"],
    ["layout", "component", "design", "UI", "menu", "page"])

  const ResearchWorkflow := Workflow(
    "research",
    ["research-planner", "corpus-searcher", "web-researcher", "source-validator", "corpus-enricher"],
    ["research", "historical", "data", "analysis", "medieval"])

  const ProductWorkflow := Workflow(
    "product",
    ["product-requirements-analyzer", "product-feature-specifier", "product-acceptance-definer"],
    ["feature", "requirement", "specification", "product"])

  /** The workflow table, in the order of its keys. */
  const Workflows: seq<Workflow> := [FrontendWorkflow, ResearchWorkflow, ProductWorkflow]

  /** Words worth 2 points each (here "ui" is lower case, unlike the frontend workflow's trigger). */
  const FrontendTriggers: seq<string> := ["layout", "component", "design", "ui", "menu", "page"]

  /** Words worth 3 points each: the request reaches into another project. */
  const CrossProjectTriggers: seq<string> := ["../", "copy from", "reuse", "adapt"]

  // ---------------------------------------------------------------------
  // Trigger matching
  // ---------------------------------------------------------------------

  /** The words of `words` that occur in `content`, in the order of `words`. */
  function Present(content: string, words: seq<string>): seq<string>
    decreases |words|
  {
    if words == [] then []
    else
      var prev := Present(content, words[..|words| - 1]);
      if Contains(content, words[|words| - 1]) then prev + [words[|words| - 1]] else prev
  }

  lemma {:induction false} PresentIff(content: string, words: seq<string>)
    ensures IsSubseq(Present(content, words), words)
    ensures forall w :: w in Present(content, words) <==> w in words && Contains(content, w)
    decreases |words|
  {
    if words == [] {
      SubseqRefl(words);
    } else {
      var init, last := words[..|words| - 1], words[|words| - 1];
      PresentIff(content, init);
      assert words == init + [last];
      SubseqSnoc(Present(content, init), init, last);
    }
  }

  predicate Distinct(words: seq<string>) {
    forall i, j :: 0 <= i < j < |words| ==> words[i] != words[j]
  }

  /** The set of words of the list that occur in the content. */
  function PresentSet(content: string, words: seq<string>): set<string> {
    set w | w in words && Contains(content, w)
  }

  /** With distinct words, each word present is listed exactly once. */
  lemma {:induction false} PresentCountsDistinctWords(content: string, words: seq<string>)
    requires Distinct(words)
    ensures |Present(content, words)| == |PresentSet(content, words)|
    decreases |words|
  {
    if words != [] {
      var init, last := words[..|words| - 1], words[|words| - 1];
      assert words == init + [last];
      assert Distinct(init);
      PresentCountsDistinctWords(content, init);
      forall k | 0 <= k < |init|
        ensures init[k] != last
      {
        assert init[k] == words[k];
      }
      if Contains(content, last) {
        assert PresentSet(content, words) == PresentSet(content, init) + {last};
        assert last !in PresentSet(content, init);
      } else {
        assert PresentSet(content, words) == PresentSet(content, init);
      }
    }
  }

  lemma PresentNoLonger(content: string, words: seq<string>)
    ensures |Present(content, words)| <= |words|
  {
    PresentIff(content, words);
    SubseqMultiset(Present(content, words), words);
    assert |multiset(Present(content, words))| <= |multiset(words)| by {
      assert multiset(Present(content, words)) <= multiset(words);
    }
  }

  // ---------------------------------------------------------------------
  // calculateComplexity
  // ---------------------------------------------------------------------

  /** The score of lower-cased content against two trigger lists: 2 and 3 points per trigger present. */
  function Score(content: string, frontend: seq<string>, cross: seq<string>): Complexity {
    var f := Present(content, frontend);
    var c := Present(content, cross);
    Complexity(2 * |f| + 3 * |c|, f + c)
  }

  /** Checks each trigger in turn, adding its points and listing it when it occurs. */
  method CalculateComplexity(request: string) returns (c: Complexity)
    ensures c == Score(Lower(request), FrontendTriggers, CrossProjectTriggers)
  {
    var content := Lower(request);
    var points := 0;
    var detected: seq<string> := [];
    for i := 0 to |FrontendTriggers|
      invariant detected == Present(content, FrontendTriggers[..i])
      invariant points == 2 * |detected|
    {
      assert FrontendTriggers[..i + 1][..i] == FrontendTriggers[..i];
      if Contains(content, FrontendTriggers[i]) {
        points := points + 2;
        detected := detected + [FrontendTriggers[i]];
      }
    }
    assert FrontendTriggers[..|FrontendTriggers|] == FrontendTriggers;
    var frontend := detected;
    for i := 0 to |CrossProjectTriggers|
      invariant detected == frontend + Present(content, CrossProjectTriggers[..i])
      invariant points == 2 * |frontend| + 3 * |Present(content, CrossProjectTriggers[..i])|
    {
      assert CrossProjectTriggers[..i + 1][..i] == CrossProjectTriggers[..i];
      if Contains(content, CrossProjectTriggers[i]) {
        points := points + 3;
        detected := detected + [CrossProjectTriggers[i]];
      }
    }
    assert CrossProjectTriggers[..|CrossProjectTriggers|] == CrossProjectTriggers;
    c := Complexity(points, detected);
  }

  /**
   * The score counts each distinct trigger present once, 2 points for a
   * frontend trigger and 3 for a cross-project one, and lists the triggers
   * found in the order they are checked.
   */
  lemma ScoreCountsDistinctTriggers(content: string, frontend: seq<string>, cross: seq<string>)
    requires Distinct(frontend) && Distinct(cross)
    ensures Score(content, frontend, cross).points
         == 2 * |PresentSet(content, frontend)| + 3 * |PresentSet(content, cross)|
    ensures var t := Score(content, frontend, cross).triggers;
      t[..|Present(content, frontend)|] == Present(content, frontend) &&
      IsSubseq(t[..|Present(content, frontend)|], frontend) &&
      IsSubseq(t[|Present(content, frontend)|..], cross)
    ensures 0 <= Score(content, frontend, cross).points <= 2 * |frontend| + 3 * |cross|
  {
    PresentCountsDistinctWords(content, frontend);
    PresentCountsDistinctWords(content, cross);
    PresentIff(content, frontend);
    PresentIff(content, cross);
    PresentNoLonger(content, frontend);
    PresentNoLonger(content, cross);
    var f, c := Present(content, frontend), Present(content, cross);
    assert (f + c)[..|f|] == f;
    assert (f + c)[|f|..] == c;
  }

  /** Repeating a trigger, or any other change that keeps the same triggers present, keeps the score. */
  lemma SameTriggersSameScore(c1: string, c2: string, frontend: seq<string>, cross: seq<string>)
    requires forall w :: w in frontend + cross ==> (Contains(c1, w) <==> Contains(c2, w))
    ensures Score(c1, frontend, cross) == Score(c2, frontend, cross)
  {
    PresentDependsOnlyOnWords(c1, c2, frontend);
    PresentDependsOnlyOnWords(c1, c2, cross);
  }

  lemma {:induction false} PresentDependsOnlyOnWords(c1: string, c2: string, words: seq<string>)
    requires forall w :: w in words ==> (Contains(c1, w) <==> Contains(c2, w))
    ensures Present(c1, words) == Present(c2, words)
    decreases |words|
  {
    if words != [] {
      var init := words[..|words| - 1];
      assert forall w :: w in init ==> w in words;
      PresentDependsOnlyOnWords(c1, c2, init);
      assert words[|words| - 1] in words;
    }
  }

  lemma TriggerTablesDistinct()
    ensures Distinct(FrontendTriggers) && Distinct(CrossProjectTriggers)
    ensures |FrontendTriggers| == 6 && |CrossProjectTriggers| == 4
  {
  }

  /** The starter's score of any request lies between 0 and 24, counting each trigger once. */
  lemma CalculatedComplexityBounds(request: string)
    ensures var s := Score(Lower(request), FrontendTriggers, CrossProjectTriggers);
      0 <= s.points <= 24 &&
      s.points == 2 * |PresentSet(Lower(request), FrontendTriggers)| + 3 * |PresentSet(Lower(request), CrossProjectTriggers)|
  {
    TriggerTablesDistinct();
    ScoreCountsDistinctTriggers(Lower(request), FrontendTriggers, CrossProjectTriggers);
  }

  // ---------------------------------------------------------------------
  // Level of the analyze command
  // ---------------------------------------------------------------------

  /** The analyze command's level: DIRECT below 3 points, WORKFLOW below 6, COMPLEX from 6. */
  function AnalyzeLevel(points: int): (r: DiagnoseTask.Level)
    ensures r == DiagnoseTask.Direct <==> points < 3
    ensures r == DiagnoseTask.Workflow <==> 3 <= points < 6
    ensures r == DiagnoseTask.Complex <==> 6 <= points
  {
    if points < 3 then DiagnoseTask.Direct
    else if points < 6 then DiagnoseTask.Workflow
    else DiagnoseTask.Complex
  }

  /** The starter and the complexity diagnostic draw the same level boundaries. */
  lemma AnalyzeLevelAgreesWithDiagnostic(points: int)
    ensures AnalyzeLevel(points) == DiagnoseTask.LevelOf(points)
  {
  }

  // ---------------------------------------------------------------------
  // suggestWorkflow
  // ---------------------------------------------------------------------

  /** The suggestion a workflow would give for the content, whether or not any trigger matched. */
  function SuggestionFor(content: string, w: Workflow): Suggestion {
    var matches := Present(content, w.triggers);
    Suggestion(w.key, matches, |matches|)
  }

  /** The suggestions in table order, before sorting: the workflows with at least one match. */
  function Candidates(content: string, ws: seq<Workflow>): seq<Suggestion>
    decreases |ws|
  {
    if ws == [] then []
    else
      var prev := Candidates(content, ws[..|ws| - 1]);
      var s := SuggestionFor(content, ws[|ws| - 1]);
      if s.priority > 0 then prev + [s] else prev
  }

  /** Sorting key: higher priority first. */
  function ByPriority(s: Suggestion): int {
    -s.priority
  }

  /** The suggestions for a request, highest priority first, table order among equals. */
  function Suggestions(request: string, ws: seq<Workflow>): seq<Suggestion> {
    SortByKey(Candidates(Lower(request), ws), ByPriority)
  }

  /** Collects the workflows with a match in table order, then sorts them by priority. */
  method SuggestWorkflow(request: string, ws: seq<Workflow>) returns (r: seq<Suggestion>)
    ensures r == Suggestions(request, ws)
  {
    var content := Lower(request);
    var suggestions: seq<Suggestion> := [];
    for i := 0 to |ws|
      invariant suggestions == Candidates(content, ws[..i])
    {
      assert ws[..i + 1][..i] == ws[..i];
      var matches := Present(content, ws[i].triggers);
      if |matches| > 0 {
        suggestions := suggestions + [Suggestion(ws[i].key, matches, |matches|)];
      }
    }
    assert ws[..|ws|] == ws;
    r := SortByKey(suggestions, ByPriority);
  }

  lemma {:induction false} CandidatesIff(content: string, ws: seq<Workflow>)
    ensures forall i :: 0 <= i < |ws| ==>
      (SuggestionFor(content, ws[i]) in Candidates(content, ws) <==> SuggestionFor(content, ws[i]).priority > 0)
    ensures forall s :: s in Candidates(content, ws) ==>
      s.priority == |s.matches| > 0 && exists i :: 0 <= i < |ws| && s == SuggestionFor(content, ws[i])
    decreases |ws|
  {
    if ws != [] {
      var init := ws[..|ws| - 1];
      CandidatesIff(content, init);
      forall s | s in Candidates(content, ws)
        ensures exists i :: 0 <= i < |ws| && s == SuggestionFor(content, ws[i])
      {
        if s in Candidates(content, init) {
          var i :| 0 <= i < |init| && s == SuggestionFor(content, init[i]);
          assert ws[i] == init[i];
        }
      }
      forall i | 0 <= i < |ws| - 1
        ensures SuggestionFor(content, ws[i]) == SuggestionFor(content, init[i])
      {
      }
    }
  }

  /**
   * A workflow is suggested exactly when one of its triggers occurs in the
   * lower-cased request; every suggestion names a workflow of the table,
   * carries the triggers that matched, and has their number as priority;
   * and the suggestions come highest priority first.
   */
  lemma SuggestedIffSomeTriggerMatches(request: string, ws: seq<Workflow>)
    ensures var r := Suggestions(request, ws);
      forall i :: 0 <= i < |ws| ==>
        (SuggestionFor(Lower(request), ws[i]) in r <==>
         exists t :: t in ws[i].triggers && Contains(Lower(request), t))
    ensures var r := Suggestions(request, ws);
      forall s :: s in r ==>
        s.priority == |s.matches| > 0 &&
        exists i :: 0 <= i < |ws| && s.workflow == ws[i].key && s.matches == Present(Lower(request), ws[i].triggers)
    ensures var r := Suggestions(request, ws);
      forall i, j :: 0 <= i < j < |r| ==> r[i].priority >= r[j].priority
  {
    var content := Lower(request);
    var cs := Candidates(content, ws);
    var r := Suggestions(request, ws);
    CandidatesIff(content, ws);
    SameMembers(r, cs);
    forall i | 0 <= i < |ws|
      ensures SuggestionFor(content, ws[i]).priority > 0 <==> exists t :: t in ws[i].triggers && Contains(content, t)
    {
      PresentIff(content, ws[i].triggers);
      var m := Present(content, ws[i].triggers);
      if |m| > 0 {
        assert m[0] in m;
      }
    }
    forall i, j | 0 <= i < j < |r|
      ensures r[i].priority >= r[j].priority
    {
      assert ByPriority(r[i]) <= ByPriority(r[j]);
    }
  }

  /** A word of the list that does not occur is left out, so fewer words are present than listed. */
  lemma {:induction false} PresentShorterWhenAbsent(content: string, words: seq<string>, j: int)
    requires 0 <= j < |words| && !Contains(content, words[j])
    ensures |Present(content, words)| < |words|
    decreases |words|
  {
    var init := words[..|words| - 1];
    if j == |words| - 1 {
      PresentNoLonger(content, init);
    } else {
      assert init[j] == words[j];
      PresentShorterWhenAbsent(content, init, j);
    }
  }

  /** The frontend workflow's trigger "UI" is upper case, so the lower-cased request never matches it. */
  lemma UiNeverSuggested(request: string)
    ensures "UI" !in SuggestionFor(Lower(request), FrontendWorkflow).matches
    ensures SuggestionFor(Lower(request), FrontendWorkflow).priority <= 5
  {
    var triggers := FrontendWorkflow.triggers;
    assert triggers[3] == "UI";
    UpperPatternNeverMatchesLowered(request, "UI", 0);
    PresentIff(Lower(request), triggers);
    PresentShorterWhenAbsent(Lower(request), triggers, 3);
  }
}
