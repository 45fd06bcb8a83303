// The complexity diagnostic of the agent scripts: a request is lower-cased, scored
// against keyword rules, matched against workflow domains and classified as
// DIRECT, WORKFLOW or COMPLEX, with recommendations for how to carry it out.

module DiagnoseTask {
  import opened Wrappers
  import opened Text

  /** A scoring rule: points earned when any keyword occurs in the request. */
  datatype ComplexityRule = ComplexityRule(key: string, keywords: seq<string>, points: int, description: string)

  /** A workflow domain: its trigger words and the agents it requires. */
  datatype WorkflowPattern = WorkflowPattern(domain: string, triggers: seq<string>, requiredSteps: seq<string>)

  /** Where an applied rule comes from: the rule table, or one of the two built-in rules. */
  datatype RuleSource = TableRule(key: string, description: string) | PureQuestionRule | MultipleDomainsRule

  datatype AppliedRule = AppliedRule(source: RuleSource, keywords: seq<string>, points: int)

  datatype DetectedDomain = DetectedDomain(domain: string, matches: seq<string>, confidence: int, requiredSteps: seq<string>)

  datatype Level = Direct | Workflow | Complex

  /**
   * A recommendation. Its type and message are rendered from it by
   * RecommendationType and RecommendationMessage.
   */
  datatype Recommendation =
    | DirectExecution
    | PureQuestionExecution
    | WorkflowRequired(level: Level)
    | StartWith(domain: string, steps: seq<string>)
    | SessionTracking

  datatype Analysis = Analysis(
    request: string,
    totalPoints: int,
    level: Level,
    appliedRules: seq<AppliedRule>,
    detectedDomains: seq<DetectedDomain>,
    recommendations: seq<Recommendation>)

  const FrontendKey := "frontend"

  const FrontendRule := ComplexityRule(FrontendKey,
    ["layout", "component", "design", "UI", "menu", "page", "interface", "form", "button"], 2,
    "Frontend/UI development")
  const CrossProjectRule := ComplexityRule("crossProject",
    ["../", "autre projet", "reuse", "copy from", "adapt", "utiliser code de"], 3,
    "Cross-project code copying")
  const UserFacingRule := ComplexityRule("userFacing",
    ["interface", "menu", "page", "form", "button", "dashboard"], 1,
    "User-facing changes")
  const MultipleFilesRule := ComplexityRule("multipleFiles",
    [".jsx", ".tsx", ".css", ".scss", ".vue", ".html"], 1,
    "Multiple file modifications")

  const ComplexityRules: seq<ComplexityRule> := [FrontendRule, CrossProjectRule, UserFacingRule, MultipleFilesRule]

  const FrontendPattern := WorkflowPattern("frontend",
    ["layout", "component", "design", "UI", "menu", "page"],
    ["product-requirements-analyzer", "frontend-planner", "USER_APPROVAL_GATE", "code-writer", "quality-checker"])
  const ResearchPattern := WorkflowPattern("research",
    ["research", "historical", "data", "analysis", "medieval", "corpus"],
    ["research-planner", "corpus-searcher", "web-researcher", "source-validator"])
  const ProductPattern := WorkflowPattern("product",
    ["feature", "requirement", "specification", "product", "create", "implement"],
    ["product-requirements-analyzer", "product-feature-specifier", "product-acceptance-definer"])

  const WorkflowPatterns: seq<WorkflowPattern> := [FrontendPattern, ResearchPattern, ProductPattern]

  const QuestionPatterns: seq<string> := ["how does", "what does", "explain", "show me", "tell me about",
    "describe", "why is", "where is", "when was", "who made", "which one", "?"]

  const ActionWords: seq<string> := ["create", "build", "implement", "add", "copy", "r\U{E9}cup\U{E9}rer",
    "modify", "change", "make", "develop"]

  // ---------------------------------------------------------------------
  // Keyword matching
  // ---------------------------------------------------------------------

  /** Some word of the list occurs in the text. */
  predicate AnyContained(content: string, words: seq<string>)
    decreases |words|
  {
    words != [] && (Contains(content, words[0]) || AnyContained(content, words[1..]))
  }

  lemma {:induction false} AnyContainedIff(content: string, words: seq<string>)
    ensures AnyContained(content, words) <==> exists i :: 0 <= i < |words| && Contains(content, words[i])
    decreases |words|
  {
    if words != [] {
      AnyContainedIff(content, words[1..]);
      assert forall i :: 1 <= i < |words| ==> words[i] == words[1..][i - 1];
      if AnyContained(content, words[1..]) {
        var i :| 0 <= i < |words[1..]| && Contains(content, words[1..][i]);
        assert Contains(content, words[i + 1]);
      }
    }
  }

  /** The rule keywords, lower-cased, that occur in the lower-cased request. */
  function MatchedKeywords(content: string, keywords: seq<string>): (r: seq<string>)
    decreases |keywords|
  {
    if keywords == [] then []
    else
      var prev := MatchedKeywords(content, keywords[..|keywords| - 1]);
      if Contains(content, Lower(keywords[|keywords| - 1])) then prev + [keywords[|keywords| - 1]] else prev
  }

  /** The matched keywords keep the rule's order and are exactly those found in the request. */
  lemma {:induction false} MatchedKeywordsIff(content: string, keywords: seq<string>)
    ensures IsSubseq(MatchedKeywords(content, keywords), keywords)
    ensures forall k :: k in MatchedKeywords(content, keywords) <==> k in keywords && Contains(content, Lower(k))
    decreases |keywords|
  {
    if keywords == [] {
      SubseqRefl(keywords);
    } else {
      var init, last := keywords[..|keywords| - 1], keywords[|keywords| - 1];
      MatchedKeywordsIff(content, init);
      assert keywords == init + [last];
      SubseqSnoc(MatchedKeywords(content, init), init, last);
    }
  }

  /** The domain triggers, taken as written, that occur in the lower-cased request. */
  function TriggerMatches(content: string, triggers: seq<string>): (r: seq<string>)
    ensures IsSubseq(r, triggers)
    ensures forall t :: t in r <==> t in triggers && Contains(content, t)
  {
    Filter(triggers, (t: string) => Contains(content, t))
  }

  /** A trigger with an upper-case letter, such as "UI", never matches a lower-cased request. */
  lemma UpperTriggerNeverMatches(request: string, triggers: seq<string>, t: string, j: int)
    requires 0 <= j < |t| && IsUpper(t[j])
    ensures t !in TriggerMatches(Lower(request), triggers)
  {
    UpperPatternNeverMatchesLowered(request, t, j);
  }

  lemma UiNeverDetected(request: string)
    ensures "UI" !in TriggerMatches(Lower(request), FrontendPattern.triggers)
  {
    UpperTriggerNeverMatches(request, FrontendPattern.triggers, "UI", 0);
  }

  // ---------------------------------------------------------------------
  // Scoring
  // ---------------------------------------------------------------------

  function Min(a: int, b: int): int {
    if a <= b then a else b
  }

  /**
   * The points a matching rule earns. The frontend rule earns twice its points
   * when the request has an action word and matches more than one keyword.
   */
  function RulePoints(rule: ComplexityRule, matchCount: int, hasAction: bool): (r: int)
    ensures rule.key == FrontendKey && hasAction && matchCount > 1 ==> r == 2 * rule.points
    ensures !(rule.key == FrontendKey && hasAction && matchCount > 1) ==> r == rule.points
  {
    if rule.key == FrontendKey then
      if hasAction && matchCount > 1 then rule.points * Min(matchCount, 2) else rule.points
    else rule.points
  }

  lemma FrontendCap(matchCount: int, hasAction: bool)
    requires matchCount >= 1
    ensures RulePoints(FrontendRule, matchCount, hasAction) == 4 <==> hasAction && matchCount >= 2
    ensures RulePoints(FrontendRule, matchCount, hasAction) == 2 <==> !(hasAction && matchCount >= 2)
  {
  }

  /** The rules that match, in rule order, each with its keywords and points. */
  function AppliedRules(content: string, rules: seq<ComplexityRule>, hasAction: bool): seq<AppliedRule>
    decreases |rules|
  {
    if rules == [] then []
    else
      var prev := AppliedRules(content, rules[..|rules| - 1], hasAction);
      var rule := rules[|rules| - 1];
      var matched := MatchedKeywords(content, rule.keywords);
      if |matched| > 0 then prev + [AppliedRule(TableRule(rule.key, rule.description), matched, RulePoints(rule, |matched|, hasAction))]
      else prev
  }

  /** What one rule contributes to the score: its points if it matches, else nothing. */
  function RuleScore(content: string, rule: ComplexityRule, hasAction: bool): int {
    var matched := MatchedKeywords(content, rule.keywords);
    if |matched| > 0 then RulePoints(rule, |matched|, hasAction) else 0
  }

  /** The score of a request: the sum over all rules of what each contributes. */
  function RulesScore(content: string, rules: seq<ComplexityRule>, hasAction: bool): int
    decreases |rules|
  {
    if rules == [] then 0
    else RulesScore(content, rules[..|rules| - 1], hasAction) + RuleScore(content, rules[|rules| - 1], hasAction)
  }

  function SumPoints(applied: seq<AppliedRule>): int
    decreases |applied|
  {
    if applied == [] then 0 else SumPoints(applied[..|applied| - 1]) + applied[|applied| - 1].points
  }

  lemma SumPointsSnoc(applied: seq<AppliedRule>, x: AppliedRule)
    ensures SumPoints(applied + [x]) == SumPoints(applied) + x.points
  {
    assert (applied + [x])[..|applied|] == applied;
  }

  /** The score summed over all rules is the sum of the points of the rules that applied. */
  lemma {:induction false} RulesScoreIsAppliedSum(content: string, rules: seq<ComplexityRule>, hasAction: bool)
    ensures RulesScore(content, rules, hasAction) == SumPoints(AppliedRules(content, rules, hasAction))
    decreases |rules|
  {
    if rules != [] {
      var init := rules[..|rules| - 1];
      RulesScoreIsAppliedSum(content, init, hasAction);
      var rule := rules[|rules| - 1];
      var matched := MatchedKeywords(content, rule.keywords);
      if |matched| > 0 {
        SumPointsSnoc(AppliedRules(content, init, hasAction),
                      AppliedRule(TableRule(rule.key, rule.description), matched, RulePoints(rule, |matched|, hasAction)));
      }
    }
  }

  /** The domains whose triggers match, in pattern order, with their match counts. */
  function DetectDomains(content: string, patterns: seq<WorkflowPattern>): (r: seq<DetectedDomain>)
    ensures forall d :: d in r ==> d.confidence >= 1 && d.confidence == |d.matches|
    decreases |patterns|
  {
    if patterns == [] then []
    else
      var prev := DetectDomains(content, patterns[..|patterns| - 1]);
      var pattern := patterns[|patterns| - 1];
      var matches := TriggerMatches(content, pattern.triggers);
      if |matches| > 0 then prev + [DetectedDomain(pattern.domain, matches, |matches|, pattern.requiredSteps)]
      else prev
  }

  function DomainNames(domains: seq<DetectedDomain>): (r: seq<string>)
    ensures |r| == |domains|
    ensures forall i :: 0 <= i < |domains| ==> r[i] == domains[i].domain
  {
    seq(|domains|, i requires 0 <= i < |domains| => domains[i].domain)
  }

  const MultipleDomainsBonus := 2

  /** The bonus rule: two points, keyed by the names of the detected domains. */
  function BonusRule(domains: seq<DetectedDomain>): AppliedRule {
    AppliedRule(MultipleDomainsRule, DomainNames(domains), MultipleDomainsBonus)
  }

  const PureQuestionKeywords: seq<string> := ["question pattern detected"]

  function RuleName(source: RuleSource): string {
    match source
    case TableRule(key, _) => key
    case PureQuestionRule => "pureQuestion"
    case MultipleDomainsRule => "multipleDomains"
  }

  function RuleDescription(source: RuleSource): string {
    match source
    case TableRule(_, description) => description
    case PureQuestionRule => "Read-only question - no implementation"
    case MultipleDomainsRule => "Multiple domains detected"
  }

  /** The level of a score: DIRECT up to 2, WORKFLOW up to 5, COMPLEX above. */
  function LevelOf(points: int): (r: Level)
    ensures r == Direct <==> points <= 2
    ensures r == Workflow <==> 3 <= points <= 5
    ensures r == Complex <==> points >= 6
  {
    if points <= 2 then Direct else if points <= 5 then Workflow else Complex
  }

  function LevelName(level: Level): string {
    match level
    case Direct => "DIRECT"
    case Workflow => "WORKFLOW"
    case Complex => "COMPLEX"
  }

  /** Sort key putting the highest confidence first. */
  function ByConfidence(d: DetectedDomain): int {
    -d.confidence
  }

  // ---------------------------------------------------------------------
  // Recommendations
  // ---------------------------------------------------------------------

  predicate IsExecution(r: Recommendation) {
    r.DirectExecution? || r.PureQuestionExecution?
  }

  function RecommendationType(r: Recommendation): string {
    match r
    case DirectExecution => "execution"
    case PureQuestionExecution => "execution"
    case WorkflowRequired(_) => "workflow"
    case StartWith(_, _) => "workflow_steps"
    case SessionTracking => "session_tracking"
  }

  function RecommendationMessage(r: Recommendation): string {
    match r
    case DirectExecution => "Direct execution permitted with validation checkpoint"
    case PureQuestionExecution => "Pure question detected - direct execution without workflow"
    case WorkflowRequired(level) => LevelName(level) + " workflow required - no shortcuts permitted"
    case StartWith(domain, _) => "Start with " + domain + " workflow"
    case SessionTracking => "Consider session tracking for this complex task"
  }

  /**
   * Execution for DIRECT and a workflow otherwise; then the steps of the first
   * domain, if any; then session tracking for COMPLEX.
   */
  function Recommendations(domains: seq<DetectedDomain>, level: Level): (r: seq<Recommendation>)
    ensures |r| == 1 + (if domains != [] then 1 else 0) + (if level == Complex then 1 else 0)
    ensures r[0] == DirectExecution <==> level == Direct
    ensures r[0] == WorkflowRequired(level) <==> level != Direct
    ensures (exists i :: 0 <= i < |r| && r[i].StartWith?) <==> domains != []
    ensures domains != [] ==> r[1] == StartWith(domains[0].domain, domains[0].requiredSteps)
    ensures (exists i :: 0 <= i < |r| && r[i] == SessionTracking) <==> level == Complex
  {
    var first := if level == Direct then DirectExecution else WorkflowRequired(level);
    var steps := if domains != [] then [StartWith(domains[0].domain, domains[0].requiredSteps)] else [];
    var tracking := if level == Complex then [SessionTracking] else [];
    var r := [first] + steps + tracking;
    assert forall i :: 1 <= i < |r| ==> r[i] in steps || r[i] in tracking;
    assert domains != [] ==> r[1] == steps[0];
    assert level == Complex ==> r[|r| - 1] == tracking[0];
    r
  }

  /** Pushes the recommendations one after the other. */
  method GenerateRecommendations(domains: seq<DetectedDomain>, level: Level) returns (recs: seq<Recommendation>)
    ensures recs == Recommendations(domains, level)
  {
    recs := [];
    if level == Direct {
      recs := recs + [DirectExecution];
    } else {
      recs := recs + [WorkflowRequired(level)];
    }
    if |domains| > 0 {
      var primary := domains[0];
      recs := recs + [StartWith(primary.domain, primary.requiredSteps)];
    }
    if level == Complex {
      recs := recs + [SessionTracking];
    }
  }

  // ---------------------------------------------------------------------
  // The analysis
  // ---------------------------------------------------------------------

  predicate IsQuestion(content: string) {
    AnyContained(content, QuestionPatterns)
  }

  predicate HasActionWords(content: string) {
    AnyContained(content, ActionWords)
  }

  /** A read-only question: a question pattern and no action word. */
  predicate PureQuestion(request: string) {
    IsQuestion(Lower(request)) && !HasActionWords(Lower(request))
  }

  function PureQuestionAnalysis(request: string): Analysis {
    Analysis(request, 0, Direct, [AppliedRule(PureQuestionRule, PureQuestionKeywords, 0)], [], [PureQuestionExecution])
  }

  /** The analysis of a request against a rule table and a domain table. */
  function Analyze(request: string, rules: seq<ComplexityRule>, patterns: seq<WorkflowPattern>): Analysis {
    if PureQuestion(request) then PureQuestionAnalysis(request) else ScoredAnalysis(request, rules, patterns)
  }

  /** The analysis of a request that is not a pure question: rules, domains, bonus, level, recommendations. */
  function ScoredAnalysis(request: string, rules: seq<ComplexityRule>, patterns: seq<WorkflowPattern>): Analysis {
    var content := Lower(request);
    var hasAction := HasActionWords(content);
    var domains := DetectDomains(content, patterns);
    var bonus := if |domains| > 1 then MultipleDomainsBonus else 0;
    var points := RulesScore(content, rules, hasAction) + bonus;
    var applied := AppliedRules(content, rules, hasAction) + (if |domains| > 1 then [BonusRule(domains)] else []);
    var sorted := SortByKey(domains, ByConfidence);
    Analysis(request, points, LevelOf(points), applied, sorted, Recommendations(sorted, LevelOf(points)))
  }

  /** Scores the rules one by one, accumulating the points and the rules that applied. */
  method ScoreRules(content: string, rules: seq<ComplexityRule>, hasActionWords: bool)
    returns (totalPoints: int, appliedRules: seq<AppliedRule>)
    ensures totalPoints == RulesScore(content, rules, hasActionWords)
    ensures appliedRules == AppliedRules(content, rules, hasActionWords)
  {
    totalPoints := 0;
    appliedRules := [];
    for i := 0 to |rules|
      invariant appliedRules == AppliedRules(content, rules[..i], hasActionWords)
      invariant totalPoints == RulesScore(content, rules[..i], hasActionWords)
    {
      assert rules[..i + 1][..i] == rules[..i];
      var rule := rules[i];
      var matchedKeywords := MatchedKeywords(content, rule.keywords);
      if |matchedKeywords| > 0 {
        var points := rule.points;
        if rule.key == FrontendKey {
          points := if hasActionWords && |matchedKeywords| > 1 then rule.points * Min(|matchedKeywords|, 2) else rule.points;
        }
        totalPoints := totalPoints + points;
        appliedRules := appliedRules + [AppliedRule(TableRule(rule.key, rule.description), matchedKeywords, points)];
      }
    }
    assert rules[..|rules|] == rules;
  }

  /** Checks the domains one by one, keeping those with at least one matching trigger. */
  method FindDomains(content: string, patterns: seq<WorkflowPattern>) returns (detectedDomains: seq<DetectedDomain>)
    ensures detectedDomains == DetectDomains(content, patterns)
  {
    detectedDomains := [];
    for j := 0 to |patterns|
      invariant detectedDomains == DetectDomains(content, patterns[..j])
    {
      assert patterns[..j + 1][..j] == patterns[..j];
      var pattern := patterns[j];
      var matches := TriggerMatches(content, pattern.triggers);
      if |matches| > 0 {
        detectedDomains := detectedDomains + [DetectedDomain(pattern.domain, matches, |matches|, pattern.requiredSteps)];
      }
    }
    assert patterns[..|patterns|] == patterns;
  }

  /** Scores the request, adds the domain bonus, classifies it and recommends. */
  method AnalyzeWith(request: string, rules: seq<ComplexityRule>, patterns: seq<WorkflowPattern>) returns (a: Analysis)
    ensures a == Analyze(request, rules, patterns)
  {
    var content := Lower(request);
    var isQuestion := IsQuestion(content);
    var hasActionWords := HasActionWords(content);
    if isQuestion && !hasActionWords {
      return PureQuestionAnalysis(request);
    }
    a := AnalyzeScored(request, content, rules, patterns, hasActionWords);
  }

  /** The scoring part of the diagnostic, for a request that is not a pure question. */
  method AnalyzeScored(request: string, content: string, rules: seq<ComplexityRule>, patterns: seq<WorkflowPattern>,
                       hasActionWords: bool) returns (a: Analysis)
    requires content == Lower(request) && hasActionWords == HasActionWords(content)
    ensures a == ScoredAnalysis(request, rules, patterns)
  {
    var totalPoints, appliedRules := ScoreRules(content, rules, hasActionWords);
    var detectedDomains := FindDomains(content, patterns);
    if |detectedDomains| > 1 {
      totalPoints := totalPoints + MultipleDomainsBonus;
      appliedRules := appliedRules + [BonusRule(detectedDomains)];
    } else {
      assert appliedRules + [] == appliedRules;
    }
    var complexityLevel := if totalPoints <= 2 then Direct else if totalPoints <= 5 then Workflow else Complex;
    assert complexityLevel == LevelOf(totalPoints);
    var sorted := SortByKey(detectedDomains, ByConfidence);
    var recommendations := GenerateRecommendations(sorted, complexityLevel);
    return Analysis(request, totalPoints, complexityLevel, appliedRules, sorted, recommendations);
  }

  /** The diagnostic with the script's own rule and domain tables. */
  method AnalyzeTask(request: string) returns (a: Analysis)
    ensures a == Analyze(request, ComplexityRules, WorkflowPatterns)
  {
    a := AnalyzeWith(request, ComplexityRules, WorkflowPatterns);
  }

  // ---------------------------------------------------------------------
  // Properties of the analysis
  // ---------------------------------------------------------------------

  /** A pure question scores nothing, is DIRECT, has no domain and one execution recommendation. */
  lemma PureQuestionIsDirect(request: string, rules: seq<ComplexityRule>, patterns: seq<WorkflowPattern>)
    requires PureQuestion(request)
    ensures Analyze(request, rules, patterns).totalPoints == 0
    ensures Analyze(request, rules, patterns).level == Direct
    ensures Analyze(request, rules, patterns).detectedDomains == []
    ensures Analyze(request, rules, patterns).appliedRules == [AppliedRule(PureQuestionRule, PureQuestionKeywords, 0)]
    ensures Analyze(request, rules, patterns).recommendations == [PureQuestionExecution]
  {
  }

  /** The total is the sum of the points of the applied rules, the domain bonus included. */
  lemma TotalIsSumOfAppliedRules(request: string, rules: seq<ComplexityRule>, patterns: seq<WorkflowPattern>)
    ensures Analyze(request, rules, patterns).totalPoints == SumPoints(Analyze(request, rules, patterns).appliedRules)
  {
    if !PureQuestion(request) {
      var content := Lower(request);
      var hasAction := HasActionWords(content);
      var domains := DetectDomains(content, patterns);
      RulesScoreIsAppliedSum(content, rules, hasAction);
      if |domains| > 1 {
        SumPointsSnoc(AppliedRules(content, rules, hasAction), BonusRule(domains));
      } else {
        assert AppliedRules(content, rules, hasAction) + [] == AppliedRules(content, rules, hasAction);
      }
    } else {
      var applied := PureQuestionAnalysis(request).appliedRules;
      assert applied[..0] == [];
    }
  }

  /** The bonus rule is added, as the last applied rule, exactly when several domains match. */
  lemma BonusIffSeveralDomains(request: string, rules: seq<ComplexityRule>, patterns: seq<WorkflowPattern>)
    requires !PureQuestion(request)
    ensures var a := Analyze(request, rules, patterns);
            |a.detectedDomains| > 1 <==>
              (|a.appliedRules| > 0 && a.appliedRules[|a.appliedRules| - 1].source == MultipleDomainsRule
               && a.appliedRules[|a.appliedRules| - 1].points == MultipleDomainsBonus
               && |a.appliedRules| == |AppliedRules(Lower(request), rules, HasActionWords(Lower(request)))| + 1)
  {
    var content := Lower(request);
    var domains := DetectDomains(content, patterns);
    SortPreservesLength(domains, ByConfidence);
  }

  /** The domains come highest confidence first, and are exactly the domains detected. */
  lemma DomainsByConfidence(request: string, rules: seq<ComplexityRule>, patterns: seq<WorkflowPattern>)
    ensures var ds := Analyze(request, rules, patterns).detectedDomains;
            forall i, j :: 0 <= i < j < |ds| ==> ds[i].confidence >= ds[j].confidence
    ensures !PureQuestion(request) ==>
              multiset(Analyze(request, rules, patterns).detectedDomains)
                == multiset(DetectDomains(Lower(request), patterns))
  {
    if !PureQuestion(request) {
      var ds := Analyze(request, rules, patterns).detectedDomains;
      assert SortedByKey(ds, ByConfidence);
      forall i, j | 0 <= i < j < |ds|
        ensures ds[i].confidence >= ds[j].confidence
      {
        assert ByConfidence(ds[i]) <= ByConfidence(ds[j]);
      }
    }
  }

  /** The recommendations follow the level and the domains, for every request. */
  lemma RecommendationsFollowLevel(request: string, rules: seq<ComplexityRule>, patterns: seq<WorkflowPattern>)
    ensures var a := Analyze(request, rules, patterns);
            && (IsExecution(a.recommendations[0]) <==> a.level == Direct)
            && ((exists i :: 0 <= i < |a.recommendations| && a.recommendations[i].StartWith?)
                <==> a.detectedDomains != [])
            && ((exists i :: 0 <= i < |a.recommendations| && a.recommendations[i] == SessionTracking)
                <==> a.level == Complex)
  {
    if PureQuestion(request) {
      var recs := PureQuestionAnalysis(request).recommendations;
      assert forall i :: 0 <= i < |recs| ==> recs[i] == PureQuestionExecution;
    }
  }

  // ---------------------------------------------------------------------
  // The two requests of the enforcement script, stated for every request
  // ---------------------------------------------------------------------

  lemma TwoMembersMeanTwo(s: seq<string>, x: string, y: string)
    requires x in s && y in s && x != y
    ensures |s| >= 2
  {
  }

  /** Outside pure questions, the score is the rules' score plus the domain bonus. */
  lemma AnalyzedPoints(request: string, rules: seq<ComplexityRule>, patterns: seq<WorkflowPattern>)
    requires !PureQuestion(request)
    ensures var content := Lower(request);
            Analyze(request, rules, patterns).totalPoints
              == RulesScore(content, rules, HasActionWords(content))
                 + (if |DetectDomains(content, patterns)| > 1 then MultipleDomainsBonus else 0)
  {
  }

  lemma RulesScoreSnoc(content: string, rules: seq<ComplexityRule>, rule: ComplexityRule, hasAction: bool)
    ensures RulesScore(content, rules + [rule], hasAction) == RulesScore(content, rules, hasAction) + RuleScore(content, rule, hasAction)
  {
    assert (rules + [rule])[..|rules|] == rules;
  }

  /** A non-negative score for every rule whose points are non-negative. */
  lemma {:induction false} RulesScoreNonNegative(content: string, rules: seq<ComplexityRule>, hasAction: bool)
    requires forall r :: r in rules ==> r.points >= 0
    ensures RulesScore(content, rules, hasAction) >= 0
    decreases |rules|
  {
    if rules != [] {
      assert forall r :: r in rules[..|rules| - 1] ==> r in rules;
      RulesScoreNonNegative(content, rules[..|rules| - 1], hasAction);
      assert rules[|rules| - 1] in rules;
      RuleScoreNonNegative(content, rules[|rules| - 1], hasAction);
    }
  }

  /** The score against the script's table is the sum of its four rules' scores. */
  lemma TableScore(content: string, hasAction: bool)
    ensures RulesScore(content, ComplexityRules, hasAction)
              == RuleScore(content, FrontendRule, hasAction) + RuleScore(content, CrossProjectRule, hasAction)
                 + RuleScore(content, UserFacingRule, hasAction) + RuleScore(content, MultipleFilesRule, hasAction)
  {
    RulesScoreSnoc(content, [], FrontendRule, hasAction);
    RulesScoreSnoc(content, [FrontendRule], CrossProjectRule, hasAction);
    RulesScoreSnoc(content, [FrontendRule, CrossProjectRule], UserFacingRule, hasAction);
    RulesScoreSnoc(content, [FrontendRule, CrossProjectRule, UserFacingRule], MultipleFilesRule, hasAction);
    assert [] + [FrontendRule] == [FrontendRule];
    assert [FrontendRule] + [CrossProjectRule] == [FrontendRule, CrossProjectRule];
    assert [FrontendRule, CrossProjectRule] + [UserFacingRule] == [FrontendRule, CrossProjectRule, UserFacingRule];
    assert [FrontendRule, CrossProjectRule, UserFacingRule] + [MultipleFilesRule] == ComplexityRules;
  }

  lemma RuleScoreNonNegative(content: string, rule: ComplexityRule, hasAction: bool)
    requires rule.points >= 0
    ensures RuleScore(content, rule, hasAction) >= 0
  {
  }

  /** Two different frontend keywords and an action word: the frontend rule earns 4 points. */
  lemma TwoFrontendKeywordsScoreFour(content: string, a: string, b: string)
    requires a in FrontendRule.keywords && b in FrontendRule.keywords && a != b
    requires Contains(content, Lower(a)) && Contains(content, Lower(b))
    ensures RuleScore(content, FrontendRule, true) == 4
  {
    var frontend := MatchedKeywords(content, FrontendRule.keywords);
    MatchedKeywordsIff(content, FrontendRule.keywords);
    assert a in frontend && b in frontend;
    TwoMembersMeanTwo(frontend, a, b);
  }

  /** Outside the frontend rule, one matching keyword earns the rule its points, however many match. */
  lemma KeywordEarnsRulePoints(content: string, rule: ComplexityRule, k: string, hasAction: bool)
    requires rule.key != FrontendKey
    requires k in rule.keywords && Contains(content, Lower(k))
    ensures RuleScore(content, rule, hasAction) == rule.points
  {
    MatchedKeywordsIff(content, rule.keywords);
    assert k in MatchedKeywords(content, rule.keywords);
  }

  /** A rule none of whose keywords occurs earns nothing. */
  lemma NoKeywordNoPoints(content: string, rule: ComplexityRule, hasAction: bool)
    requires forall k :: k in rule.keywords ==> !Contains(content, Lower(k))
    ensures RuleScore(content, rule, hasAction) == 0
  {
    NothingMatched(content, rule.keywords);
  }

  lemma {:induction false} NothingMatched(content: string, keywords: seq<string>)
    requires forall k :: k in keywords ==> !Contains(content, Lower(k))
    ensures MatchedKeywords(content, keywords) == []
    decreases |keywords|
  {
    if keywords != [] {
      NothingMatched(content, keywords[..|keywords| - 1]);
    }
  }

  /** A domain none of whose triggers occurs has no trigger matches. */
  lemma NoTriggerNoMatches(content: string, triggers: seq<string>)
    requires forall t :: t in triggers ==> !Contains(content, t)
    ensures TriggerMatches(content, triggers) == []
  {
    FilterNonePass(triggers, (t: string) => Contains(content, t));
  }

  /** Over three domains, one domain is detected per domain with a matching trigger. */
  lemma DomainCount(content: string, p1: WorkflowPattern, p2: WorkflowPattern, p3: WorkflowPattern)
    ensures |DetectDomains(content, [p1, p2, p3])|
              == (if |TriggerMatches(content, p1.triggers)| > 0 then 1 else 0)
                 + (if |TriggerMatches(content, p2.triggers)| > 0 then 1 else 0)
                 + (if |TriggerMatches(content, p3.triggers)| > 0 then 1 else 0)
  {
    DetectDomainsSnoc(content, [], p1);
    DetectDomainsSnoc(content, [p1], p2);
    DetectDomainsSnoc(content, [p1, p2], p3);
    assert [] + [p1] == [p1] && [p1] + [p2] == [p1, p2] && [p1, p2] + [p3] == [p1, p2, p3];
  }

  lemma DetectDomainsSnoc(content: string, patterns: seq<WorkflowPattern>, p: WorkflowPattern)
    ensures |DetectDomains(content, patterns + [p])|
              == |DetectDomains(content, patterns)| + (if |TriggerMatches(content, p.triggers)| > 0 then 1 else 0)
  {
    assert (patterns + [p])[..|patterns|] == patterns;
  }

  /** The keywords the worked requests below rely on are already lower-case. */
  lemma LowerCaseKeywords()
    ensures Lower("menu") == "menu" && Lower("layout") == "layout" && Lower("../") == "../"
    ensures Lower("button") == "button" && Lower("component") == "component"
  {
  }

  /** A "how does" question without an action word scores nothing and is DIRECT. */
  lemma HowDoesQuestionIsDirect(request: string)
    requires Contains(Lower(request), "how does") && !HasActionWords(Lower(request))
    ensures Analyze(request, ComplexityRules, WorkflowPatterns).totalPoints == 0
    ensures Analyze(request, ComplexityRules, WorkflowPatterns).level == Direct
  {
    AnyContainedIff(Lower(request), QuestionPatterns);
    assert QuestionPatterns[0] == "how does";
    PureQuestionIsDirect(request, ComplexityRules, WorkflowPatterns);
  }

  /**
   * Copying a menu and a layout from another project, with an action word,
   * scores at least 7 (4 for the frontend rule, 3 for the cross-project rule)
   * and is COMPLEX.
   */
  lemma CopyingMenuAndLayoutIsComplex(request: string)
    requires HasActionWords(Lower(request))
    requires Contains(Lower(request), "menu") && Contains(Lower(request), "layout")
    requires Contains(Lower(request), "../")
    ensures Analyze(request, ComplexityRules, WorkflowPatterns).totalPoints >= 7
    ensures Analyze(request, ComplexityRules, WorkflowPatterns).level == Complex
  {
    var content := Lower(request);
    assert !PureQuestion(request);
    AnalyzedPoints(request, ComplexityRules, WorkflowPatterns);
    TableScore(content, true);
    LowerCaseKeywords();
    TwoFrontendKeywordsScoreFour(content, "menu", "layout");
    KeywordEarnsRulePoints(content, CrossProjectRule, "../", true);
    RuleScoreNonNegative(content, UserFacingRule, true);
    RuleScoreNonNegative(content, MultipleFilesRule, true);
  }

  /**
   * Creating a button component: an action word with two frontend keywords
   * (4 points), a user-facing keyword (1) and a frontend and a product domain
   * (the 2-point bonus) make at least 7 points, COMPLEX.
   */
  lemma CreatingButtonComponentIsComplex(request: string)
    requires Contains(Lower(request), "create")
    requires Contains(Lower(request), "button") && Contains(Lower(request), "component")
    ensures Analyze(request, ComplexityRules, WorkflowPatterns).totalPoints >= 7
    ensures Analyze(request, ComplexityRules, WorkflowPatterns).level == Complex
  {
    var content := Lower(request);
    AnyContainedIff(content, ActionWords);
    assert ActionWords[0] == "create";
    assert !PureQuestion(request);
    AnalyzedPoints(request, ComplexityRules, WorkflowPatterns);
    TableScore(content, true);
    LowerCaseKeywords();
    TwoFrontendKeywordsScoreFour(content, "button", "component");
    KeywordEarnsRulePoints(content, UserFacingRule, "button", true);
    RuleScoreNonNegative(content, CrossProjectRule, true);
    RuleScoreNonNegative(content, MultipleFilesRule, true);
    DomainCount(content, FrontendPattern, ResearchPattern, ProductPattern);
    assert "component" in TriggerMatches(content, FrontendPattern.triggers);
    assert "create" in TriggerMatches(content, ProductPattern.triggers);
  }

  /**
   * A request that is not a pure question, matches a user-facing keyword but no
   * frontend, cross-project or file keyword, and falls in at most one domain
   * scores exactly 1 and is DIRECT, however much it asks for.
   */
  lemma OnlyUserFacingIsDirect(request: string, k: string)
    requires !PureQuestion(request)
    requires k in UserFacingRule.keywords && Contains(Lower(request), Lower(k))
    requires forall f :: f in FrontendRule.keywords ==> !Contains(Lower(request), Lower(f))
    requires forall f :: f in CrossProjectRule.keywords ==> !Contains(Lower(request), Lower(f))
    requires forall f :: f in MultipleFilesRule.keywords ==> !Contains(Lower(request), Lower(f))
    requires |DetectDomains(Lower(request), WorkflowPatterns)| <= 1
    ensures Analyze(request, ComplexityRules, WorkflowPatterns).totalPoints == 1
    ensures Analyze(request, ComplexityRules, WorkflowPatterns).level == Direct
  {
    var content := Lower(request);
    AnalyzedPoints(request, ComplexityRules, WorkflowPatterns);
    OnlyUserFacingScoresOne(content, k, HasActionWords(content));
  }

  lemma OnlyUserFacingScoresOne(content: string, k: string, hasAction: bool)
    requires k in UserFacingRule.keywords && Contains(content, Lower(k))
    requires forall f :: f in FrontendRule.keywords ==> !Contains(content, Lower(f))
    requires forall f :: f in CrossProjectRule.keywords ==> !Contains(content, Lower(f))
    requires forall f :: f in MultipleFilesRule.keywords ==> !Contains(content, Lower(f))
    ensures RulesScore(content, ComplexityRules, hasAction) == 1
  {
    TableScore(content, hasAction);
    NoKeywordNoPoints(content, FrontendRule, hasAction);
    NoKeywordNoPoints(content, CrossProjectRule, hasAction);
    NoKeywordNoPoints(content, MultipleFilesRule, hasAction);
    KeywordEarnsRulePoints(content, UserFacingRule, k, hasAction);
  }
}
