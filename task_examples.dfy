// The four requests the enforcement script feeds to the complexity diagnostic, and
// the levels the diagnostic gives them. Each concrete string is taken apart
// into literal pieces, so that every fact about it is proved on a short
// literal. The first two get the level the script asks for; for the last two
// the diagnostic as written disagrees with the level the script asks for.

module TaskExamples {
  import opened Text
  import opened DiagnoseTask

  // ---------------------------------------------------------------------
  // "How does this component work?" is DIRECT
  // ---------------------------------------------------------------------

  /** Every action word holds one of these letters. */
  predicate LacksActionLetters(s: string) {
    'a' !in s && 'b' !in s && 'l' !in s && 'y' !in s && '\U{E9}' !in s && 'f' !in s && 'v' !in s
  }

  lemma LacksActionLettersAppend(a: string, b: string)
    requires LacksActionLetters(a) && LacksActionLetters(b)
    ensures LacksActionLetters(a + b)
  {
  }

  /** Text without those letters holds no action word. */
  lemma NoActionWordWithoutTheirLetters(content: string)
    requires LacksActionLetters(content)
    ensures !HasActionWords(content)
  {
    MissingCharNotContained(content, "create", 'a');
    MissingCharNotContained(content, "build", 'b');
    MissingCharNotContained(content, "implement", 'l');
    MissingCharNotContained(content, "add", 'a');
    MissingCharNotContained(content, "copy", 'y');
    MissingCharNotContained(content, "r\U{E9}cup\U{E9}rer", '\U{E9}');
    MissingCharNotContained(content, "modify", 'f');
    MissingCharNotContained(content, "change", 'a');
    MissingCharNotContained(content, "make", 'a');
    MissingCharNotContained(content, "develop", 'v');
    AnyContainedIff(content, ActionWords);
  }

  lemma QuestionPieces(request: string)
    requires request == "How does this component work?"
    ensures request == "How" + " does" + " this " + "component work?"
  {
  }

  lemma QuestionLowered(request: string)
    requires request == "How" + " does" + " this " + "component work?"
    ensures Lower(request) == "how" + " does" + " this " + "component work?"
  {
    var rest := " does" + " this " + "component work?";
    assert request == "How" + rest;
    LowerAppend("How", rest);
    assert Lower("How") == "how";
    assert NoUpper(rest);
    LowerIsLower(rest);
  }

  lemma LoweredQuestionAsks(content: string)
    requires content == "how" + " does" + " this " + "component work?"
    ensures Contains(content, "how does")
  {
    ContainsInfix(content, "", "how" + " does", " this " + "component work?");
    assert "how" + " does" == "how does";
  }

  lemma LoweredQuestionLacksActionLetters(content: string)
    requires content == "how" + " does" + " this " + "component work?"
    ensures LacksActionLetters(content)
  {
    var p, q := "how" + " does" + " this ", "component work?";
    assert content == p + q;
    assert LacksActionLetters(p);
    assert LacksActionLetters(q);
    LacksActionLettersAppend(p, q);
  }

  /** The enforcement script's read-only question scores nothing and is DIRECT. */
  lemma HowDoesThisComponentWorkIsDirect(request: string)
    requires request == "How does this component work?"
    ensures Analyze(request, ComplexityRules, WorkflowPatterns).totalPoints == 0
    ensures Analyze(request, ComplexityRules, WorkflowPatterns).level == Direct
  {
    QuestionPieces(request);
    QuestionLowered(request);
    LoweredQuestionAsks(Lower(request));
    LoweredQuestionLacksActionLetters(Lower(request));
    NoActionWordWithoutTheirLetters(Lower(request));
    HowDoesQuestionIsDirect(request);
  }

  // ---------------------------------------------------------------------
  // "récupérer menu de ../jdr-coffee pour layout" is COMPLEX
  // ---------------------------------------------------------------------

  /** The request, cut into the words the diagnostic looks for and the text between them. */
  lemma CopyRequestPieces(request: string)
    requires request == "r\U{E9}cup\U{E9}rer menu de ../jdr-coffee pour layout"
    ensures request == "r\U{E9}cup\U{E9}rer" + " " + "menu" + " de " + "../" + "jdr-coffee pour " + "layout"
  {
  }

  lemma CopyRequestIsLowerCase(request: string)
    requires request == "r\U{E9}cup\U{E9}rer" + " " + "menu" + " de " + "../" + "jdr-coffee pour " + "layout"
    ensures Lower(request) == request
  {
    var a, b := "r\U{E9}cup\U{E9}rer" + " " + "menu" + " de ", "../" + "jdr-coffee pour " + "layout";
    assert request == a + b;
    assert NoUpper(a);
    assert NoUpper(b);
    NoUpperAppend(a, b);
    LowerIsLower(request);
  }

  lemma CopyRequestWords(request: string)
    requires request == "r\U{E9}cup\U{E9}rer" + " " + "menu" + " de " + "../" + "jdr-coffee pour " + "layout"
    ensures Contains(request, "r\U{E9}cup\U{E9}rer") && Contains(request, "menu")
    ensures Contains(request, "../") && Contains(request, "layout")
  {
    ContainsInfix(request, "", "r\U{E9}cup\U{E9}rer", " " + "menu" + " de " + "../" + "jdr-coffee pour " + "layout");
    ContainsInfix(request, "r\U{E9}cup\U{E9}rer" + " ", "menu", " de " + "../" + "jdr-coffee pour " + "layout");
    ContainsInfix(request, "r\U{E9}cup\U{E9}rer" + " " + "menu" + " de ", "../", "jdr-coffee pour " + "layout");
    ContainsInfix(request, "r\U{E9}cup\U{E9}rer" + " " + "menu" + " de " + "../" + "jdr-coffee pour ", "layout", "");
  }

  /** The enforcement script's cross-project copy request scores at least 7 and is COMPLEX. */
  lemma RecupererMenuIsComplex(request: string)
    requires request == "r\U{E9}cup\U{E9}rer menu de ../jdr-coffee pour layout"
    ensures Analyze(request, ComplexityRules, WorkflowPatterns).totalPoints >= 7
    ensures Analyze(request, ComplexityRules, WorkflowPatterns).level == Complex
  {
    CopyRequestPieces(request);
    CopyRequestIsLowerCase(request);
    CopyRequestWords(request);
    AnyContainedIff(request, ActionWords);
    assert ActionWords[5] == "r\U{E9}cup\U{E9}rer";
    CopyingMenuAndLayoutIsComplex(request);
  }

  // ---------------------------------------------------------------------
  // "create a new button component" is COMPLEX (the script asks for WORKFLOW)
  // ---------------------------------------------------------------------

  lemma ButtonRequestPieces(request: string)
    requires request == "create a new button component"
    ensures request == "create" + " a new " + "button" + " " + "component"
  {
  }

  lemma ButtonRequestIsLowerCase(request: string)
    requires request == "create" + " a new " + "button" + " " + "component"
    ensures Lower(request) == request
  {
    var a, b := "create" + " a new ", "button" + " " + "component";
    assert request == a + b;
    assert NoUpper(a);
    assert NoUpper(b);
    NoUpperAppend(a, b);
    LowerIsLower(request);
  }

  lemma ButtonRequestWords(request: string)
    requires request == "create" + " a new " + "button" + " " + "component"
    ensures Contains(request, "create") && Contains(request, "button") && Contains(request, "component")
  {
    ContainsInfix(request, "", "create", " a new " + "button" + " " + "component");
    ContainsInfix(request, "create" + " a new ", "button", " " + "component");
    ContainsInfix(request, "create" + " a new " + "button" + " ", "component", "");
  }

  /**
   * The enforcement script's button request scores at least 7 and is COMPLEX:
   * the frontend, user-facing and domain bonus points add up past the
   * workflow band the script asks for.
   */
  lemma CreateButtonComponentIsComplex(request: string)
    requires request == "create a new button component"
    ensures Analyze(request, ComplexityRules, WorkflowPatterns).totalPoints >= 7
    ensures Analyze(request, ComplexityRules, WorkflowPatterns).level == Complex
  {
    ButtonRequestPieces(request);
    ButtonRequestIsLowerCase(request);
    ButtonRequestWords(request);
    CreatingButtonComponentIsComplex(request);
  }

  // ---------------------------------------------------------------------
  // "implement user authentication system with dashboard" is DIRECT
  // (the script asks for COMPLEX)
  // ---------------------------------------------------------------------

  /** The words of the request, which joined by single spaces make the request. */
  const AuthWords: seq<string> := ["implement", "user", "authentication", "system", "with", "dashboard"]

  lemma AuthRequestIsLowerCase(request: string)
    requires request == Join(AuthWords, " ")
    ensures Lower(request) == request
  {
    AuthWordsNoUpper();
    JoinNoUpper(AuthWords, " ");
    LowerIsLower(request);
  }

  lemma AuthWordsNoUpper()
    ensures forall w :: w in AuthWords ==> NoUpper(w)
  {
    FirstAuthWordsNoUpper();
    LastAuthWordsNoUpper();
  }

  lemma FirstAuthWordsNoUpper()
    ensures NoUpper("implement") && NoUpper("user") && NoUpper("authentication")
  {
  }

  lemma LastAuthWordsNoUpper()
    ensures NoUpper("system") && NoUpper("with") && NoUpper("dashboard")
  {
  }

  /** A pattern without spaces that no word holds is not in the words joined by spaces. */
  lemma SixWordsLack(w0: string, w1: string, w2: string, w3: string, w4: string, w5: string, sub: string)
    requires ' ' !in sub && !Contains(w0, sub) && !Contains(w1, sub) && !Contains(w2, sub)
    requires !Contains(w3, sub) && !Contains(w4, sub) && !Contains(w5, sub)
    ensures !Contains(Join([w0, w1, w2, w3, w4, w5], " "), sub)
  {
    var words := [w0, w1, w2, w3, w4, w5];
    forall w | w in words
      ensures !Contains(w, sub)
    {
      var i :| 0 <= i < 6 && words[i] == w;
    }
    JoinedNotContained(words, ' ', sub);
  }

  /** The word `w` cannot hold `sub`: it lacks the character `c` of `sub`, or it is shorter. */
  predicate Excludes(w: string, sub: string, c: char) {
    (c in sub && c !in w) || |sub| > |w|
  }

  lemma ExcludesNotContained(w: string, sub: string, c: char)
    requires Excludes(w, sub, c)
    ensures !Contains(w, sub)
  {
    if |sub| > |w| {
      LongerNotContained(w, sub);
    } else {
      MissingCharNotContained(w, sub, c);
    }
  }

  /** As above, with each word excluded by a character or by its length. */
  lemma SixWordsExclude(w0: string, w1: string, w2: string, w3: string, w4: string, w5: string, sub: string,
                        c0: char, c1: char, c3: char, c4: char, c5: char)
    requires ' ' !in sub && !Contains(w2, sub)
    requires Excludes(w0, sub, c0) && Excludes(w1, sub, c1)
    requires Excludes(w3, sub, c3) && Excludes(w4, sub, c4) && Excludes(w5, sub, c5)
    ensures !Contains(Join([w0, w1, w2, w3, w4, w5], " "), sub)
  {
    ExcludesNotContained(w0, sub, c0);
    ExcludesNotContained(w1, sub, c1);
    ExcludesNotContained(w3, sub, c3);
    ExcludesNotContained(w4, sub, c4);
    ExcludesNotContained(w5, sub, c5);
    SixWordsLack(w0, w1, w2, w3, w4, w5, sub);
  }

  /** `sub` is not in the request: each word lacks the character given for it, or is shorter. */
  lemma AuthLacksByChars(sub: string, c0: char, c1: char, c2: char, c3: char, c4: char, c5: char)
    requires ' ' !in sub && Excludes("implement", sub, c0) && Excludes("user", sub, c1)
    requires Excludes("authentication", sub, c2) && Excludes("system", sub, c3)
    requires Excludes("with", sub, c4) && Excludes("dashboard", sub, c5)
    ensures !Contains(Join(AuthWords, " "), sub)
  {
    ExcludesNotContained("authentication", sub, c2);
    SixWordsExclude("implement", "user", "authentication", "system", "with", "dashboard", sub, c0, c1, c3, c4, c5);
  }

  /**
   * The word `w` cannot hold `sub`: the character at `k` is not in `sub`,
   * and the text before and the text after it exclude `sub`.
   */
  predicate ExcludesAround(w: string, sub: string, k: int, before: char, after: char) {
    0 <= k < |w| && w[k] !in sub && Excludes(w[..k], sub, before) && Excludes(w[k + 1..], sub, after)
  }

  lemma ExcludesAroundNotContained(w: string, sub: string, k: int, before: char, after: char)
    requires ExcludesAround(w, sub, k, before, after)
    ensures !Contains(w, sub)
  {
    ExcludesNotContained(w[..k], sub, before);
    ExcludesNotContained(w[k + 1..], sub, after);
    SplitAtNotContained(w, k, sub);
  }

  /** As `AuthLacksByChars`, with "authentication" cut around one of its characters. */
  lemma AuthLacksAround(sub: string, c0: char, c1: char, k: int, before: char, after: char, c3: char, c4: char, c5: char)
    requires ' ' !in sub && Excludes("implement", sub, c0) && Excludes("user", sub, c1)
    requires ExcludesAround("authentication", sub, k, before, after) && Excludes("system", sub, c3)
    requires Excludes("with", sub, c4) && Excludes("dashboard", sub, c5)
    ensures !Contains(Join(AuthWords, " "), sub)
  {
    ExcludesAroundNotContained("authentication", sub, k, before, after);
    SixWordsExclude("implement", "user", "authentication", "system", "with", "dashboard", sub, c0, c1, c3, c4, c5);
  }

  /** "ui" is not in the request: the only "u" of "authentication" is followed by "th", and no other word has both letters. */
  lemma AuthLacksUi()
    ensures !Contains(Join(AuthWords, " "), "ui")
  {
    AuthLacksAround("ui", 'u', 'i', 3, 'i', 'u', 'u', 'u', 'u');
  }

  /** "uti" is not in the request, for the same reasons. */
  lemma AuthLacksUti()
    ensures !Contains(Join(AuthWords, " "), "uti")
  {
    AuthLacksAround("uti", 'u', 't', 3, 'i', 'u', 'u', 'u', 'u');
  }

  lemma AuthLacksLayout()
    ensures !Contains(Join(AuthWords, " "), "layout")
  {
    AuthLacksByChars("layout", 'y', 'y', 'y', 'l', 'y', 'y');
  }

  lemma AuthLacksComponent()
    ensures !Contains(Join(AuthWords, " "), "component")
  {
    AuthLacksByChars("component", 'c', 'c', 'm', 'c', 'c', 'c');
  }

  lemma AuthLacksMenu()
    ensures !Contains(Join(AuthWords, " "), "menu")
  {
    AuthLacksByChars("menu", 'u', 'm', 'm', 'n', 'm', 'm');
  }

  lemma AuthLacksButton()
    ensures !Contains(Join(AuthWords, " "), "button")
  {
    AuthLacksByChars("button", 'b', 'b', 'b', 'b', 'b', 'u');
  }

  lemma AuthLacksReuse()
    ensures !Contains(Join(AuthWords, " "), "reuse")
  {
    AuthLacksByChars("reuse", 'r', 'r', 'r', 'r', 'r', 'u');
  }

  lemma AuthLacksAdapt()
    ensures !Contains(Join(AuthWords, " "), "adapt")
  {
    AuthLacksByChars("adapt", 'a', 'a', 'd', 'a', 'a', 'p');
  }

  /** A character none of the words holds is not in the request. */
  lemma AuthLacksChar(c: char)
    requires c != ' ' && c !in "implement" && c !in "user" && c !in "authentication"
    requires c !in "system" && c !in "with" && c !in "dashboard"
    ensures c !in Join(AuthWords, " ")
  {
    JoinLacksChar(AuthWords, " ", c);
  }

  /** The request has no "g": "design" and "page" are absent. */
  lemma AuthLacksG()
    ensures !Contains(Join(AuthWords, " "), "design") && !Contains(Join(AuthWords, " "), "page")
  {
    AuthLacksChar('g');
    MissingCharNotContained(Join(AuthWords, " "), "design", 'g');
    MissingCharNotContained(Join(AuthWords, " "), "page", 'g');
  }

  /** The request has no "f": "interface", "form" and "copy from" are absent. */
  lemma AuthLacksF()
    ensures !Contains(Join(AuthWords, " "), "interface") && !Contains(Join(AuthWords, " "), "form")
    ensures !Contains(Join(AuthWords, " "), "copy from")
  {
    AuthLacksChar('f');
    MissingCharNotContained(Join(AuthWords, " "), "interface", 'f');
    MissingCharNotContained(Join(AuthWords, " "), "form", 'f');
    MissingCharNotContained(Join(AuthWords, " "), "copy from", 'f');
  }

  /** The request has no ".", so no pattern holding one. */
  lemma AuthLacksDotPatterns()
    ensures forall f :: '.' in f ==> !Contains(Join(AuthWords, " "), f)
  {
    AuthLacksChar('.');
    forall f | '.' in f
      ensures !Contains(Join(AuthWords, " "), f)
    {
      MissingCharNotContained(Join(AuthWords, " "), f, '.');
    }
  }

  /** No relative path and no file extension is in the request. */
  lemma AuthLacksPathsAndExtensions()
    ensures !Contains(Join(AuthWords, " "), "../")
    ensures forall f :: f in MultipleFilesRule.keywords ==> !Contains(Join(AuthWords, " "), f)
  {
    AuthLacksDotPatterns();
    assert '.' in "../";
    assert forall f :: f in MultipleFilesRule.keywords ==> '.' in f;
  }

  /** The request has no "j" and no "uti": "autre projet" and "utiliser code de" are absent. */
  lemma AuthLacksPhrases()
    ensures !Contains(Join(AuthWords, " "), "autre projet") && !Contains(Join(AuthWords, " "), "utiliser code de")
  {
    AuthLacksChar('j');
    MissingCharNotContained(Join(AuthWords, " "), "autre projet", 'j');
    AuthLacksUti();
    InfixContained(Join(AuthWords, " "), "", "uti", "liser code de");
    UtiliserCodeDePieces();
  }

  lemma UtiliserCodeDePieces()
    ensures "" + "uti" + "liser code de" == "utiliser code de"
  {
  }

  lemma AuthLacksResearch()
    ensures !Contains(Join(AuthWords, " "), "research")
  {
    AuthLacksByChars("research", 'r', 'a', 'r', 'r', 'r', 'e');
  }

  lemma AuthLacksHistorical()
    ensures !Contains(Join(AuthWords, " "), "historical")
  {
    AuthLacksByChars("historical", 'h', 'h', 's', 'h', 'o', 'i');
  }

  lemma AuthLacksData()
    ensures !Contains(Join(AuthWords, " "), "data")
  {
    AuthLacksByChars("data", 'd', 'd', 'd', 'd', 'd', 't');
  }

  lemma AuthLacksAnalysis()
    ensures !Contains(Join(AuthWords, " "), "analysis")
  {
    AuthLacksByChars("analysis", 'a', 'a', 'y', 'a', 'a', 'y');
  }

  lemma AuthLacksCorpus()
    ensures !Contains(Join(AuthWords, " "), "corpus")
  {
    AuthLacksByChars("corpus", 'c', 'c', 'p', 'c', 'c', 'c');
  }

  lemma AuthLacksMedieval()
    ensures !Contains(Join(AuthWords, " "), "medieval")
  {
    AuthLacksChar('v');
    MissingCharNotContained(Join(AuthWords, " "), "medieval", 'v');
  }

  /** The lower-cased frontend keywords, "UI" becoming "ui". */
  lemma FrontendKeywordsLowered()
    ensures Lower("layout") == "layout" && Lower("component") == "component" && Lower("design") == "design"
    ensures Lower("UI") == "ui" && Lower("menu") == "menu" && Lower("page") == "page"
    ensures Lower("interface") == "interface" && Lower("form") == "form" && Lower("button") == "button"
  {
  }

  lemma OtherKeywordsLowered()
    ensures forall f :: f in CrossProjectRule.keywords ==> Lower(f) == f
    ensures forall f :: f in MultipleFilesRule.keywords ==> Lower(f) == f
    ensures Lower("dashboard") == "dashboard"
  {
    CrossProjectKeywordsLowered();
    FileKeywordsLowered();
  }

  lemma CrossProjectKeywordsLowered()
    ensures forall f :: f in CrossProjectRule.keywords ==> Lower(f) == f
  {
    forall f | f in CrossProjectRule.keywords
      ensures Lower(f) == f
    {
      assert NoUpper(f);
      LowerIsLower(f);
    }
  }

  lemma FileKeywordsLowered()
    ensures forall f :: f in MultipleFilesRule.keywords ==> Lower(f) == f
    ensures Lower("dashboard") == "dashboard"
  {
    forall f | f in MultipleFilesRule.keywords || f == "dashboard"
      ensures Lower(f) == f
    {
      assert NoUpper(f);
      LowerIsLower(f);
    }
  }

  /** No frontend keyword, lower-cased, is in the request. */
  lemma AuthLacksFrontendKeywords(content: string)
    requires content == Join(AuthWords, " ")
    ensures forall f :: f in FrontendRule.keywords ==> !Contains(content, Lower(f))
  {
    FrontendKeywordsLowered();
    AuthLacksLayout();
    AuthLacksComponent();
    AuthLacksG();
    AuthLacksUi();
    AuthLacksMenu();
    AuthLacksF();
    AuthLacksButton();
  }

  /** No cross-project or file keyword, lower-cased, is in the request. */
  lemma AuthLacksOtherKeywords(content: string)
    requires content == Join(AuthWords, " ")
    ensures forall f :: f in CrossProjectRule.keywords ==> !Contains(content, Lower(f))
    ensures forall f :: f in MultipleFilesRule.keywords ==> !Contains(content, Lower(f))
  {
    OtherKeywordsLowered();
    AuthLacksPathsAndExtensions();
    AuthLacksPhrases();
    AuthLacksReuse();
    AuthLacksF();
    AuthLacksAdapt();
  }

  /** No frontend trigger, as written, is in the request. */
  lemma AuthFrontendTriggersAbsent(content: string)
    requires content == Join(AuthWords, " ")
    ensures TriggerMatches(content, FrontendPattern.triggers) == []
  {
    AuthLacksLayout();
    AuthLacksComponent();
    AuthLacksG();
    AuthLacksMenu();
    AuthRequestIsLowerCase(content);
    UpperPatternNeverMatchesLowered(content, "UI", 0);
    NoTriggerNoMatches(content, FrontendPattern.triggers);
  }

  /** No research trigger is in the request. */
  lemma AuthResearchTriggersAbsent(content: string)
    requires content == Join(AuthWords, " ")
    ensures TriggerMatches(content, ResearchPattern.triggers) == []
  {
    AuthLacksResearch();
    AuthLacksHistorical();
    AuthLacksData();
    AuthLacksAnalysis();
    AuthLacksMedieval();
    AuthLacksCorpus();
    NoTriggerNoMatches(content, ResearchPattern.triggers);
  }

  /** Only the product domain can be detected in the request. */
  lemma AuthDomains(content: string)
    requires content == Join(AuthWords, " ")
    ensures |DetectDomains(content, WorkflowPatterns)| <= 1
  {
    AuthFrontendTriggersAbsent(content);
    AuthResearchTriggersAbsent(content);
    DomainCount(content, FrontendPattern, ResearchPattern, ProductPattern);
  }

  /**
   * The enforcement script's authentication request scores exactly 1 and is
   * DIRECT: "dashboard" is its only rule keyword, and "implement" its only
   * domain trigger.
   */
  lemma ImplementAuthenticationIsDirect(request: string)
    requires request == Join(AuthWords, " ")
    ensures Analyze(request, ComplexityRules, WorkflowPatterns).totalPoints == 1
    ensures Analyze(request, ComplexityRules, WorkflowPatterns).level == Direct
  {
    AuthRequestIsLowerCase(request);
    JoinContainsPart(AuthWords, " ", 0);
    JoinContainsPart(AuthWords, " ", 5);
    AnyContainedIff(request, ActionWords);
    assert ActionWords[2] == "implement";
    assert !PureQuestion(request);
    OtherKeywordsLowered();
    AuthLacksFrontendKeywords(request);
    AuthLacksOtherKeywords(request);
    AuthDomains(request);
    OnlyUserFacingIsDirect(request, "dashboard");
  }
}
