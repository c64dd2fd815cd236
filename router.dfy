/** orchestration/patterns/router_pattern.py: keyword routing of a query to
    one of the available agents, and the query analysis. */
module Router {

  import opened Common
  import opened PyText

  /** One entry of `routing_rules`: a category, its keywords and its agents
      in preference order. */
  datatype Rule = Rule(category: string, keywords: seq<string>, agents: seq<string>)

  /** `routing_rules`, in its insertion order. */
  function RoutingRules(): seq<Rule> {
    [Rule("financial",
          ["سهم", "أسهم", "استثمار", "محفظة", "مالي", "تقرير مالي",
           "stock", "investment", "portfolio", "financial", "revenue"],
          ["financial_analyst", "investment_advisor"]),
     Rule("research",
          ["بحث", "دراسة", "ورقة علمية", "مرجع", "اقتباس",
           "research", "study", "paper", "citation", "reference"],
          ["deep_research", "researcher"]),
     Rule("general", [], ["researcher", "qa"])]
  }

  /** The agents of the `general` rule, the default choice. */
  function GeneralAgents(): seq<string> {
    ["researcher", "qa"]
  }

  /** The first of `agents` that is available. */
  function FirstAvailable(agents: seq<string>, available: seq<string>): (r: Option<string>)
    ensures r.Some? ==> r.value in available && r.value in agents
    ensures r.None? <==> forall a :: a in agents ==> a !in available
    ensures r.Some? ==> exists i :: 0 <= i < |agents| && agents[i] == r.value && forall j :: 0 <= j < i ==> agents[j] !in available
  {
    if agents == [] then None
    else if agents[0] in available then Some(agents[0])
    else
      var r := FirstAvailable(agents[1..], available);
      if r.Some? then
        var i :| 0 <= i < |agents[1..]| && agents[1..][i] == r.value && forall j :: 0 <= j < i ==> agents[1..][j] !in available;
        assert agents[i + 1] == r.value;
        r
      else r
  }

  /** Some keyword occurs in the lower-cased query. */
  predicate Hits(keywords: seq<string>, queryLower: string) {
    exists k :: 0 <= k < |keywords| && Contains(queryLower, keywords[k])
  }

  /** A rule that can route the query: a keyword hits and one of its agents
      is available. */
  predicate Usable(rule: Rule, queryLower: string, available: seq<string>) {
    Hits(rule.keywords, queryLower) && FirstAvailable(rule.agents, available).Some?
  }

  /** The keyword loop of one category: the first hitting keyword returns
      the category's first available agent; a hit without one goes on. */
  function ScanKeywords(keywords: seq<string>, agents: seq<string>, queryLower: string, available: seq<string>)
    : (r: Option<string>)
    ensures r.Some? <==> Hits(keywords, queryLower) && FirstAvailable(agents, available).Some?
    ensures r.Some? ==> r == FirstAvailable(agents, available)
  {
    if keywords == [] then None
    else if Contains(queryLower, keywords[0]) && FirstAvailable(agents, available).Some? then
      FirstAvailable(agents, available)
    else
      var r := ScanKeywords(keywords[1..], agents, queryLower, available);
      assert Hits(keywords, queryLower) ==> Contains(queryLower, keywords[0]) || Hits(keywords[1..], queryLower) by {
        if Hits(keywords, queryLower) {
          var k :| 0 <= k < |keywords| && Contains(queryLower, keywords[k]);
          if k > 0 {
            assert keywords[1..][k - 1] == keywords[k];
          }
        }
      }
      assert Hits(keywords[1..], queryLower) ==> Hits(keywords, queryLower) by {
        if Hits(keywords[1..], queryLower) {
          var k :| 0 <= k < |keywords[1..]| && Contains(queryLower, keywords[1..][k]);
          assert keywords[k + 1] == keywords[1..][k];
        }
      }
      r
  }

  /** The category loop of `route`: the first usable rule, in order, picks its
      first available agent. */
  function ScanRules(rules: seq<Rule>, queryLower: string, available: seq<string>): (r: Option<string>)
    ensures r.Some? ==> r.value in available
  {
    if rules == [] then None
    else
      var here := ScanKeywords(rules[0].keywords, rules[0].agents, queryLower, available);
      if here.Some? then here else ScanRules(rules[1..], queryLower, available)
  }

  /** A keyword route comes from the first usable rule; with none there is
      no keyword route. */
  lemma {:induction false} ScanRulesFirstUsable(rules: seq<Rule>, queryLower: string, available: seq<string>)
    ensures var r := ScanRules(rules, queryLower, available);
      r.Some? ==> exists i :: (0 <= i < |rules| && Usable(rules[i], queryLower, available)
        && r == FirstAvailable(rules[i].agents, available)
        && forall j :: 0 <= j < i ==> !Usable(rules[j], queryLower, available))
    ensures ScanRules(rules, queryLower, available).None? ==>
      forall i :: 0 <= i < |rules| ==> !Usable(rules[i], queryLower, available)
  {
    if rules != [] {
      var here := ScanKeywords(rules[0].keywords, rules[0].agents, queryLower, available);
      var r := ScanRules(rules[1..], queryLower, available);
      ScanRulesFirstUsable(rules[1..], queryLower, available);
      if here.Some? {
        assert Usable(rules[0], queryLower, available);
      } else if r.Some? {
        var i :| 0 <= i < |rules[1..]| && Usable(rules[1..][i], queryLower, available)
          && r == FirstAvailable(rules[1..][i].agents, available)
          && forall j :: 0 <= j < i ==> !Usable(rules[1..][j], queryLower, available);
        assert rules[i + 1] == rules[1..][i];
        forall j | 0 <= j < i + 1
          ensures !Usable(rules[j], queryLower, available)
        {
          if j > 0 {
            assert rules[j] == rules[1..][j - 1];
          }
        }
      } else {
        forall i | 0 <= i < |rules|
          ensures !Usable(rules[i], queryLower, available)
        {
          if i > 0 {
            assert rules[i] == rules[1..][i - 1];
          }
        }
      }
    }
  }

  /** `RouterPattern.route`: a keyword route, else the first available
      general agent, else the first available agent; with none, ValueError. */
  function Route(query: string, available: seq<string>): (r: Raising<string>)
    ensures r.Returned? ==> r.value in available
    ensures r.Raised? <==> available == []
    ensures r.Raised? ==> r.message == "No agents available for routing"
    ensures ScanRules(RoutingRules(), Lower(query), available).Some? ==>
      r == Returned(ScanRules(RoutingRules(), Lower(query), available).value)
    ensures ScanRules(RoutingRules(), Lower(query), available).None? && FirstAvailable(GeneralAgents(), available).Some? ==>
      r == Returned(FirstAvailable(GeneralAgents(), available).value)
    ensures (ScanRules(RoutingRules(), Lower(query), available).None? && FirstAvailable(GeneralAgents(), available).None?
             && available != []) ==> r == Returned(available[0])
  {
    match ScanRules(RoutingRules(), Lower(query), available)
    case Some(a) => Returned(a)
    case None =>
      match FirstAvailable(GeneralAgents(), available)
      case Some(a) => Returned(a)
      case None =>
        if available != [] then Returned(available[0]) else Raised("No agents available for routing")
  }

  /** The keywords of a category that occur in the lower-cased query, in
      list order. */
  function Matched(keywords: seq<string>, queryLower: string): (r: seq<string>)
    ensures forall k :: k in r <==> k in keywords && Contains(queryLower, k)
    ensures |r| <= |keywords|
  {
    if keywords == [] then []
    else if Contains(queryLower, keywords[0]) then [keywords[0]] + Matched(keywords[1..], queryLower)
    else Matched(keywords[1..], queryLower)
  }

  /** The `detected_categories` entries, in rule order. */
  function Detected(rules: seq<Rule>, queryLower: string): (r: seq<(string, seq<string>)>)
    ensures forall d :: d in r ==> d.1 != [] && exists rule :: rule in rules && d == (rule.category, Matched(rule.keywords, queryLower))
    ensures forall rule :: rule in rules && Matched(rule.keywords, queryLower) != [] ==>
      (rule.category, Matched(rule.keywords, queryLower)) in r
  {
    if rules == [] then []
    else
      var m := Matched(rules[0].keywords, queryLower);
      (if m != [] then [(rules[0].category, m)] else []) + Detected(rules[1..], queryLower)
  }

  /** A category without keywords, like `general`, is never reported. */
  lemma KeywordlessCategoryNeverReported(rules: seq<Rule>, queryLower: string, category: string)
    requires forall rule :: rule in rules && rule.category == category ==> rule.keywords == []
    ensures forall d :: d in Detected(rules, queryLower) ==> d.0 != category
  {
  }

  function QuestionIndicators(): seq<string> {
    ["؟", "?", "ما", "من", "كيف", "لماذا", "متى", "أين", "هل",
     "what", "who", "how", "why", "when", "where", "is", "are"]
  }

  /** `_is_question`: some indicator occurs in the lower-cased text. */
  function IsQuestion(text: string): (r: bool)
    ensures r <==> exists k :: 0 <= k < |QuestionIndicators()| && Contains(Lower(text), QuestionIndicators()[k])
  {
    Hits(QuestionIndicators(), Lower(text))
  }

  datatype Analysis = Analysis(query: string, length: nat, wordCount: nat,
                               detectedCategories: seq<(string, seq<string>)>,
                               hasQuestion: bool, language: string)

  /** `analyze_query` */
  function AnalyzeQuery(query: string): (r: Analysis)
    ensures r.length == |query| && r.wordCount == |SplitWs(query)|
    ensures r.language == "ar" <==> IsArabic(query)
    ensures r.language == "ar" || r.language == "en"
    ensures r.detectedCategories == Detected(RoutingRules(), Lower(query))
    ensures r.hasQuestion == IsQuestion(query)
  {
    Analysis(query, |query|, |SplitWs(query)|, Detected(RoutingRules(), Lower(query)), IsQuestion(query),
             if IsArabic(query) then "ar" else "en")
  }

  /** The analysis never reports the `general` category. */
  lemma GeneralNeverDetected(query: string)
    ensures forall d :: d in AnalyzeQuery(query).detectedCategories ==> d.0 != "general"
  {
    KeywordlessCategoryNeverReported(RoutingRules(), Lower(query), "general");
  }
}
