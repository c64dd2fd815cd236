/** core/dify_config.py: the Dify API settings, the registry of the seven
    default agent configurations, URL joining and request headers, and the
    module-level configuration singleton. Environment variables are read
    through an `env` function (`None` for an unset variable). */
module DifyConfig {

  import opened Common
  import opened PyText

  datatype AgentType = Portfolio | Risk | Market | Compliance | Summarizer | Researcher | QA

  /** The agent types in the order `_load_agent_configs` registers them. */
  const AllAgentTypes: seq<AgentType> := [Portfolio, Risk, Market, Compliance, Summarizer, Researcher, QA]

  function TypeValue(t: AgentType): string {
    match t
    case Portfolio => "portfolio"
    case Risk => "risk"
    case Market => "market"
    case Compliance => "compliance"
    case Summarizer => "summarizer"
    case Researcher => "researcher"
    case QA => "qa"
  }

  const TypeValues: set<string> := {"portfolio", "risk", "market", "compliance", "summarizer", "researcher", "qa"}

  /** `AgentType(s)` as a lookup that does not raise. */
  function ParseAgentType(s: string): (r: Option<AgentType>)
    ensures r.Some? ==> TypeValue(r.value) == s
    ensures r.None? ==> forall t: AgentType :: TypeValue(t) != s
    ensures r.Some? <==> s in TypeValues
  {
    if s == "portfolio" then Some(Portfolio)
    else if s == "risk" then Some(Risk)
    else if s == "market" then Some(Market)
    else if s == "compliance" then Some(Compliance)
    else if s == "summarizer" then Some(Summarizer)
    else if s == "researcher" then Some(Researcher)
    else if s == "qa" then Some(QA)
    else None
  }

  /** The seven values are distinct, and they are exactly `TypeValues`. */
  lemma TypeValuesExact(t: AgentType)
    ensures TypeValue(t) in TypeValues
    ensures ParseAgentType(TypeValue(t)) == Some(t)
  {
  }

  datatype Environment = Development | Staging | Production

  function EnvironmentValue(e: Environment): string {
    match e
    case Development => "development"
    case Staging => "staging"
    case Production => "production"
  }

  function ParseEnvironment(s: string): (r: Option<Environment>)
    ensures r.Some? ==> EnvironmentValue(r.value) == s
    ensures r.None? ==> forall e: Environment :: EnvironmentValue(e) != s
  {
    if s == "development" then Some(Development)
    else if s == "staging" then Some(Staging)
    else if s == "production" then Some(Production)
    else None
  }

  datatype ModelProvider = OpenAI | Anthropic | Azure | Ollama | Baidu

  /** The fields of a `DifyAPIConfig`. */
  datatype ApiConfig = ApiConfig(
    apiKey: string, baseUrl: string, apiVersion: string, timeout: int, maxRetries: int,
    environment: Environment)

  /** `DifyAPIConfig(...)` with `__post_init__`: an empty key is refused only
      when the environment passed in is PRODUCTION; whenever that check
      passes, the environment is replaced by `DIFY_ENV` (default
      "development"), which raises when it names no environment. */
  function PostInit(apiKey: string, baseUrl: string, apiVersion: string, timeout: int, maxRetries: int,
                    environment: Environment, difyEnv: Option<string>): (r: Raising<ApiConfig>)
    ensures apiKey == "" && environment == Production ==>
      r == Raised("DIFY_API_KEY is required for production environment")
    ensures r.Returned? ==> ParseEnvironment(difyEnv.GetOr("development")) == Some(r.value.environment)
    ensures r.Returned? ==> r.value.apiKey == apiKey && r.value.baseUrl == baseUrl
    ensures !(apiKey == "" && environment == Production) && ParseEnvironment(difyEnv.GetOr("development")).Some? ==>
      r.Returned?
  {
    if apiKey == "" && environment == Production then
      Raised("DIFY_API_KEY is required for production environment")
    else
      var name := difyEnv.GetOr("development");
      match ParseEnvironment(name)
      case None => Raised("'" + name + "' is not a valid DifyEnvironment")
      case Some(e) => Returned(ApiConfig(apiKey, baseUrl, apiVersion, timeout, maxRetries, e))
  }

  /** `DifyAPIConfig()` with every default: the key and base URL come from
      the environment, and the environment passed to the check is always
      DEVELOPMENT. */
  function DefaultApiConfig(env: string -> Option<string>): Raising<ApiConfig> {
    PostInit(env("DIFY_API_KEY").GetOr(""), env("DIFY_BASE_URL").GetOr("http://localhost:8001/api"),
             "v1", 30, 3, Development, env("DIFY_ENV"))
  }

  /** The key check runs before `DIFY_ENV` is read, so the default
      construction never refuses a missing key, even when `DIFY_ENV` says
      production: it ends as a production configuration without a key. */
  lemma KeyCheckPrecedesEnvironment(env: string -> Option<string>)
    requires env("DIFY_API_KEY") == None && env("DIFY_ENV") == Some("production")
    ensures DefaultApiConfig(env).Returned?
    ensures DefaultApiConfig(env).value.environment == Production && DefaultApiConfig(env).value.apiKey == ""
  {
  }

  /** The fields of an `AgentConfig`, its system prompt aside. */
  datatype AgentConfig = AgentConfig(
    name: string, agentType: AgentType, description: string, model: string,
    modelProvider: ModelProvider, temperature: real, maxTokens: int, tools: seq<string>,
    knowledgeBases: seq<string>, memoryEnabled: bool, memoryType: string, maxMemoryTokens: int)

  /** The configuration `_load_agent_configs` registers for each type. */
  function DefaultAgentConfig(t: AgentType, env: string -> Option<string>): (c: AgentConfig)
    ensures c.agentType == t && c.modelProvider == OpenAI && c.maxMemoryTokens == 4000
  {
    match t
    case Portfolio => PortfolioConfig(env)
    case Risk => RiskConfig(env)
    case Market => MarketConfig(env)
    case Compliance => ComplianceConfig(env)
    case Summarizer => SummarizerConfig(env)
    case Researcher => ResearcherConfig(env)
    case QA => QAConfig(env)
  }

  function PortfolioConfig(env: string -> Option<string>): (c: AgentConfig)
    ensures c.agentType == Portfolio && c.modelProvider == OpenAI && c.maxMemoryTokens == 4000
  {
    AgentConfig("Portfolio Analyst Agent", Portfolio,
      "Analyzes investment portfolios and provides recommendations",
      env("PORTFOLIO_AGENT_MODEL").GetOr("gpt-4"), OpenAI, 0.3, 3000,
      ["portfolio_analysis", "risk_calculator", "performance_metrics"],
      [env("KB_FINANCE").GetOr("")], true, "full", 4000)
  }

  function RiskConfig(env: string -> Option<string>): (c: AgentConfig)
    ensures c.agentType == Risk && c.modelProvider == OpenAI && c.maxMemoryTokens == 4000
  {
    AgentConfig("Risk Management Agent", Risk,
      "Identifies and mitigates risks in financial portfolios",
      env("RISK_AGENT_MODEL").GetOr("gpt-4"), OpenAI, 0.2, 2500,
      ["risk_analysis", "stress_testing", "scenario_analysis", "correlation_analysis"],
      [env("KB_RISK").GetOr("")], true, "full", 4000)
  }

  function MarketConfig(env: string -> Option<string>): (c: AgentConfig)
    ensures c.agentType == Market && c.modelProvider == OpenAI && c.maxMemoryTokens == 4000
  {
    AgentConfig("Market Analysis Agent", Market,
      "Provides market insights and trend analysis",
      env("MARKET_AGENT_MODEL").GetOr("gpt-4"), OpenAI, 0.5, 2000,
      ["market_data", "trend_analysis", "sentiment_analysis", "technical_analysis"],
      [env("KB_MARKET").GetOr("")], true, "full", 4000)
  }

  function ComplianceConfig(env: string -> Option<string>): (c: AgentConfig)
    ensures c.agentType == Compliance && c.modelProvider == OpenAI && c.maxMemoryTokens == 4000
  {
    AgentConfig("Compliance Officer Agent", Compliance,
      "Ensures compliance with financial regulations and policies",
      env("COMPLIANCE_AGENT_MODEL").GetOr("gpt-4"), OpenAI, 0.1, 2000,
      ["compliance_check", "regulation_lookup", "audit_trail", "policy_validator"],
      [env("KB_COMPLIANCE").GetOr("")], true, "full", 4000)
  }

  function SummarizerConfig(env: string -> Option<string>): (c: AgentConfig)
    ensures c.agentType == Summarizer && c.modelProvider == OpenAI && c.maxMemoryTokens == 4000
  {
    AgentConfig("Content Summarizer Agent", Summarizer,
      "Summarizes financial documents and reports",
      env("SUMMARIZER_AGENT_MODEL").GetOr("gpt-3.5-turbo"), OpenAI, 0.3, 1000,
      ["text_extraction", "summarization", "key_points"],
      [], false, "full", 4000)
  }

  function ResearcherConfig(env: string -> Option<string>): (c: AgentConfig)
    ensures c.agentType == Researcher && c.modelProvider == OpenAI && c.maxMemoryTokens == 4000
  {
    AgentConfig("Research Agent", Researcher,
      "Conducts research and gathers information",
      env("RESEARCHER_AGENT_MODEL").GetOr("gpt-4"), OpenAI, 0.6, 3000,
      ["web_search", "document_retrieval", "data_aggregation"],
      [env("KB_RESEARCH").GetOr("")], true, "full", 4000)
  }

  function QAConfig(env: string -> Option<string>): (c: AgentConfig)
    ensures c.agentType == QA && c.modelProvider == OpenAI && c.maxMemoryTokens == 4000
  {
    AgentConfig("Q&A Agent", QA,
      "Answers questions based on knowledge base",
      env("QA_AGENT_MODEL").GetOr("gpt-3.5-turbo"), OpenAI, 0.4, 1500,
      ["knowledge_retrieval", "question_answering"],
      [env("KB_GENERAL").GetOr("")], true, "short_term", 4000)
  }

  /** The registry after `_load_agent_configs`. The dict is keyed by each
      type's value; since nothing else writes it, the model keys it by the
      type itself and parses the string on lookup. */
  function DefaultAgents(env: string -> Option<string>): map<AgentType, AgentConfig> {
    map t | t in AllAgentTypes :: DefaultAgentConfig(t, env)
  }

  /** `AllAgentTypes` lists every agent type. */
  lemma AllAgentTypesListed(t: AgentType)
    ensures t in AllAgentTypes
  {
    match t
    case Portfolio => assert AllAgentTypes[0] == t;
    case Risk => assert AllAgentTypes[1] == t;
    case Market => assert AllAgentTypes[2] == t;
    case Compliance => assert AllAgentTypes[3] == t;
    case Summarizer => assert AllAgentTypes[4] == t;
    case Researcher => assert AllAgentTypes[5] == t;
    case QA => assert AllAgentTypes[6] == t;
  }

  /** Every agent type is registered, with a configuration of that type. */
  lemma DefaultAgentsComplete(env: string -> Option<string>, t: AgentType)
    ensures t in DefaultAgents(env) && DefaultAgents(env)[t].agentType == t
  {
    AllAgentTypesListed(t);
  }

  /** A registry holding the default configuration of every type is the
      default registry. */
  lemma RegistryIsDefault(m: map<AgentType, AgentConfig>, env: string -> Option<string>)
    requires forall t: AgentType :: t in m && m[t] == DefaultAgentConfig(t, env)
    ensures m == DefaultAgents(env)
  {
    forall t: AgentType
      ensures t in DefaultAgents(env) && DefaultAgents(env)[t] == m[t]
    {
      DefaultAgentsComplete(env, t);
    }
  }

  /** The seven assignments of `_load_agent_configs` give every type its
      entry. */
  lemma EveryTypeAssigned(m: map<AgentType, AgentConfig>, r: map<AgentType, AgentConfig>,
                          entry: AgentType -> AgentConfig)
    requires r == m[Portfolio := entry(Portfolio)][Risk := entry(Risk)][Market := entry(Market)]
      [Compliance := entry(Compliance)][Summarizer := entry(Summarizer)][Researcher := entry(Researcher)][QA := entry(QA)]
    ensures forall t: AgentType :: t in r && r[t] == entry(t)
  {
    forall t: AgentType
      ensures t in r && r[t] == entry(t)
    {
      match t
      case Portfolio =>
      case Risk =>
      case Market =>
      case Compliance =>
      case Summarizer =>
      case Researcher =>
      case QA =>
    }
  }

  /** The seven assignments, one per type, each with that type's entry. */
  method AssignEach(m: map<AgentType, AgentConfig>, entry: AgentType -> AgentConfig)
    returns (r: map<AgentType, AgentConfig>)
    ensures forall t: AgentType :: t in r && r[t] == entry(t)
  {
    r := m;
    r := r[Portfolio := entry(Portfolio)];
    r := r[Risk := entry(Risk)];
    r := r[Market := entry(Market)];
    r := r[Compliance := entry(Compliance)];
    r := r[Summarizer := entry(Summarizer)];
    r := r[Researcher := entry(Researcher)];
    r := r[QA := entry(QA)];
    EveryTypeAssigned(m, r, entry);
  }

  /** Position `i` of `url` is a slash with no other slash on either side. */
  predicate LoneSlashAt(url: string, i: int) {
    0 <= i < |url| && url[i] == '/' && (i == 0 || url[i - 1] != '/') && (i + 1 == |url| || url[i + 1] != '/')
  }

  /** `get_full_api_url`: trailing slashes of the base and leading slashes of
      the endpoint are dropped, and one slash joins them. */
  function FullApiUrl(base: string, endpoint: string): (r: string)
    ensures |r| <= |base| + 1 + |endpoint|
    ensures exists i :: LoneSlashAt(r, i)
  {
    var b := RStripChar(base, '/');
    var e := LStripChar(endpoint, '/');
    var url := b + "/" + e;
    assert |b| > 0 ==> url[|b| - 1] == b[|b| - 1];
    assert |b| + 1 < |url| ==> url[|b| + 1] == e[0];
    assert LoneSlashAt(url, |b|);
    url
  }

  /** Without stray slashes, the URL is the base, one slash and the endpoint. */
  lemma FullApiUrlOfCleanParts(base: string, endpoint: string)
    requires base == [] || base[|base| - 1] != '/'
    requires endpoint == [] || endpoint[0] != '/'
    ensures FullApiUrl(base, endpoint) == base + "/" + endpoint
  {
  }

  /** A slash more at the end of the base or at the start of the endpoint
      gives the same URL. */
  lemma FullApiUrlIgnoresExtraSlashes(base: string, endpoint: string)
    ensures FullApiUrl(base + "/", endpoint) == FullApiUrl(base, endpoint)
    ensures FullApiUrl(base, "/" + endpoint) == FullApiUrl(base, endpoint)
  {
    assert (base + "/")[..|base|] == base;
    assert ("/" + endpoint)[1..] == endpoint;
  }

  /** The values of the types of `ts` that have a configuration, in order. */
  function RegisteredValues(ts: seq<AgentType>, agents: map<AgentType, AgentConfig>): (r: seq<string>)
    ensures |r| <= |ts|
    ensures forall v :: v in r <==> exists t :: t in ts && t in agents && TypeValue(t) == v
  {
    if ts == [] then []
    else (if ts[0] in agents then [TypeValue(ts[0])] else []) + RegisteredValues(ts[1..], agents)
  }

  /** `DifyConfig`: the API settings and the agent registry. */
  class Config {
    var apiConfig: ApiConfig
    var agents: map<AgentType, AgentConfig>

    /** `DifyConfig()`, given the `DifyAPIConfig` it built. */
    constructor (api: ApiConfig, env: string -> Option<string>)
      ensures apiConfig == api && agents == DefaultAgents(env)
    {
      apiConfig := api;
      agents := map[];
      new;
      LoadAgentConfigs(env);
    }

    /** `_load_agent_configs`: seven assignments, one per type. */
    method LoadAgentConfigs(env: string -> Option<string>)
      modifies this
      ensures apiConfig == old(apiConfig)
      ensures agents == DefaultAgents(env)
    {
      agents := AssignEach(agents, t => DefaultAgentConfig(t, env));
      RegistryIsDefault(agents, env);
    }

    /** `get_agent_config`: `None` for a type with no registered configuration. */
    function GetAgentConfig(agentType: string): (r: Option<AgentConfig>)
      reads this
      ensures r.Some? <==> ParseAgentType(agentType).Some? && ParseAgentType(agentType).value in agents
      ensures r.Some? ==> r.value == agents[ParseAgentType(agentType).value]
    {
      match ParseAgentType(agentType)
      case None => None
      case Some(t) => if t in agents then Some(agents[t]) else None
    }

    /** `get_api_headers` */
    function ApiHeaders(): (h: map<string, string>)
      reads this
      ensures h.Keys == {"Authorization", "Content-Type", "User-Agent"}
      ensures h["Authorization"] == "Bearer " + apiConfig.apiKey
      ensures h["Content-Type"] == "application/json"
    {
      map["Authorization" := "Bearer " + apiConfig.apiKey,
          "Content-Type" := "application/json",
          "User-Agent" := "RAG-ENTERPRISE/2.1.0"]
    }

    function GetFullApiUrl(endpoint: string): string
      reads this
    {
      FullApiUrl(apiConfig.baseUrl, endpoint)
    }

    /** `get_all_agent_types`: the values of the registered types, in the
        order `_load_agent_configs` registers them. */
    function GetAllAgentTypes(): (r: seq<string>)
      reads this
      ensures forall v :: v in r <==> ParseAgentType(v).Some? && ParseAgentType(v).value in agents
    {
      forall v ensures v in RegisteredValues(AllAgentTypes, agents) <==> ParseAgentType(v).Some? && ParseAgentType(v).value in agents {
        if ParseAgentType(v).Some? {
          AllAgentTypesListed(ParseAgentType(v).value);
        }
      }
      RegisteredValues(AllAgentTypes, agents)
    }

    /** `is_configured` */
    predicate IsConfigured()
      reads this
    {
      apiConfig.apiKey != "" && apiConfig.baseUrl != ""
    }
  }

  /** A freshly built configuration answers for every agent type, and for
      nothing else. */
  lemma FreshConfigAnswersEveryType(c: Config, env: string -> Option<string>, s: string)
    requires c.agents == DefaultAgents(env)
    ensures c.GetAgentConfig(s).Some? <==> ParseAgentType(s).Some?
    ensures c.GetAgentConfig(s).Some? ==> c.GetAgentConfig(s).value.agentType == ParseAgentType(s).value
  {
    if ParseAgentType(s).Some? {
      DefaultAgentsComplete(env, ParseAgentType(s).value);
    }
  }

  /** With every listed type registered, the values come out in list order. */
  lemma {:induction false} EveryTypeRegistered(ts: seq<AgentType>, agents: map<AgentType, AgentConfig>)
    requires forall t :: t in ts ==> t in agents
    ensures |RegisteredValues(ts, agents)| == |ts|
    ensures forall i :: 0 <= i < |ts| ==> RegisteredValues(ts, agents)[i] == TypeValue(ts[i])
  {
    if ts != [] {
      EveryTypeRegistered(ts[1..], agents);
    }
  }

  /** A freshly built configuration lists the seven values in the order
      `_load_agent_configs` registers them (`AllAgentTypes`), which is the
      dict's key order. */
  lemma FreshConfigListsInRegistrationOrder(c: Config, env: string -> Option<string>)
    requires c.agents == DefaultAgents(env)
    ensures |c.GetAllAgentTypes()| == |AllAgentTypes|
    ensures forall i :: 0 <= i < |AllAgentTypes| ==> c.GetAllAgentTypes()[i] == TypeValue(AllAgentTypes[i])
  {
    EveryTypeRegistered(AllAgentTypes, c.agents);
  }

  /** The bearer header carries the key itself, after the fixed prefix. */
  lemma BearerHeaderCarriesKey(c: Config)
    ensures |c.ApiHeaders()["Authorization"]| == 7 + |c.apiConfig.apiKey|
    ensures c.ApiHeaders()["Authorization"][7..] == c.apiConfig.apiKey
  {
  }

  /** `is_configured` holds exactly when both the key and the base URL are
      non-empty; the default construction without `DIFY_API_KEY` is therefore
      never configured. */
  lemma UnkeyedDefaultIsNotConfigured(c: Config, env: string -> Option<string>)
    requires env("DIFY_API_KEY") == None && DefaultApiConfig(env).Returned?
    requires c.apiConfig == DefaultApiConfig(env).value
    ensures !c.IsConfigured()
  {
  }

  /** The module-level `_dify_config`. */
  class ConfigSlot {
    var instance: Config?

    constructor ()
      ensures instance == null
    {
      instance := null;
    }

    /** `get_dify_config`: the stored instance, else a new one (whose API
        settings may raise), which is then stored. */
    method GetDifyConfig(env: string -> Option<string>) returns (r: Raising<Config>)
      modifies this
      ensures old(instance) != null ==> r == Returned(old(instance)) && instance == old(instance)
      ensures old(instance) == null && DefaultApiConfig(env).Raised? ==>
        r == Raised(DefaultApiConfig(env).message) && instance == null
      ensures old(instance) == null && DefaultApiConfig(env).Returned? ==>
        r.Returned? && fresh(r.value) && instance == r.value
        && r.value.apiConfig == DefaultApiConfig(env).value && r.value.agents == DefaultAgents(env)
    {
      if instance != null {
        return Returned(instance);
      }
      match DefaultApiConfig(env) {
        case Raised(m) =>
          r := Raised(m);
        case Returned(api) =>
          var c := new Config(api, env);
          instance := c;
          r := Returned(c);
      }
    }

    /** `reset_dify_config` */
    method Reset()
      modifies this
      ensures instance == null
    {
      instance := null;
    }
  }
}
