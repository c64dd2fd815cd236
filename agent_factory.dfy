/** agents/agent_factory.py: the seven Dify-backed agents' input checks and
    result envelopes, the factory's registry of agent instances, and the
    module-level factory singleton. The Dify call an agent makes is the
    `run` function parameter (application id and inputs to its result). */
module AgentFactory {

  import opened Common
  import opened DifyConfig

  /** The input keys each agent type's `validate_inputs` requires. */
  function RequiredKeys(t: AgentType): seq<string> {
    match t
    case Portfolio => ["portfolio_data", "benchmark"]
    case Risk => ["asset_data", "time_horizon"]
    case Market => ["market_data", "asset_type"]
    case Compliance => ["transaction_data", "regulation_type"]
    case Summarizer => ["content"]
    case Researcher => ["query", "topic"]
    case QA => ["question"]
  }

  /** `all(key in inputs for key in required)` */
  function AllPresent(keys: seq<string>, inputs: map<string, Value>): (r: bool)
    ensures r <==> forall i :: 0 <= i < |keys| ==> keys[i] in inputs
  {
    if keys == [] then true else keys[0] in inputs && AllPresent(keys[1..], inputs)
  }

  /** `validate_inputs` of the agent class for `t`. */
  function ValidateInputs(t: AgentType, inputs: map<string, Value>): (r: bool)
    ensures r <==> forall k :: k in RequiredKeys(t) ==> k in inputs
  {
    AllPresent(RequiredKeys(t), inputs)
  }

  /** Keys other than the required ones never matter: adding inputs keeps
      valid inputs valid. */
  lemma ValidationIsMonotone(t: AgentType, inputs: map<string, Value>, more: map<string, Value>)
    requires ValidateInputs(t, inputs)
    ensures ValidateInputs(t, inputs + more)
  {
  }

  /** The error text of `execute` for invalid inputs. */
  function InvalidMessage(t: AgentType): string {
    match t
    case Portfolio => "Invalid portfolio data"
    case Risk => "Invalid risk analysis data"
    case Market => "Invalid market data"
    case Compliance => "Invalid compliance data"
    case Summarizer => "Invalid content data"
    case Researcher => "Invalid research query"
    case QA => "Invalid question"
  }

  /** The `type` field of a successful `execute`. */
  function ResultType(t: AgentType): string {
    match t
    case Portfolio => "portfolio_analysis"
    case Risk => "risk_analysis"
    case Market => "market_analysis"
    case Compliance => "compliance_check"
    case Summarizer => "summarization"
    case Researcher => "research"
    case QA => "question_answer"
  }

  /** An agent instance: the class chosen by type, its id and configuration. */
  datatype Agent = Agent(agentType: AgentType, agentId: string, config: AgentConfig)

  /** `execute`: invalid inputs give the error dict without any Dify call;
      otherwise Dify runs under the agent's id and its result is wrapped. */
  function Execute(a: Agent, inputs: map<string, Value>, run: (string, map<string, Value>) -> Value)
    : (r: map<string, Value>)
    ensures !ValidateInputs(a.agentType, inputs) ==> r == map["error" := Str(InvalidMessage(a.agentType))]
    ensures ValidateInputs(a.agentType, inputs) ==>
      r.Keys == {"type", "result", "agent"} && r["result"] == run(a.agentId, inputs)
      && r["type"] == Str(ResultType(a.agentType)) && r["agent"] == Str(TypeValue(a.agentType))
  {
    if !ValidateInputs(a.agentType, inputs) then map["error" := Str(InvalidMessage(a.agentType))]
    else map["type" := Str(ResultType(a.agentType)), "result" := run(a.agentId, inputs),
             "agent" := Str(TypeValue(a.agentType))]
  }

  /** The Dify call is never made for invalid inputs: whatever it would
      answer, the outcome is the same. */
  lemma InvalidInputsNeverReachDify(a: Agent, inputs: map<string, Value>,
                                    run1: (string, map<string, Value>) -> Value,
                                    run2: (string, map<string, Value>) -> Value)
    requires !ValidateInputs(a.agentType, inputs)
    ensures Execute(a, inputs, run1) == Execute(a, inputs, run2)
    ensures "error" in Execute(a, inputs, run1) && "result" !in Execute(a, inputs, run1)
  {
  }

  /** `get_status` */
  function Status(a: Agent): (r: map<string, Value>)
    ensures r.Keys == {"agent_id", "name", "type", "model", "status"}
    ensures r["agent_id"] == Str(a.agentId) && r["status"] == Str("ready")
    ensures r["type"] == Str(TypeValue(a.config.agentType))
  {
    map["agent_id" := Str(a.agentId), "name" := Str(a.config.name), "type" := Str(TypeValue(a.config.agentType)),
        "model" := Str(a.config.model), "status" := Str("ready")]
  }

  /** `get_available_agent_types`: the keys of `AGENT_CLASSES`, in order. */
  function AvailableAgentTypes(): (r: seq<string>)
    ensures |r| == |AllAgentTypes|
    ensures forall i :: 0 <= i < |r| ==> r[i] == TypeValue(AllAgentTypes[i])
  {
    seq(|AllAgentTypes|, i requires 0 <= i < |AllAgentTypes| => TypeValue(AllAgentTypes[i]))
  }

  /** `AGENT_CLASSES` has a class for exactly the seven agent types. */
  lemma AgentClassesCoverTypes(s: string)
    ensures s in AvailableAgentTypes() <==> ParseAgentType(s).Some?
  {
    if ParseAgentType(s).Some? {
      var t := ParseAgentType(s).value;
      AllAgentTypesListed(t);
      var i :| 0 <= i < |AllAgentTypes| && AllAgentTypes[i] == t;
      assert AvailableAgentTypes()[i] == s;
    }
    if s in AvailableAgentTypes() {
      var i :| 0 <= i < |AvailableAgentTypes()| && AvailableAgentTypes()[i] == s;
      TypeValuesExact(AllAgentTypes[i]);
    }
  }

  /** `AgentFactory`: the configuration it draws on and its instances. */
  class Factory {
    const config: Config
    var instances: map<string, Agent>

    constructor (config: Config)
      ensures this.config == config && instances == map[]
    {
      this.config := config;
      instances := map[];
    }

    /** `get_agent` */
    function GetAgent(agentId: string): (r: Option<Agent>)
      reads this
      ensures r.Some? <==> agentId in instances
      ensures r.Some? ==> r.value == instances[agentId]
    {
      if agentId in instances then Some(instances[agentId]) else None
    }

    /** `create_agent`: the custom configuration, else the registered one; no
        configuration or no class for the type gives `None` and changes
        nothing; otherwise the new agent replaces any under the same id. */
    method CreateAgent(agentType: string, agentId: string, custom: Option<AgentConfig>) returns (r: Option<Agent>)
      modifies this`instances
      ensures var cfg := if custom.Some? then custom else config.GetAgentConfig(agentType);
        r.Some? <==> cfg.Some? && ParseAgentType(agentType).Some?
      ensures r.None? ==> instances == old(instances)
      ensures r.Some? ==>
        var cfg := if custom.Some? then custom else config.GetAgentConfig(agentType);
        r.value == Agent(ParseAgentType(agentType).value, agentId, cfg.value)
        && instances == old(instances)[agentId := r.value]
        && GetAgent(agentId) == r
    {
      var cfg := if custom.Some? then custom else config.GetAgentConfig(agentType);
      if cfg.None? {
        return None;
      }
      var cls := ParseAgentType(agentType);
      if cls.None? {
        return None;
      }
      var agent := Agent(cls.value, agentId, cfg.value);
      instances := instances[agentId := agent];
      r := Some(agent);
    }

    /** `remove_agent`: true and removed exactly when present. */
    method RemoveAgent(agentId: string) returns (removed: bool)
      modifies this`instances
      ensures removed <==> agentId in old(instances)
      ensures instances == old(instances) - {agentId}
      ensures GetAgent(agentId) == None
    {
      if agentId in instances {
        instances := instances - {agentId};
        return true;
      }
      return false;
    }

    /** `list_agents`: a copy, which under value semantics is the map itself. */
    function ListAgents(): map<string, Agent>
      reads this
    {
      instances
    }
  }

  /** With the default registry and no custom configuration, an agent can be
      created for exactly the seven agent types. */
  lemma CreatableTypes(c: Config, env: string -> Option<string>, agentType: string)
    requires c.agents == DefaultAgents(env)
    ensures (c.GetAgentConfig(agentType).Some? && ParseAgentType(agentType).Some?) <==> agentType in TypeValues
  {
    FreshConfigAnswersEveryType(c, env, agentType);
  }

  /** The module-level `_factory_instance`. */
  class FactorySlot {
    var instance: Factory?

    constructor ()
      ensures instance == null
    {
      instance := null;
    }

    /** `get_agent_factory`: the stored factory, else a new empty one, which
        is stored. */
    method GetAgentFactory(config: Config) returns (f: Factory)
      modifies this
      ensures old(instance) != null ==> f == old(instance) && instance == f
      ensures old(instance) == null ==> fresh(f) && f.config == config && f.instances == map[] && instance == f
    {
      if instance == null {
        instance := new Factory(config);
      }
      f := instance;
    }

    /** `reset_agent_factory` */
    method Reset()
      modifies this
      ensures instance == null
    {
      instance := null;
    }
  }
}
