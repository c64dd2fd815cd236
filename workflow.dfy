/** agents/workflow.py: sequential agent workflows with bounded retries.
    What one attempt of a step does (create the agent, prepare its inputs
    from the context and earlier results, run it) is the oracle `run`,
    given the step's name, the attempt number and the results so far.
    Times are whole seconds passed in by the caller. */
module Workflow {

  import opened Common
  import DifyConfig

  datatype WorkflowStatus = Pending | Running | Completed | Failed | Cancelled

  function StatusValue(s: WorkflowStatus): string {
    match s
    case Pending => "pending"
    case Running => "running"
    case Completed => "completed"
    case Failed => "failed"
    case Cancelled => "cancelled"
  }

  /** The outcome of one attempt. `Success`: the agent returned and the
      success callback (if any) returned too. `CallbackFailure`: the agent
      returned and its result was stored, then the success callback raised.
      `Failure`: an error was raised before anything was stored (creating the
      agent, preparing its inputs, or running it). */
  datatype Attempt = Success(value: Value) | CallbackFailure(value: Value, error: string) | Failure(error: string)

  type Runner = (string, nat, map<string, Value>) -> Attempt

  /** A `WorkflowStep` without callbacks. */
  datatype Step = Step(name: string, agentType: string, retries: int,
                       result: Option<Value>, status: WorkflowStatus, error: Option<string>)

  /** `WorkflowStep(name, agent_type, inputs_handler, retries=...)` */
  function NewStep(name: string, agentType: string, retries: int): (s: Step)
    ensures s.status == Pending && s.result.None? && s.error.None?
  {
    Step(name, agentType, retries, None, Pending, None)
  }

  /** The first of the attempts `from .. retries-1` that succeeds, all made
      on the same results. */
  function FirstSuccessFrom(run: Runner, name: string, results: map<string, Value>, from: nat, retries: int)
    : (r: Option<nat>)
    ensures r.Some? ==> (from <= r.value < retries && run(name, r.value, results).Success?
                         && forall b :: from <= b < r.value ==> !run(name, b, results).Success?)
    ensures r.None? ==> forall b :: from <= b < retries ==> !run(name, b, results).Success?
    decreases retries - from
  {
    if from >= retries then None
    else if run(name, from, results).Success? then Some(from)
    else FirstSuccessFrom(run, name, results, from + 1, retries)
  }

  function FirstSuccess(run: Runner, name: string, results: map<string, Value>, retries: int): Option<nat> {
    FirstSuccessFrom(run, name, results, 0, retries)
  }

  /** What `execute_step` does to one step and to the results. */
  datatype StepOutcome = StepOutcome(step: Step, results: map<string, Value>, ok: bool)

  /** No success callback raises on the attempts `from ..` when they are
      made on `results`. */
  predicate CallbacksReturn(s: Step, results: map<string, Value>, run: Runner, from: nat) {
    forall b :: from <= b < s.retries ==> !run(s.name, b, results).CallbackFailure?
  }

  /** Attempts `a ..` of `execute_step`, from the results and the step's
      result and error as the earlier attempts left them. The agent's result
      is stored, under the step's name and in the step, before the success
      callback runs, so an attempt whose callback raises fails but leaves
      that result behind, and the next attempt reads it. */
  function AttemptsFrom(s: Step, run: Runner, a: nat, results: map<string, Value>,
                        result: Option<Value>, error: Option<string>): (r: StepOutcome)
    requires a < s.retries
    ensures r.step == s.(status := r.step.status, result := r.step.result, error := r.step.error)
    ensures r.ok ==> r.step.status == Completed
    ensures !r.ok ==> r.step.status == Failed
    ensures (r.results == results && r.step.result == result)
            || (s.name in r.results && r.results == results[s.name := r.results[s.name]]
                && r.step.result == Some(r.results[s.name]))
    ensures r.ok ==> s.name in r.results && r.step.result == Some(r.results[s.name])
    decreases s.retries - a
  {
    match run(s.name, a, results)
    case Success(v) =>
      StepOutcome(s.(status := Completed, result := Some(v), error := error), results[s.name := v], true)
    case CallbackFailure(v, e) =>
      if a + 1 == s.retries then
        StepOutcome(s.(status := Failed, result := Some(v), error := Some(e)), results[s.name := v], false)
      else AttemptsFrom(s, run, a + 1, results[s.name := v], Some(v), Some(e))
    case Failure(e) =>
      if a + 1 == s.retries then StepOutcome(s.(status := Failed, result := result, error := Some(e)), results, false)
      else AttemptsFrom(s, run, a + 1, results, result, Some(e))
  }

  /** When no success callback raises, every attempt runs on the same
      results: the step succeeds exactly when one of the attempts does, with
      the first successful attempt's result stored and the error of the
      attempt before it recorded; a failed step leaves the results and its
      result as they were and records the last attempt's error. */
  lemma {:induction false} AttemptsWithoutRaisingCallbacks(s: Step, run: Runner, a: nat, results: map<string, Value>,
                                                           result: Option<Value>, error: Option<string>)
    requires a < s.retries
    ensures var r := AttemptsFrom(s, run, a, results, result, error);
      CallbacksReturn(s, results, run, a) ==>
      (r.ok <==> FirstSuccessFrom(run, s.name, results, a, s.retries).Some?)
      && (r.ok ==>
            var f := FirstSuccessFrom(run, s.name, results, a, s.retries).value;
            r.results == results[s.name := run(s.name, f, results).value]
            && r.step.error == (if f == a then error else Some(run(s.name, f - 1, results).error)))
      && (!r.ok ==> r.results == results && r.step.result == result
                    && r.step.error == Some(run(s.name, s.retries - 1, results).error))
    decreases s.retries - a
  {
    var first := run(s.name, a, results);
    if CallbacksReturn(s, results, run, a) && first.Failure? && a + 1 < s.retries {
      AttemptsWithoutRaisingCallbacks(s, run, a + 1, results, result, Some(first.error));
    }
  }

  /** The effect of `execute_step`. With no attempt at all (`retries <= 0`)
      the step is left RUNNING. Otherwise the step ends COMPLETED with its
      result stored under its name, or FAILED; either way no other entry of
      the results changes, and whatever is stored under the step's name is
      also the step's result. When no success callback raises, the step
      succeeds exactly when one of its attempts does, the first successful
      attempt's result is the one stored and the error of the attempt before
      it stays recorded, and a failed step leaves the results and its result
      untouched with the last attempt's error recorded. */
  function StepRun(s: Step, results: map<string, Value>, run: Runner): (r: StepOutcome)
    ensures r.step.name == s.name && r.step.agentType == s.agentType && r.step.retries == s.retries
    ensures s.retries <= 0 ==> r == StepOutcome(s.(status := Running), results, false)
    ensures r.ok ==> r.step.status == Completed && s.name in r.results && r.step.result == Some(r.results[s.name])
    ensures !r.ok && s.retries >= 1 ==> r.step.status == Failed
    ensures (r.results == results && r.step.result == s.result)
            || (s.name in r.results && r.results == results[s.name := r.results[s.name]]
                && r.step.result == Some(r.results[s.name]))
    ensures CallbacksReturn(s, results, run, 0) ==>
      (r.ok <==> exists a :: 0 <= a < s.retries && run(s.name, a, results).Success?)
    ensures CallbacksReturn(s, results, run, 0) && r.ok ==>
      FirstSuccess(run, s.name, results, s.retries).Some?
      && (var a := FirstSuccess(run, s.name, results, s.retries).value;
          r.results == results[s.name := run(s.name, a, results).value]
          && r.step.error == (if a == 0 then s.error else Some(run(s.name, a - 1, results).error)))
    ensures CallbacksReturn(s, results, run, 0) && !r.ok ==> r.results == results && r.step.result == s.result
    ensures CallbacksReturn(s, results, run, 0) && !r.ok && s.retries >= 1 ==>
      r.step.error == Some(run(s.name, s.retries - 1, results).error)
  {
    if s.retries <= 0 then StepOutcome(s.(status := Running), results, false)
    else
      AttemptsWithoutRaisingCallbacks(s, run, 0, results, s.result, s.error);
      AttemptsFrom(s, run, 0, results, s.result, s.error)
  }

  /** A success callback that raises on the first attempt fails that attempt,
      yet its result stays stored: with one attempt the step ends FAILED
      holding it, and with more the next attempt runs on the results that
      hold it. */
  lemma RaisingCallbackKeepsResult(s: Step, results: map<string, Value>, run: Runner, v: Value, e: string)
    requires s.retries >= 1 && run(s.name, 0, results) == CallbackFailure(v, e)
    ensures s.retries == 1 ==>
      StepRun(s, results, run) == StepOutcome(s.(status := Failed, result := Some(v), error := Some(e)), results[s.name := v], false)
    ensures s.retries > 1 ==>
      StepRun(s, results, run) == AttemptsFrom(s, run, 1, results[s.name := v], Some(v), Some(e))
  {
  }

  lemma {:induction false} AttemptsFromAgrees(s: Step, run1: Runner, run2: Runner, a: nat, results: map<string, Value>,
                                              result: Option<Value>, error: Option<string>)
    requires a < s.retries
    requires forall b: nat, res :: b < s.retries ==> run1(s.name, b, res) == run2(s.name, b, res)
    ensures AttemptsFrom(s, run1, a, results, result, error) == AttemptsFrom(s, run2, a, results, result, error)
    decreases s.retries - a
  {
    var first := run1(s.name, a, results);
    if first.CallbackFailure? && a + 1 < s.retries {
      AttemptsFromAgrees(s, run1, run2, a + 1, results[s.name := first.value], Some(first.value), Some(first.error));
    } else if first.Failure? && a + 1 < s.retries {
      AttemptsFromAgrees(s, run1, run2, a + 1, results, result, Some(first.error));
    }
  }

  /** At most `retries` attempts are made, whatever the results they see:
      attempts beyond them are never consulted. */
  lemma OnlyRetriesAttemptsConsulted(s: Step, results: map<string, Value>, run1: Runner, run2: Runner)
    requires forall b: nat, res :: b < s.retries ==> run1(s.name, b, res) == run2(s.name, b, res)
    ensures StepRun(s, results, run1) == StepRun(s, results, run2)
  {
    if s.retries >= 1 {
      AttemptsFromAgrees(s, run1, run2, 0, results, s.result, s.error);
    }
  }

  /** The result of running steps `k..` in order, stopping at the first that
      fails. */
  datatype RunOutcome = RunOutcome(steps: seq<Step>, results: map<string, Value>, failedAt: Option<nat>)

  /** The loop of `execute` from step `k` on: steps run in list order; the
      first failing step stops the run, leaving the later steps as they
      were; when none fails, every step is COMPLETED with its result kept. */
  function RunFrom(steps: seq<Step>, k: nat, results: map<string, Value>, run: Runner): (r: RunOutcome)
    requires k <= |steps|
    ensures |r.steps| == |steps|
    ensures results.Keys <= r.results.Keys
    ensures forall j :: 0 <= j < k ==> r.steps[j] == steps[j]
    ensures forall j :: k <= j < |steps| ==> r.steps[j].name == steps[j].name
    ensures r.failedAt.None? ==>
      forall j :: k <= j < |steps| ==> r.steps[j].status == Completed && r.steps[j].name in r.results
    ensures r.failedAt.Some? ==> (
      var f := r.failedAt.value;
      k <= f < |steps| && (r.steps[f].status == Failed || r.steps[f].status == Running)
      && (forall j :: k <= j < f ==> r.steps[j].status == Completed)
      && (forall j :: f < j < |steps| ==> r.steps[j] == steps[j]))
    decreases |steps| - k
  {
    if k == |steps| then RunOutcome(steps, results, None)
    else
      var o := StepRun(steps[k], results, run);
      if !o.ok then RunOutcome(steps[k := o.step], o.results, Some(k))
      else RunFrom(steps[k := o.step], k + 1, o.results, run)
  }

  /** A workflow whose steps are all new and which fails leaves every step
      after the failing one PENDING. */
  lemma LaterStepsStayPending(steps: seq<Step>, results: map<string, Value>, run: Runner)
    requires forall j :: 0 <= j < |steps| ==> steps[j].status == Pending
    ensures RunFrom(steps, 0, results, run).failedAt.Some? ==>
      forall j :: RunFrom(steps, 0, results, run).failedAt.value < j < |steps| ==>
        RunFrom(steps, 0, results, run).steps[j].status == Pending
  {
  }

  /** The `steps` entries of an execution report. */
  datatype StepReport = StepReport(name: string, agentType: string, status: string,
                                   error: Option<string>, result: Option<Value>)

  /** `get_execution_report`; timestamps are whole seconds. */
  datatype Report = Report(workflowId: string, name: string, status: string,
                           startedAt: Option<int>, completedAt: Option<int>, durationSeconds: Option<int>,
                           steps: seq<StepReport>, results: map<string, Value>)

  class AgentWorkflow {
    const workflowId: string
    const name: string
    var steps: seq<Step>
    var status: WorkflowStatus
    var results: map<string, Value>
    var startedAt: Option<int>
    var completedAt: Option<int>

    /** A new workflow is PENDING with no steps, no results, no timestamps. */
    constructor (workflowId: string, name: string)
      ensures this.workflowId == workflowId && this.name == name
      ensures steps == [] && status == Pending && results == map[] && startedAt.None? && completedAt.None?
    {
      this.workflowId := workflowId;
      this.name := name;
      steps := [];
      status := Pending;
      results := map[];
      startedAt := None;
      completedAt := None;
    }

    /** `add_step`: appends and returns the same workflow. */
    method AddStep(step: Step) returns (w: AgentWorkflow)
      modifies this`steps
      ensures steps == old(steps) + [step] && w == this
    {
      steps := steps + [step];
      w := this;
    }

    /** `execute_step` on the `i`-th step: the step is RUNNING, then up to
        `retries` attempts are made, each storing the agent's result before
        the success callback runs and recording each failure's error. */
    method ExecuteStep(i: nat, run: Runner) returns (ok: bool)
      requires i < |steps|
      modifies this`steps, this`results
      ensures var o := StepRun(old(steps)[i], old(results), run);
        steps == old(steps)[i := o.step] && results == o.results && ok == o.ok
    {
      var s := steps[i];
      steps := steps[i := s.(status := Running)];
      var attempt: nat := 0;
      while attempt < s.retries
        invariant s.retries <= 0 ==> steps == old(steps)[i := s.(status := Running)] && results == old(results)
        invariant s.retries >= 1 ==> attempt < s.retries
        invariant |steps| == |old(steps)|
        invariant steps == old(steps)[i := s.(status := Running, result := steps[i].result, error := steps[i].error)]
        invariant attempt < s.retries ==>
          AttemptsFrom(s, run, attempt, results, steps[i].result, steps[i].error) == StepRun(s, old(results), run)
        decreases s.retries - attempt
      {
        match run(s.name, attempt, results) {
          case Success(v) =>
            results := results[s.name := v];
            steps := steps[i := steps[i].(result := Some(v), status := Completed)];
            return true;
          case CallbackFailure(v, e) =>
            results := results[s.name := v];
            steps := steps[i := steps[i].(result := Some(v), error := Some(e))];
          case Failure(e) =>
            steps := steps[i := steps[i].(error := Some(e))];
        }
        if attempt + 1 == s.retries {
          steps := steps[i := steps[i].(status := Failed)];
          return false;
        }
        attempt := attempt + 1;
      }
      return false;
    }

    /** `execute`: stamps the start, runs the steps in order and stops at the
        first failure (status FAILED); otherwise stamps the end and is
        COMPLETED. The results are returned either way. */
    method Execute(run: Runner, now: int, later: int) returns (out: map<string, Value>)
      modifies this`steps, this`results, this`status, this`startedAt, this`completedAt
      ensures var r := RunFrom(old(steps), 0, old(results), run);
        steps == r.steps && results == r.results && out == results && startedAt == Some(now)
        && (r.failedAt.None? ==> status == Completed && completedAt == Some(later))
        && (r.failedAt.Some? ==> status == Failed && completedAt == old(completedAt))
    {
      startedAt := Some(now);
      status := Running;
      var k := 0;
      while k < |steps|
        invariant 0 <= k <= |steps| == |old(steps)|
        invariant RunFrom(steps, k, results, run) == RunFrom(old(steps), 0, old(results), run)
        invariant startedAt == Some(now) && completedAt == old(completedAt)
      {
        var ok := ExecuteStep(k, run);
        if !ok {
          status := Failed;
          return results;
        }
        k := k + 1;
      }
      completedAt := Some(later);
      status := Completed;
      out := results;
    }

    /** `get_execution_report` */
    function GetExecutionReport(): (r: Report)
      reads this
      ensures r.workflowId == workflowId && r.status == StatusValue(status) && r.results == results
      ensures r.durationSeconds.Some? <==> startedAt.Some? && completedAt.Some?
      ensures r.durationSeconds.Some? ==> r.durationSeconds.value == completedAt.value - startedAt.value
      ensures |r.steps| == |steps|
      ensures forall j :: 0 <= j < |steps| ==>
        r.steps[j] == StepReport(steps[j].name, steps[j].agentType, StatusValue(steps[j].status), steps[j].error, steps[j].result)
    {
      Report(workflowId, name, StatusValue(status), startedAt, completedAt,
             if startedAt.Some? && completedAt.Some? then Some(completedAt.value - startedAt.value) else None,
             seq(|steps|, j requires 0 <= j < |steps| reads this =>
               StepReport(steps[j].name, steps[j].agentType, StatusValue(steps[j].status), steps[j].error, steps[j].result)),
             results)
    }
  }

  /** `PipelineBuilder` */
  class PipelineBuilder {
    var workflowId: Option<string>
    var workflowName: Option<string>
    var workflow: AgentWorkflow?

    constructor ()
      ensures workflowId.None? && workflowName.None? && workflow == null
    {
      workflowId := None;
      workflowName := None;
      workflow := null;
    }

    /** `create_workflow`: a new empty workflow replaces any earlier one. */
    method CreateWorkflow(id: string, name: string) returns (b: PipelineBuilder)
      modifies this
      ensures b == this && workflowId == Some(id) && workflowName == Some(name)
      ensures workflow != null && fresh(workflow) && workflow.workflowId == id && workflow.name == name
      ensures workflow.steps == [] && workflow.status == Pending
    {
      workflowId := Some(id);
      workflowName := Some(name);
      workflow := new AgentWorkflow(id, name);
      b := this;
    }

    /** `add_step`: a step with one attempt and no callbacks; without a
        workflow the attribute access on `None` raises. */
    method AddStep(name: string, agentType: string) returns (r: Raising<PipelineBuilder>)
      modifies workflow
      ensures workflow == old(workflow)
      ensures workflow == null ==> r.Raised?
      ensures workflow != null ==> r == Returned(this) && workflow.steps == old(workflow.steps) + [NewStep(name, agentType, 1)]
    {
      if workflow == null {
        return Raised("'NoneType' object has no attribute 'add_step'");
      }
      var _ := workflow.AddStep(NewStep(name, agentType, 1));
      r := Returned(this);
    }

    /** `build` */
    method Build() returns (r: Raising<AgentWorkflow>)
      ensures workflow == null ==> r == Raised("No workflow created")
      ensures workflow != null ==> r == Returned(workflow)
    {
      if workflow == null {
        return Raised("No workflow created");
      }
      r := Returned(workflow);
    }
  }

  /** The steps of `create_portfolio_review_workflow`. */
  function PortfolioReviewSteps(): seq<Step> {
    [NewStep("portfolio_analysis", "portfolio", 1), NewStep("risk_analysis", "risk", 1),
     NewStep("market_analysis", "market", 1), NewStep("compliance_check", "compliance", 1),
     NewStep("summary", "summarizer", 1)]
  }

  /** The steps of `create_compliance_review_workflow`. */
  function ComplianceReviewSteps(): seq<Step> {
    [NewStep("compliance_check", "compliance", 1), NewStep("risk_assessment", "risk", 1),
     NewStep("summary", "summarizer", 1)]
  }

  /** The steps of `create_market_analysis_workflow`. */
  function MarketAnalysisSteps(): seq<Step> {
    [NewStep("market_analysis", "market", 1), NewStep("summary", "summarizer", 1)]
  }

  /** The templates have five, three and two steps, every one of a type the
      agent factory has a class for, and each with a single attempt. */
  lemma TemplatesAreWellFormed()
    ensures |PortfolioReviewSteps()| == 5 && |ComplianceReviewSteps()| == 3 && |MarketAnalysisSteps()| == 2
    ensures forall s :: s in PortfolioReviewSteps() + ComplianceReviewSteps() + MarketAnalysisSteps() ==>
      s.agentType in DifyConfig.TypeValues && s.retries == 1 && s.status == Pending
  {
  }

  method AddSteps(w: AgentWorkflow, ss: seq<Step>)
    modifies w`steps
    ensures w.steps == old(w.steps) + ss
  {
    var k := 0;
    while k < |ss|
      invariant 0 <= k <= |ss|
      invariant w.steps == old(w.steps) + ss[..k]
    {
      var _ := w.AddStep(ss[k]);
      k := k + 1;
    }
  }

  /** `WorkflowTemplates.create_portfolio_review_workflow` */
  method PortfolioReviewWorkflow() returns (w: AgentWorkflow)
    ensures fresh(w) && w.workflowId == "portfolio_review" && w.name == "Portfolio Review"
    ensures w.steps == PortfolioReviewSteps() && w.status == Pending && w.results == map[]
  {
    w := new AgentWorkflow("portfolio_review", "Portfolio Review");
    AddSteps(w, PortfolioReviewSteps());
  }

  /** `WorkflowTemplates.create_compliance_review_workflow` */
  method ComplianceReviewWorkflow() returns (w: AgentWorkflow)
    ensures fresh(w) && w.workflowId == "compliance_review" && w.name == "Compliance Review"
    ensures w.steps == ComplianceReviewSteps() && w.status == Pending && w.results == map[]
  {
    w := new AgentWorkflow("compliance_review", "Compliance Review");
    AddSteps(w, ComplianceReviewSteps());
  }

  /** `WorkflowTemplates.create_market_analysis_workflow` */
  method MarketAnalysisWorkflow() returns (w: AgentWorkflow)
    ensures fresh(w) && w.workflowId == "market_analysis" && w.name == "Market Analysis"
    ensures w.steps == MarketAnalysisSteps() && w.status == Pending && w.results == map[]
  {
    w := new AgentWorkflow("market_analysis", "Market Analysis");
    AddSteps(w, MarketAnalysisSteps());
  }
}
