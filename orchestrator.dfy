/** The intelligent orchestrator's request handling: per-session memory,
    planning, execution, the compiled output and its confidence
    (`IntelligentOrchestrator` in intelligent_orchestrator.py). */
module Orchestrator {
  import opened Wrappers
  import opened Tasks
  import opened Executor
  import opened ExecutorFacts
  import FixedAgents

  /** The orchestrator's agents answer through the chat agent's request
      handling, which turns every failure into a reply and never raises: the
      executor's `"Error: "` branch is never taken with them. */
  function AgentsRespond(agents: TaskKind -> FixedAgents.Agent, chat: FixedAgents.Chat,
                         encode: FixedAgents.Encoder): Respond
  {
    (k: TaskKind, input: string, context: string, images: seq<Image>) =>
      Success(FixedAgents.AgentReply(agents(k), input, images, context, chat, encode))
  }

  // ---------------------------------------------------------------------
  // Confidence

  /** `_calculate_overall_confidence`, in hundredths: 80 with three results
      or more, else 60, plus 5 for a style analysis and 5 for a technical
      review, capped at 100. */
  function Confidence(results: Results): (c: nat)
    ensures 60 <= c <= 90
    ensures c >= 80 <==> |results.Keys()| >= 3
    ensures c - (if |results.Keys()| >= 3 then 80 else 60)
            == (if StyleAnalysis in results.Keys() then 5 else 0)
               + (if TechnicalReview in results.Keys() then 5 else 0)
  {
    var base := if |results.Keys()| >= 3 then 80 else 60;
    var style := if StyleAnalysis in results.Keys() then 5 else 0;
    var technical := if TechnicalReview in results.Keys() then 5 else 0;
    AtMost100(base + style + technical)
  }

  /** The `min(..., 1.0)` cap. */
  function AtMost100(x: nat): nat
  {
    if x < 100 then x else 100
  }

  /** More results never lower the confidence. */
  lemma ConfidenceMonotone(a: Results, b: Results)
    requires a.Keys() <= b.Keys()
    ensures Confidence(a) <= Confidence(b)
  {
    if |a.Keys()| >= 3 {
      SubsetCard(a.Keys(), b.Keys());
    }
  }

  lemma SubsetCard(a: set<TaskKind>, b: set<TaskKind>)
    requires a <= b
    ensures |a| <= |b|
  {
    assert b == a + (b - a);
  }

  // ---------------------------------------------------------------------
  // The compiled output

  /** The `final_output` record; confidence in hundredths. */
  datatype FinalOutput = FinalOutput(
    workflowExecuted: seq<TaskKind>,
    architecturalAnalysis: string,
    expertConsultation: string,
    styleAnalysis: string,
    technicalReview: string,
    optimizedPrompt: string,
    qualityReview: string,
    confidenceScore: nat,
    agentCollaboration: bool,
    intelligentRouting: bool)

  /** What `_compile_final_output` returns: the record and the result map. */
  datatype Compiled = Compiled(finalOutput: FinalOutput, allResults: Results)

  /** The record compiled from a result map: the kinds in insertion order,
      each kind's output (empty when it did not run), the confidence. */
  function FinalOutputOf(results: Results): FinalOutput
  {
    FinalOutput(
      results.order,
      results.Get(VisionAnalysis, ""),
      results.Get(ArchitecturalConsultation, ""),
      results.Get(StyleAnalysis, ""),
      results.Get(TechnicalReview, ""),
      results.Get(PromptEngineering, ""),
      results.Get(QualityAssurance, ""),
      Confidence(results),
      true,
      true)
  }

  /** The output field that reports a kind. */
  function Field(out: FinalOutput, k: TaskKind): string
  {
    match k
    case VisionAnalysis => out.architecturalAnalysis
    case ArchitecturalConsultation => out.expertConsultation
    case StyleAnalysis => out.styleAnalysis
    case TechnicalReview => out.technicalReview
    case PromptEngineering => out.optimizedPrompt
    case QualityAssurance => out.qualityReview
  }

  /** Each kind's field holds its output, or is empty when it did not run;
      the executed list names every result once, in insertion order. */
  lemma FinalOutputReports(results: Results)
    requires results.Valid()
    ensures var out := FinalOutputOf(results);
      && (forall k :: k in results.Keys() ==> Field(out, k) == results.values[k])
      && (forall k :: k !in results.Keys() ==> Field(out, k) == "")
      && (forall k :: k in out.workflowExecuted <==> k in results.Keys())
      && (forall i, j :: 0 <= i < j < |out.workflowExecuted| ==> out.workflowExecuted[i] != out.workflowExecuted[j])
      && out.confidenceScore == Confidence(results)
  {
    var out := FinalOutputOf(results);
    forall k ensures k in results.Keys() ==> Field(out, k) == results.values[k] {
      match k
      case VisionAnalysis =>
      case ArchitecturalConsultation =>
      case StyleAnalysis =>
      case TechnicalReview =>
      case PromptEngineering =>
      case QualityAssurance =>
    }
  }

  /** A session's memory: the context it was created with and the latest
      result map. */
  datatype Session = Session(context: string, agentOutputs: Results)

  /** The name `IntelligentOrchestrator.__init__` gives each kind's agent. */
  function AgentName(k: TaskKind): string
  {
    match k
    case VisionAnalysis => "Vision Analyst"
    case ArchitecturalConsultation => "Architectural Expert"
    case PromptEngineering => "FLUX Prompt Engineer"
    case QualityAssurance => "Quality Assurance"
    case StyleAnalysis => "Style Specialist"
    case TechnicalReview => "Technical Reviewer"
  }

  /** The six agents the orchestrator creates, one per task kind, with the
      given system instructions (descriptive text). */
  function OrchestratorAgents(instructions: TaskKind -> string): TaskKind -> FixedAgents.Agent
  {
    k => FixedAgents.Agent(AgentName(k), instructions(k),
      if k == QualityAssurance then FixedAgents.PremiumDeployment else FixedAgents.StandardDeployment)
  }

  /** Every agent keeps its kind's instructions; quality assurance alone runs
      on the premium deployment and every other agent on the standard one;
      no two kinds share an agent name. */
  lemma OrchestratorAgentsShape(instructions: TaskKind -> string)
    ensures forall k :: OrchestratorAgents(instructions)(k).instructions == instructions(k)
    ensures forall k :: (OrchestratorAgents(instructions)(k).deployment == FixedAgents.PremiumDeployment <==>
                         k == QualityAssurance)
    ensures forall k :: k != QualityAssurance ==>
              OrchestratorAgents(instructions)(k).deployment == FixedAgents.StandardDeployment
    ensures forall k, l :: k != l ==> OrchestratorAgents(instructions)(k).name != OrchestratorAgents(instructions)(l).name
  {
    assert FixedAgents.StandardDeployment[4] != FixedAgents.PremiumDeployment[4];
    forall k, l | k != l ensures AgentName(k) != AgentName(l) {
      assert AgentName(k)[0] != AgentName(l)[0];
    }
  }

  /** The orchestrator: six agents (one per task kind) and the conversation
      memory it updates per session. */
  class IntelligentOrchestrator {
    const agents: TaskKind -> FixedAgents.Agent
    const chat: FixedAgents.Chat
    const encode: FixedAgents.Encoder
    /** How the executor reaches the agents. */
    const respond: Respond
    var conversationMemory: map<string, Session>

    constructor(instructions: TaskKind -> string, chat: FixedAgents.Chat, encode: FixedAgents.Encoder)
      ensures agents == OrchestratorAgents(instructions) && this.chat == chat && this.encode == encode
      ensures respond == AgentsRespond(OrchestratorAgents(instructions), chat, encode)
      ensures conversationMemory == map[]
    {
      agents := OrchestratorAgents(instructions);
      this.chat := chat;
      this.encode := encode;
      respond := AgentsRespond(OrchestratorAgents(instructions), chat, encode);
      conversationMemory := map[];
    }

    /** The context a session's run reads: the stored one, or the empty
      context of a new session. */
    function SessionContext(sessionId: string): string
      reads this
    {
      if sessionId in conversationMemory then conversationMemory[sessionId].context else ""
    }

    /** `_compile_final_output` (the path without tracing): stores the
        result map in the session's memory and compiles the record. */
    method CompileFinalOutput(results: Results, sessionId: string) returns (r: Compiled)
      requires sessionId in conversationMemory
      modifies this
      ensures conversationMemory == old(conversationMemory)[sessionId :=
                old(conversationMemory)[sessionId].(agentOutputs := results)]
      ensures r == Compiled(FinalOutputOf(results), results)
    {
      conversationMemory := conversationMemory[sessionId := conversationMemory[sessionId].(agentOutputs := results)];
      r := Compiled(FinalOutputOf(results), results);
    }

    /** `process_request` and `_process_request_internal`: creates the
        session on first use, plans, runs the executor for at most `fuel`
        passes and compiles the output. The session's context is never
        changed; its outputs are replaced by the new result map. */
    method ProcessRequest(message: string, images: seq<Image>, sessionId: string, fuel: nat)
      returns (r: Compiled)
      modifies this
      ensures var context := old(SessionContext(sessionId));
        var o := PlannedOutcome(message, images, context, respond, fuel);
        && r == Compiled(FinalOutputOf(o.last.results), o.last.results)
        && conversationMemory == old(conversationMemory)[sessionId := Session(context, o.last.results)]
    {
      ghost var memory := conversationMemory;
      if sessionId !in conversationMemory {
        conversationMemory := conversationMemory[sessionId := Session("", EmptyResults)];
      }
      var context := conversationMemory[sessionId].context;
      ghost var created := conversationMemory;
      var results := RunPlanned(message, images, context, respond, fuel);
      r := CompileFinalOutput(results, sessionId);
      UpdateTwice(memory, created, sessionId, Session(context, results));
    }
  }

  /** Writing a session over one just stored leaves only the second write. */
  lemma UpdateTwice(memory: map<string, Session>, created: map<string, Session>, id: string, s: Session)
    requires id in created && created == memory[id := created[id]]
    ensures created[id := s] == memory[id := s]
  {
  }

  /** The planned run of a request: the plan, executed from no results. */
  function PlannedOutcome(message: string, images: seq<Image>, context: string, respond: Respond, fuel: nat): Outcome
  {
    Workflow(Env(message, images, context, respond), Run(PlanWorkflow(message, images), EmptyResults, []), fuel)
  }

  /** Plans the request and executes the plan. */
  method RunPlanned(message: string, images: seq<Image>, context: string, respond: Respond, fuel: nat)
    returns (results: Results)
    ensures results == PlannedOutcome(message, images, context, respond, fuel).last.results
  {
    var tasks := PlanTasks(message, images);
    var completed, stop;
    results, completed, stop := ExecuteWorkflow(tasks, message, images, context, respond, fuel);
  }

  /** The kinds a plan always holds, and the ones its keywords add. */
  lemma PlanHoldsKinds(message: string, images: seq<Image>)
    ensures var tasks := PlanWorkflow(message, images);
      && (exists t :: t in tasks && t.kind == ArchitecturalConsultation)
      && (exists t :: t in tasks && t.kind == PromptEngineering)
      && (exists t :: t in tasks && t.kind == QualityAssurance)
      && (WantsStyle(message) ==> exists t :: t in tasks && t.kind == StyleAnalysis)
      && (WantsTechnical(message) ==> exists t :: t in tasks && t.kind == TechnicalReview)
  {
    var tasks := PlanWorkflow(message, images);
    PlanCoreChain(message, images);
    PlanStyle(message, images);
    PlanTechnical(message, images);
    var c := if |images| > 0 then 1 else 0;
    assert tasks[c] in tasks && tasks[c + 1] in tasks && tasks[c + 2] in tasks;
  }

  /** A result map holding consultation, prompt and review, and style
      analysis and technical review when wanted, is reported in full. */
  lemma ReportedKinds(results: Results, style: bool, technical: bool)
    requires results.Valid()
    requires ArchitecturalConsultation in results.Keys() && PromptEngineering in results.Keys()
    requires QualityAssurance in results.Keys()
    requires style ==> StyleAnalysis in results.Keys()
    requires technical ==> TechnicalReview in results.Keys()
    ensures var out := FinalOutputOf(results);
      && ArchitecturalConsultation in out.workflowExecuted
      && PromptEngineering in out.workflowExecuted
      && QualityAssurance in out.workflowExecuted
      && (style ==> StyleAnalysis in out.workflowExecuted)
      && (technical ==> TechnicalReview in out.workflowExecuted)
      && out.confidenceScore >= 80 + (if style then 5 else 0) + (if technical then 5 else 0)
  {
    FinalOutputReports(results);
    SubsetCard({ArchitecturalConsultation, PromptEngineering, QualityAssurance}, results.Keys());
  }

  /** With a planned run that finishes, every planned kind is reported:
      consultation, prompt and review always, style analysis and technical
      review when their keywords occur, and the confidence reflects them. */
  lemma QuietRequestReports(message: string, images: seq<Image>, context: string, respond: Respond, fuel: nat)
    requires Quiet(Env(message, images, context, respond))
    requires |PlanWorkflow(message, images)| <= fuel
    ensures var o := PlannedOutcome(message, images, context, respond, fuel);
      var out := FinalOutputOf(o.last.results);
      && o.stop == Finished
      && ArchitecturalConsultation in out.workflowExecuted
      && PromptEngineering in out.workflowExecuted
      && QualityAssurance in out.workflowExecuted
      && (WantsStyle(message) ==> StyleAnalysis in out.workflowExecuted)
      && (WantsTechnical(message) ==> TechnicalReview in out.workflowExecuted)
      && out.confidenceScore >= 80 + (if WantsStyle(message) then 5 else 0)
                                   + (if WantsTechnical(message) then 5 else 0)
  {
    var env := Env(message, images, context, respond);
    var tasks := PlanWorkflow(message, images);
    var o := Workflow(env, Run(tasks, EmptyResults, []), fuel);
    QuietPlanFinishes(env, fuel);
    WorkflowFromStart(env, tasks, fuel);
    PlanHoldsKinds(message, images);
    ReportedKinds(o.last.results, WantsStyle(message), WantsTechnical(message));
  }
}
