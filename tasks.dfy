/** Task kinds, task records, the ordered result map and the planner of the
    intelligent orchestrator (intelligent_orchestrator.py). */
module Tasks {
  import opened Wrappers
  import opened Text

  /** The six kinds of specialist work, in declaration order. */
  datatype TaskKind =
    | VisionAnalysis
    | ArchitecturalConsultation
    | PromptEngineering
    | QualityAssurance
    | StyleAnalysis
    | TechnicalReview
  {
    /** The enum member's value, used when a dependency's output is quoted. */
    function Value(): string
    {
      match this
      case VisionAnalysis => "vision_analysis"
      case ArchitecturalConsultation => "architectural_consultation"
      case PromptEngineering => "prompt_engineering"
      case QualityAssurance => "quality_assurance"
      case StyleAnalysis => "style_analysis"
      case TechnicalReview => "technical_review"
    }
  }

  /** Every kind once, in declaration order. */
  const AllKinds: seq<TaskKind> :=
    [VisionAnalysis, ArchitecturalConsultation, PromptEngineering,
     QualityAssurance, StyleAnalysis, TechnicalReview]

  /** An uploaded image, as raw bytes. */
  type Image = seq<bv8>

  /** One unit of work: the `AgentTask` dataclass. `context` holds the
      boolean flags the code puts there (`has_images`, `dynamic_routing`). */
  datatype AgentTask = AgentTask(
    kind: TaskKind,
    input: string,
    context: map<string, bool>,
    deps: set<TaskKind>,
    priority: int,
    completed: bool,
    result: Option<string>)

  /** A task as the dataclass constructor builds it: not completed, no result. */
  function NewTask(kind: TaskKind, input: string, context: map<string, bool>,
                   deps: set<TaskKind>, priority: int): AgentTask
  {
    AgentTask(kind, input, context, deps, priority, false, None)
  }

  function Kinds(tasks: seq<AgentTask>): (ks: seq<TaskKind>)
    ensures |ks| == |tasks|
    ensures forall i :: 0 <= i < |tasks| ==> ks[i] == tasks[i].kind
  {
    seq(|tasks|, i requires 0 <= i < |tasks| => tasks[i].kind)
  }

  /** The kinds of the given tasks, as a set. */
  function KindSet(tasks: seq<AgentTask>): set<TaskKind>
  {
    set i | 0 <= i < |tasks| :: tasks[i].kind
  }

  predicate DistinctKinds(tasks: seq<AgentTask>)
  {
    forall i, j :: 0 <= i < j < |tasks| ==> tasks[i].kind != tasks[j].kind
  }

  /** Every task names at most one dependency. */
  predicate AtMostOneDep(tasks: seq<AgentTask>)
  {
    forall i :: 0 <= i < |tasks| ==> |tasks[i].deps| <= 1
  }

  /** Tasks as the planner or the router creates them. */
  predicate AllFresh(tasks: seq<AgentTask>)
  {
    forall i :: 0 <= i < |tasks| ==> !tasks[i].completed && tasks[i].result == None
  }

  /** The executor's `results` dict: a map plus Python's insertion order of
      its keys (re-assigning a key keeps its place). */
  datatype Results = Results(values: map<TaskKind, string>, order: seq<TaskKind>)
  {
    ghost predicate Valid()
    {
      && (forall i, j :: 0 <= i < j < |order| ==> order[i] != order[j])
      && (forall k :: k in values <==> k in order)
    }

    function Keys(): set<TaskKind>
    {
      values.Keys
    }

    /** `results.get(k, default)`. */
    function Get(k: TaskKind, default: string): (v: string)
      ensures k in values ==> v == values[k]
      ensures k !in values ==> v == default
    {
      if k in values then values[k] else default
    }

    /** `results[k] = v`. */
    function Put(k: TaskKind, v: string): (r: Results)
      ensures r.values == values[k := v]
      ensures r.Keys() == Keys() + {k}
      ensures k in values ==> r.order == order
      ensures k !in values ==> r.order == order + [k]
    {
      Results(values[k := v], if k in values then order else order + [k])
    }
  }

  /** Assigning a key keeps the order a duplicate-free listing of the keys. */
  lemma PutValid(res: Results, k: TaskKind, v: string)
    requires res.Valid()
    ensures res.Put(k, v).Valid()
  {
  }

  const EmptyResults: Results := Results(map[], [])

  const StyleKeywords: seq<string> := ["style", "historical", "period", "classical", "modern"]
  const TechnicalKeywords: seq<string> := ["structural", "engineering", "technical", "code", "regulation"]

  /** The lower-cased message mentions a style keyword. */
  predicate WantsStyle(message: string)
  {
    ContainsAny(Lower(message), StyleKeywords)
  }

  /** The lower-cased message mentions a technical keyword. */
  predicate WantsTechnical(message: string)
  {
    ContainsAny(Lower(message), TechnicalKeywords)
  }

  /** `_plan_workflow`: the initial task list for a request. Images count as
      present when the list is non-empty (Python truthiness; `None` is `[]`). */
  function PlanWorkflow(message: string, images: seq<Image>): (tasks: seq<AgentTask>)
    // every planned task is fresh, carries the message and has at most one dependency
    ensures AllFresh(tasks) && AtMostOneDep(tasks)
    ensures forall i :: 0 <= i < |tasks| ==> tasks[i].input == message
    ensures |tasks| == (if |images| > 0 then 1 else 0) + 3
                       + (if WantsStyle(message) then 1 else 0)
                       + (if WantsTechnical(message) then 1 else 0)
  {
    var hasImages := |images| > 0;
    var vision := if hasImages
      then [NewTask(VisionAnalysis, message, map["has_images" := true], {}, 1)]
      else [];
    var core := [
      NewTask(ArchitecturalConsultation, message, map[],
              if hasImages then {VisionAnalysis} else {}, 2),
      NewTask(PromptEngineering, message, map[], {ArchitecturalConsultation}, 3),
      NewTask(QualityAssurance, message, map[], {PromptEngineering}, 4)];
    var style := if WantsStyle(message)
      then [NewTask(StyleAnalysis, message, map[],
                    if hasImages then {VisionAnalysis} else {}, 2)]
      else [];
    var technical := if WantsTechnical(message)
      then [NewTask(TechnicalReview, message, map[], {ArchitecturalConsultation}, 3)]
      else [];
    vision + core + style + technical
  }

  /** `_plan_workflow` as the code runs it: appends each task in turn. */
  method PlanTasks(message: string, images: seq<Image>) returns (tasks: seq<AgentTask>)
    ensures tasks == PlanWorkflow(message, images)
  {
    tasks := [];
    if |images| > 0 {
      tasks := tasks + [NewTask(VisionAnalysis, message, map["has_images" := true], {}, 1)];
    }
    tasks := tasks + [NewTask(ArchitecturalConsultation, message, map[],
                              if |images| > 0 then {VisionAnalysis} else {}, 2)];
    tasks := tasks + [NewTask(PromptEngineering, message, map[], {ArchitecturalConsultation}, 3)];
    tasks := tasks + [NewTask(QualityAssurance, message, map[], {PromptEngineering}, 4)];
    if WantsStyle(message) {
      tasks := tasks + [NewTask(StyleAnalysis, message, map[],
                                if |images| > 0 then {VisionAnalysis} else {}, 2)];
    }
    if WantsTechnical(message) {
      tasks := tasks + [NewTask(TechnicalReview, message, map[], {ArchitecturalConsultation}, 3)];
    }
  }

  /** The vision task leads the plan, without dependencies, exactly when
      images are present. */
  lemma PlanVisionFirst(message: string, images: seq<Image>)
    ensures var tasks := PlanWorkflow(message, images);
      && (VisionAnalysis in KindSet(tasks)) == (|images| > 0)
      && (|images| > 0 ==> tasks[0] == NewTask(VisionAnalysis, message, map["has_images" := true], {}, 1))
  {
    var tasks := PlanWorkflow(message, images);
    if VisionAnalysis in KindSet(tasks) {
      var i :| 0 <= i < |tasks| && tasks[i].kind == VisionAnalysis;
    }
    if |images| > 0 {
      assert tasks[0].kind == VisionAnalysis;
    }
  }

  /** Consultation, prompt engineering and quality assurance always follow,
      each depending on the one before (consultation on vision iff images). */
  lemma PlanCoreChain(message: string, images: seq<Image>)
    ensures var tasks := PlanWorkflow(message, images);
      var c := if |images| > 0 then 1 else 0;
      && |tasks| >= c + 3
      && tasks[c] == NewTask(ArchitecturalConsultation, message, map[],
                             if |images| > 0 then {VisionAnalysis} else {}, 2)
      && tasks[c + 1] == NewTask(PromptEngineering, message, map[], {ArchitecturalConsultation}, 3)
      && tasks[c + 2] == NewTask(QualityAssurance, message, map[], {PromptEngineering}, 4)
  {
  }

  /** Style analysis is planned exactly when a style keyword occurs, and
      depends on vision exactly when images are present. */
  lemma PlanStyle(message: string, images: seq<Image>)
    ensures var tasks := PlanWorkflow(message, images);
      && (StyleAnalysis in KindSet(tasks)) == WantsStyle(message)
      && forall i :: 0 <= i < |tasks| && tasks[i].kind == StyleAnalysis ==>
           tasks[i] == NewTask(StyleAnalysis, message, map[],
                               if |images| > 0 then {VisionAnalysis} else {}, 2)
  {
    var tasks := PlanWorkflow(message, images);
    if StyleAnalysis in KindSet(tasks) {
      var i :| 0 <= i < |tasks| && tasks[i].kind == StyleAnalysis;
    }
    if WantsStyle(message) {
      var c := if |images| > 0 then 1 else 0;
      assert tasks[c + 3].kind == StyleAnalysis;
    }
  }

  /** Technical review is planned exactly when a technical keyword occurs,
      and depends on consultation. */
  lemma PlanTechnical(message: string, images: seq<Image>)
    ensures var tasks := PlanWorkflow(message, images);
      && (TechnicalReview in KindSet(tasks)) == WantsTechnical(message)
      && forall i :: 0 <= i < |tasks| && tasks[i].kind == TechnicalReview ==>
           tasks[i] == NewTask(TechnicalReview, message, map[], {ArchitecturalConsultation}, 3)
  {
    var tasks := PlanWorkflow(message, images);
    if TechnicalReview in KindSet(tasks) {
      var i :| 0 <= i < |tasks| && tasks[i].kind == TechnicalReview;
    }
    if WantsTechnical(message) {
      assert tasks[|tasks| - 1].kind == TechnicalReview;
    }
  }

  /** No kind is planned twice. */
  lemma PlanDistinct(message: string, images: seq<Image>)
    ensures DistinctKinds(PlanWorkflow(message, images))
  {
    var tasks := PlanWorkflow(message, images);
    var c := if |images| > 0 then 1 else 0;
    forall i, j | 0 <= i < j < |tasks|
      ensures tasks[i].kind != tasks[j].kind
    {
      PlanCoreChain(message, images);
      if c == 1 { PlanVisionFirst(message, images); }
    }
  }

  /** Every dependency names a task planned earlier in the list, so the plan
      never deadlocks. */
  lemma PlanDepsPointBack(message: string, images: seq<Image>)
    ensures var tasks := PlanWorkflow(message, images);
      forall i :: 0 <= i < |tasks| ==> tasks[i].deps <= KindSet(tasks[..i])
  {
    var tasks := PlanWorkflow(message, images);
    var c := if |images| > 0 then 1 else 0;
    PlanCoreChain(message, images);
    forall i | 0 <= i < |tasks|
      ensures tasks[i].deps <= KindSet(tasks[..i])
    {
      var before := tasks[..i];
      if c == 1 && i > 0 { assert before[0] == tasks[0]; }
      if i > c { assert before[c] == tasks[c]; }
      if i > c + 1 { assert before[c + 1] == tasks[c + 1]; }
    }
  }
}
