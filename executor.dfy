/** The dependency-driven executor of the intelligent orchestrator
    (`_execute_workflow`, `_execute_single_task`, `_parse_routing_suggestions`
    in intelligent_orchestrator.py). The remote agent call is the `Respond`
    oracle; everything else is bookkeeping over the remaining-task list and
    the ordered result map. */
module Executor {
  import opened Wrappers
  import opened Text
  import opened Tasks

  /** One agent call: kind, input text, task context and the images handed
      over. A `Failure` is an exception raised by the call. */
  type Respond = (TaskKind, string, string, seq<Image>) -> Result<string, string>

  /** What stays fixed during one workflow run: the user message and images,
      the session context read at the start, and the agents. */
  datatype Env = Env(message: string, images: seq<Image>, context: string, respond: Respond)

  // ---------------------------------------------------------------------
  // Routing suggestions

  const StylePhrase: string := "style analysis"
  const TechnicalPhrase: string := "technical review"

  /** `_parse_routing_suggestions`: follow-up kinds named in an agent's
      output, never the kind that produced it. */
  function RoutingSuggestions(agentResult: string, source: TaskKind): seq<TaskKind>
  {
    (if Contains(Lower(agentResult), StylePhrase) && source != StyleAnalysis
     then [StyleAnalysis] else [])
    + (if Contains(Lower(agentResult), TechnicalPhrase) && source != TechnicalReview
       then [TechnicalReview] else [])
  }

  /** A suggestion is made exactly when its phrase occurs (case-insensitively)
      and it is not the source's own kind; style comes first; no kind twice. */
  lemma RoutingSuggestionsSpec(agentResult: string, source: TaskKind)
    ensures var r := RoutingSuggestions(agentResult, source);
      && (forall i :: 0 <= i < |r| ==> r[i] != source)
      && (forall i :: 0 <= i < |r| ==> r[i] == StyleAnalysis || r[i] == TechnicalReview)
      && ((StyleAnalysis in r) <==> Contains(Lower(agentResult), StylePhrase) && source != StyleAnalysis)
      && ((TechnicalReview in r) <==> Contains(Lower(agentResult), TechnicalPhrase) && source != TechnicalReview)
      && |r| <= 2
      && (forall i, j :: 0 <= i < j < |r| ==> r[i] != r[j])
      && (|r| == 2 ==> r == [StyleAnalysis, TechnicalReview])
  {
  }

  // ---------------------------------------------------------------------
  // Task context

  /** The block quoting one dependency's output. */
  function DepBlock(dep: TaskKind, output: string): string
  {
    "\n" + dep.Value() + ": " + output + "\n"
  }

  /** The context after visiting `ks` in order, starting from `acc`. Python
      visits the dependency set in hash order; this model visits it in
      declaration order. */
  function ContextFrom(acc: string, ks: seq<TaskKind>, deps: set<TaskKind>, results: Results): string
    decreases |ks|
  {
    if |ks| == 0 then acc
    else
      var k := ks[0];
      var block := if k in deps && k in results.values then DepBlock(k, results.values[k]) else "";
      ContextFrom(acc + block, ks[1..], deps, results)
  }

  /** The context handed to a task's agent. */
  function TaskContext(context: string, deps: set<TaskKind>, results: Results): string
  {
    ContextFrom(context, AllKinds, deps, results)
  }

  /** Visiting kinds outside the dependency set adds nothing. */
  lemma {:induction false} ContextFromSkips(acc: string, ks: seq<TaskKind>, deps: set<TaskKind>, results: Results)
    requires forall i :: 0 <= i < |ks| ==> ks[i] !in deps
    ensures ContextFrom(acc, ks, deps, results) == acc
  {
    if |ks| > 0 {
      assert acc + "" == acc;
      ContextFromSkips(acc, ks[1..], deps, results);
    }
  }

  /** Visiting kinds in which only `d` is a dependency adds d's block once. */
  lemma {:induction false} ContextFromSingle(acc: string, ks: seq<TaskKind>, d: TaskKind, results: Results)
    requires d in ks
    requires forall i, j :: 0 <= i < j < |ks| ==> ks[i] != ks[j]
    ensures ContextFrom(acc, ks, {d}, results)
         == acc + (if d in results.values then DepBlock(d, results.values[d]) else "")
  {
    if ks[0] == d {
      ContextFromSkips(acc + (if d in results.values then DepBlock(d, results.values[d]) else ""),
                       ks[1..], {d}, results);
    } else {
      assert acc + "" == acc;
      assert d in ks[1..] by { var i :| 0 <= i < |ks| && ks[i] == d; assert ks[1..][i - 1] == d; }
      ContextFromSingle(acc, ks[1..], d, results);
    }
  }

  /** With at most one dependency the context is deterministic: the session
      context, followed by the dependency's quoted output when it has one. */
  lemma TaskContextAtMostOneDep(context: string, deps: set<TaskKind>, results: Results)
    requires |deps| <= 1
    ensures deps == {} ==> TaskContext(context, deps, results) == context
    ensures forall d :: deps == {d} ==>
      TaskContext(context, deps, results)
        == context + (if d in results.values then DepBlock(d, results.values[d]) else "")
  {
    if deps == {} {
      ContextFromSkips(context, AllKinds, deps, results);
    } else {
      var d :| d in deps;
      assert |deps - {d}| == 0;
      assert deps == {d};
      assert d in AllKinds by { assert d == AllKinds[0] || d != AllKinds[0]; }
      ContextFromSingle(context, AllKinds, d, results);
    }
  }

  /** The context-building loop of `_execute_single_task`. */
  method BuildTaskContext(context: string, deps: set<TaskKind>, results: Results) returns (taskContext: string)
    ensures taskContext == TaskContext(context, deps, results)
  {
    var kinds := AllKinds;
    taskContext := context;
    var i := 0;
    while i < |kinds|
      invariant 0 <= i <= |kinds|
      invariant ContextFrom(taskContext, kinds[i..], deps, results) == ContextFrom(context, kinds, deps, results)
    {
      var dep := kinds[i];
      ghost var rest := kinds[i..];
      assert rest[0] == dep && rest[1..] == kinds[i + 1..];
      if dep in deps && dep in results.values {
        taskContext := taskContext + DepBlock(dep, results.values[dep]);
      } else {
        assert taskContext + "" == taskContext;
      }
      i := i + 1;
    }
    assert kinds[i..] == [];
  }

  // ---------------------------------------------------------------------
  // One task, one pass, the whole run

  /** Only the vision task is handed the images, and only when there are some. */
  function TaskImages(env: Env, kind: TaskKind): seq<Image>
  {
    if kind == VisionAnalysis && |env.images| > 0 then env.images else []
  }

  /** An exception raised by the agent call becomes an error string. */
  function OutputText(r: Result<string, string>): (text: string)
    ensures r.Success? ==> text == r.value
    ensures r.Failure? ==> text == "Error: " + r.error
  {
    match r
    case Success(s) => s
    case Failure(e) => "Error: " + e
  }

  /** The output a task produces against the current results. */
  function TaskOutput(env: Env, t: AgentTask, results: Results): string
  {
    OutputText(env.respond(t.kind, t.input, TaskContext(env.context, t.deps, results), TaskImages(env, t.kind)))
  }

  /** `_execute_single_task`: builds the task's context from the session
      context and its dependencies' outputs, then calls the task's agent
      (with the images only for the vision task). */
  method ExecuteSingleTask(env: Env, task: AgentTask, results: Results) returns (r: Result<string, string>)
    ensures OutputText(r) == TaskOutput(env, task, results)
  {
    var taskContext := BuildTaskContext(env.context, task.deps, results);
    if task.kind == VisionAnalysis && |env.images| > 0 {
      r := env.respond(task.kind, task.input, taskContext, env.images);
    } else {
      r := env.respond(task.kind, task.input, taskContext, []);
    }
  }

  /** The task the router appends for a suggested kind. */
  function RoutedTask(kind: TaskKind, source: TaskKind, message: string): AgentTask
  {
    NewTask(kind, message, map["dynamic_routing" := true], {source}, 5)
  }

  /** Appends a routed task for each suggestion whose kind is not already
      among the remaining tasks. */
  function Inject(remaining: seq<AgentTask>, suggestions: seq<TaskKind>, source: TaskKind, message: string)
    : (r: seq<AgentTask>)
    decreases |suggestions|
  {
    if |suggestions| == 0 then remaining
    else
      var next := if suggestions[0] in Kinds(remaining) then remaining
                  else remaining + [RoutedTask(suggestions[0], source, message)];
      Inject(next, suggestions[1..], source, message)
  }

  /** Python's `list.remove(x)`: drops the first element equal to `x`.
      Python raises `ValueError` when `x` is absent; here the list is then
      left unchanged. The executor never reaches that case: the task it
      removes is always still remaining (`WorkflowRemovesPresent`). */
  function RemoveFirst(s: seq<AgentTask>, x: AgentTask): seq<AgentTask>
  {
    if |s| == 0 then s
    else if s[0] == x then s[1..]
    else [s[0]] + RemoveFirst(s[1..], x)
  }

  /** `remove` takes exactly one copy of a present element away; on an
      absent element (where Python raises) the model's choice is to leave
      the list unchanged. */
  lemma {:induction false} RemoveFirstSpec(s: seq<AgentTask>, x: AgentTask)
    ensures x in s ==> && multiset(RemoveFirst(s, x)) == multiset(s) - multiset{x}
                       && |RemoveFirst(s, x)| == |s| - 1
    ensures x !in s ==> RemoveFirst(s, x) == s
    decreases |s|
  {
    if |s| > 0 {
      assert s == [s[0]] + s[1..];
      if s[0] != x {
        RemoveFirstSpec(s[1..], x);
      }
    }
  }

  /** The executor's state: tasks still to run, the result map, and the
      tasks marked completed (with their result) in execution order. */
  datatype Run = Run(remaining: seq<AgentTask>, results: Results, completed: seq<AgentTask>)

  /** Runs one task: record its output, mark it, inject follow-ups, remove it. */
  function Step(env: Env, t: AgentTask, run: Run): Run
  {
    var out := TaskOutput(env, t, run.results);
    var results := run.results.Put(t.kind, out);
    var marked := t.(completed := true, result := Some(results.Get(t.kind, "")));
    var routed := Inject(run.remaining, RoutingSuggestions(results.Get(t.kind, ""), t.kind), t.kind, env.message);
    Run(RemoveFirst(routed, t), results, run.completed + [marked])
  }

  /** Runs the ready tasks of one pass, in order. */
  function Pass(env: Env, ready: seq<AgentTask>, run: Run): Run
    decreases |ready|
  {
    if |ready| == 0 then run else Pass(env, ready[1..], Step(env, ready[0], run))
  }

  /** The tasks whose dependencies all have results, in list order. */
  function Ready(remaining: seq<AgentTask>, keys: set<TaskKind>): seq<AgentTask>
  {
    if |remaining| == 0 then []
    else (if remaining[0].deps <= keys then [remaining[0]] else []) + Ready(remaining[1..], keys)
  }

  /** The ready list is the sub-list of the tasks whose dependencies all
      have results: every such task and no other, each exactly as often as
      in the remaining list. */
  lemma {:induction false} ReadySpec(remaining: seq<AgentTask>, keys: set<TaskKind>)
    ensures forall t :: t in Ready(remaining, keys) <==> t in remaining && t.deps <= keys
    ensures forall t :: multiset(Ready(remaining, keys))[t] == if t.deps <= keys then multiset(remaining)[t] else 0
    ensures multiset(Ready(remaining, keys)) <= multiset(remaining)
    decreases |remaining|
  {
    if |remaining| > 0 {
      assert remaining == [remaining[0]] + remaining[1..];
      ReadySpec(remaining[1..], keys);
    }
  }

  /** The ready list keeps list order: the ready tasks of a concatenation
      are those of the first part followed by those of the second. */
  lemma {:induction false} ReadyAppend(a: seq<AgentTask>, b: seq<AgentTask>, keys: set<TaskKind>)
    ensures Ready(a + b, keys) == Ready(a, keys) + Ready(b, keys)
    decreases |a|
  {
    if |a| == 0 {
      assert a + b == b;
    } else {
      var head := if a[0].deps <= keys then [a[0]] else [];
      assert (a + b)[0] == a[0] && (a + b)[1..] == a[1..] + b;
      ReadyAppend(a[1..], b, keys);
      calc {
        Ready(a + b, keys);
        head + Ready(a[1..] + b, keys);
        head + (Ready(a[1..], keys) + Ready(b, keys));
        (head + Ready(a[1..], keys)) + Ready(b, keys);
      }
    }
  }

  /** How a run ended: no task left, no task ready (the rest are dropped
      silently), or the model's pass budget ran out. */
  datatype Stop = Finished | Stalled | OutOfFuel

  /** The executor's final state and why it stopped. */
  datatype Outcome = Outcome(last: Run, stop: Stop)

  /** What one pass does to the state, given the tasks found ready. */
  type PassFn = (seq<AgentTask>, Run) -> Run

  /** The `while remaining_tasks` loop, for at most `fuel` passes: stop when
      nothing is left or nothing is ready, otherwise run a pass. */
  function Loop(pass: PassFn, run: Run, fuel: nat): Outcome
    decreases fuel
  {
    if |run.remaining| == 0 then Outcome(run, Finished)
    else
      var ready := Ready(run.remaining, run.results.Keys());
      if |ready| == 0 then Outcome(run, Stalled)
      else if fuel == 0 then Outcome(run, OutOfFuel)
      else Loop(pass, pass(ready, run), fuel - 1)
  }

  /** The executor's pass: the ready tasks run one after another. */
  function PassOf(env: Env): PassFn
  {
    (ready, run) => Pass(env, ready, run)
  }

  /** `_execute_workflow`'s loop, for at most `fuel` passes. */
  function Workflow(env: Env, run: Run, fuel: nat): Outcome
  {
    Loop(PassOf(env), run, fuel)
  }

  /** The body of the executor's `for task in ready_tasks` loop: run the
      task, record its output (an exception as `"Error: " + message`), mark
      it completed, inject the follow-ups it suggests, and remove it. */
  method RunTask(env: Env, task: AgentTask, run: Run) returns (next: Run)
    ensures next == Step(env, task, run)
  {
    var remaining, results, completed := run.remaining, run.results, run.completed;
    var call := ExecuteSingleTask(env, task, results);
    results := results.Put(task.kind, OutputText(call));
    completed := completed + [task.(completed := true, result := Some(results.Get(task.kind, "")))];
    var suggestions := RoutingSuggestions(results.Get(task.kind, ""), task.kind);
    ghost var routed := Inject(remaining, suggestions, task.kind, env.message);
    var j := 0;
    while j < |suggestions|
      invariant 0 <= j <= |suggestions|
      invariant Inject(remaining, suggestions[j..], task.kind, env.message) == routed
    {
      assert suggestions[j..][1..] == suggestions[j + 1..];
      if suggestions[j] !in Kinds(remaining) {
        remaining := remaining + [RoutedTask(suggestions[j], task.kind, env.message)];
      }
      j := j + 1;
    }
    remaining := RemoveFirst(remaining, task);
    next := Run(remaining, results, completed);
  }

  /** One loop iteration, as an equation between outcomes. */
  lemma LoopUnfold(pass: PassFn, run: Run, next: Run, goal: Outcome, fuel: nat, left: nat)
    requires Loop(pass, run, fuel) == goal
    requires |run.remaining| > 0 && |Ready(run.remaining, run.results.Keys())| > 0
    requires next == pass(Ready(run.remaining, run.results.Keys()), run)
    requires fuel == left + 1
    ensures Loop(pass, next, left) == goal
  {
  }

  /** One pass of the executor: the ready tasks run in list order. */
  method RunPass(env: Env, ready: seq<AgentTask>, run: Run) returns (next: Run)
    ensures next == Pass(env, ready, run)
  {
    next := run;
    var i := 0;
    while i < |ready|
      invariant 0 <= i <= |ready|
      invariant Pass(env, ready[i..], next) == Pass(env, ready, run)
    {
      assert ready[i..][1..] == ready[i + 1..];
      next := RunTask(env, ready[i], next);
      i := i + 1;
    }
    assert ready[i..] == [];
  }

  /** `_execute_workflow`: runs `tasks` against the agents for at most `fuel`
      passes and returns the result map, the tasks marked completed (in
      execution order) and why the loop stopped. */
  method ExecuteWorkflow(tasks: seq<AgentTask>, message: string, images: seq<Image>,
                         context: string, respond: Respond, fuel: nat)
    returns (results: Results, completed: seq<AgentTask>, stop: Stop)
    ensures var o := Workflow(Env(message, images, context, respond), Run(tasks, EmptyResults, []), fuel);
      results == o.last.results && completed == o.last.completed && stop == o.stop
  {
    var env := Env(message, images, context, respond);
    ghost var pass := PassOf(env);
    ghost var goal := Loop(pass, Run(tasks, EmptyResults, []), fuel);
    var run := Run(tasks, EmptyResults, []);
    var passes := fuel;
    while true
      invariant Loop(pass, run, passes) == goal
      decreases passes
    {
      if |run.remaining| == 0 {
        stop := Finished;
        break;
      }
      var ready := Ready(run.remaining, run.results.Keys());
      if |ready| == 0 {
        stop := Stalled;
        break;
      }
      if passes == 0 {
        stop := OutOfFuel;
        break;
      }
      ghost var before, prev := passes, run;
      run := RunPass(env, ready, run);
      passes := passes - 1;
      LoopUnfold(pass, prev, run, goal, before, passes);
    }
    results, completed := run.results, run.completed;
  }
}
