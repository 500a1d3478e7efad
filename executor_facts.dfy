/** What the executor guarantees: the bookkeeping it keeps consistent, the
    order in which it runs tasks, the meaning of each way it stops, routing,
    that each removal finds its task, and termination when no agent asks
    for a follow-up. */
module ExecutorFacts {
  import opened Wrappers
  import opened Text
  import opened Tasks
  import opened Executor

  // ---------------------------------------------------------------------
  // Bookkeeping

  /** The result keys, listed once each in insertion order, are exactly the
      kinds of the tasks run so far, and every task run carries a result. */
  ghost predicate Consistent(run: Run)
  {
    && run.results.Valid()
    && run.results.Keys() == KindSet(run.completed)
    && (forall i :: 0 <= i < |run.completed| ==>
          run.completed[i].completed && run.completed[i].result.Some?)
  }

  /** Each task ran only after every one of its dependencies had run. */
  ghost predicate DepsFirst(log: seq<AgentTask>)
  {
    forall i :: 0 <= i < |log| ==> log[i].deps <= KindSet(log[..i])
  }

  lemma KindSetAppend(log: seq<AgentTask>, t: AgentTask)
    ensures KindSet(log + [t]) == KindSet(log) + {t.kind}
  {
    var s := log + [t];
    forall k | k in KindSet(s) ensures k in KindSet(log) + {t.kind} {
      var i :| 0 <= i < |s| && s[i].kind == k;
      if i < |log| { assert log[i] == s[i]; }
    }
    forall k | k in KindSet(log) ensures k in KindSet(s) {
      var i :| 0 <= i < |log| && log[i].kind == k;
      assert s[i] == log[i];
    }
    assert s[|log|] == t;
  }

  /** Running one task whose dependencies all have results keeps the
      bookkeeping consistent and the log dependency-ordered, records the
      task's output under its kind, and appends the marked task to the log. */
  lemma StepKeepsInvariant(env: Env, t: AgentTask, run: Run)
    requires Consistent(run) && DepsFirst(run.completed)
    requires t.deps <= run.results.Keys()
    ensures var next := Step(env, t, run);
      && Consistent(next) && DepsFirst(next.completed)
      && next.results.Keys() == run.results.Keys() + {t.kind}
      && next.results.values[t.kind] == TaskOutput(env, t, run.results)
      && next.completed == run.completed + [t.(completed := true, result := Some(TaskOutput(env, t, run.results)))]
      && var routed := Inject(run.remaining, RoutingSuggestions(TaskOutput(env, t, run.results), t.kind), t.kind, env.message);
         t in run.remaining ==> multiset(next.remaining) == multiset(routed) - multiset{t}
  {
    var next := Step(env, t, run);
    var out := TaskOutput(env, t, run.results);
    if t in run.remaining {
      RouteThenRemoveCount(run.remaining, RoutingSuggestions(out, t.kind), t, env.message);
    }
    var marked := t.(completed := true, result := Some(out));
    PutValid(run.results, t.kind, out);
    KindSetAppend(run.completed, marked);
    assert next.completed == run.completed + [marked];
    forall i | 0 <= i < |next.completed|
      ensures next.completed[i].deps <= KindSet(next.completed[..i])
    {
      if i < |run.completed| {
        assert next.completed[..i] == run.completed[..i];
      } else {
        assert next.completed[..i] == run.completed;
      }
    }
  }

  /** A pass over tasks that were all ready when it began keeps the
      invariant: results only accumulate while it runs. */
  lemma {:induction false} PassKeepsInvariant(env: Env, ready: seq<AgentTask>, run: Run)
    requires Consistent(run) && DepsFirst(run.completed)
    requires forall i :: 0 <= i < |ready| ==> ready[i].deps <= run.results.Keys()
    ensures var next := Pass(env, ready, run);
      && Consistent(next) && DepsFirst(next.completed)
      && run.results.Keys() <= next.results.Keys()
    decreases |ready|
  {
    if |ready| > 0 {
      StepKeepsInvariant(env, ready[0], run);
      PassKeepsInvariant(env, ready[1..], Step(env, ready[0], run));
    }
  }

  /** A step appends its task, marked completed, to the log. */
  lemma StepAppends(env: Env, t: AgentTask, run: Run)
    ensures var done := Step(env, t, run).completed;
      && done[..|run.completed|] == run.completed
      && |done| == |run.completed| + 1
      && done[|run.completed|] == t.(completed := true, result := done[|run.completed|].result)
  {
  }

  /** The log `after` is `before` followed by the tasks of `ready`, each
      marked completed. */
  ghost predicate AppendsMarked(before: seq<AgentTask>, ready: seq<AgentTask>, after: seq<AgentTask>)
  {
    && |after| == |before| + |ready|
    && after[..|before|] == before
    && forall i :: 0 <= i < |ready| ==>
         after[|before| + i] == ready[i].(completed := true, result := after[|before| + i].result)
  }

  lemma AppendsMarkedCons(before: seq<AgentTask>, ready: seq<AgentTask>, mid: seq<AgentTask>, after: seq<AgentTask>)
    requires |ready| > 0
    requires AppendsMarked(before, ready[..1], mid)
    requires AppendsMarked(mid, ready[1..], after)
    ensures AppendsMarked(before, ready, after)
  {
    var n := |before|;
    assert after[..n] == mid[..n];
    forall i | 0 <= i < |ready|
      ensures after[n + i] == ready[i].(completed := true, result := after[n + i].result)
    {
      if i == 0 {
        assert after[n] == mid[n];
      } else {
        assert ready[i] == ready[1..][i - 1];
        assert after[n + i] == after[(n + 1) + (i - 1)];
      }
    }
  }

  /** A pass runs exactly its ready tasks, in the order of the ready list,
      and appends them, marked completed, to the log. */
  lemma {:induction false} PassRunsReady(env: Env, ready: seq<AgentTask>, run: Run)
    ensures AppendsMarked(run.completed, ready, Pass(env, ready, run).completed)
    decreases |ready|
  {
    if |ready| > 0 {
      var mid := Step(env, ready[0], run);
      StepAppends(env, ready[0], run);
      PassRunsReady(env, ready[1..], mid);
      assert Pass(env, ready, run) == Pass(env, ready[1..], mid);
      AppendsMarkedCons(run.completed, ready, mid.completed, Pass(env, ready[1..], mid).completed);
    } else {
      assert Pass(env, ready, run).completed[..|run.completed|] == run.completed;
    }
  }

  /** The ready list only holds tasks whose dependencies all have results. */
  lemma ReadyAreReady(remaining: seq<AgentTask>, keys: set<TaskKind>)
    ensures forall i :: 0 <= i < |Ready(remaining, keys)| ==> Ready(remaining, keys)[i].deps <= keys
  {
    ReadySpec(remaining, keys);
    var r := Ready(remaining, keys);
    forall i | 0 <= i < |r| ensures r[i].deps <= keys {
      assert r[i] in r;
    }
  }

  /** The bookkeeping invariant of a state. */
  ghost predicate Invariant(run: Run)
  {
    Consistent(run) && DepsFirst(run.completed)
  }

  /** Every task handed to a pass had all its dependencies' results. */
  ghost predicate AllReady(ready: seq<AgentTask>, run: Run)
  {
    forall i :: 0 <= i < |ready| ==> ready[i].deps <= run.results.Keys()
  }

  /** A pass given ready tasks keeps the invariant and only appends to the log. */
  ghost predicate PassKeeps(pass: PassFn)
  {
    forall ready, run :: Invariant(run) && AllReady(ready, run) ==>
      Invariant(pass(ready, run)) && run.completed <= pass(ready, run).completed
  }

  lemma PassOfKeeps(env: Env)
    ensures PassKeeps(PassOf(env))
  {
    forall ready, run | Invariant(run) && AllReady(ready, run)
      ensures Invariant(PassOf(env)(ready, run))
      ensures run.completed <= PassOf(env)(ready, run).completed
    {
      PassKeepsInvariant(env, ready, run);
      PassRunsReady(env, ready, run);
    }
  }

  /** The loop hands a pass only ready tasks, so it keeps the invariant of
      any pass that keeps it; the log only grows. */
  lemma {:induction false} LoopKeepsInvariant(pass: PassFn, run: Run, fuel: nat)
    requires PassKeeps(pass) && Invariant(run)
    ensures var o := Loop(pass, run, fuel);
      Invariant(o.last) && run.completed <= o.last.completed
    decreases fuel
  {
    var ready := Ready(run.remaining, run.results.Keys());
    if |run.remaining| > 0 && |ready| > 0 && fuel > 0 {
      ReadyAreReady(run.remaining, run.results.Keys());
      LoopKeepsInvariant(pass, pass(ready, run), fuel - 1);
    }
  }

  /** What each way of stopping means. `Finished`: nothing is left.
      `Stalled`: tasks are left, none of them has all its dependencies'
      results, and they are dropped. `OutOfFuel`: some left task could still
      run. */
  lemma {:induction false} LoopStops(pass: PassFn, run: Run, fuel: nat)
    ensures var o := Loop(pass, run, fuel);
      var keys := o.last.results.Keys();
      && (o.stop == Finished <==> |o.last.remaining| == 0)
      && (o.stop == Stalled ==>
            |o.last.remaining| > 0 && forall t :: t in o.last.remaining ==> !(t.deps <= keys))
      && (o.stop == OutOfFuel ==>
            exists t :: t in o.last.remaining && t.deps <= keys)
    decreases fuel
  {
    var ready := Ready(run.remaining, run.results.Keys());
    ReadySpec(run.remaining, run.results.Keys());
    if |run.remaining| > 0 && |ready| > 0 {
      assert ready[0] in ready;
      if fuel > 0 {
        LoopStops(pass, pass(ready, run), fuel - 1);
      }
    }
  }

  /** From the start state, the executor keeps the invariant: the final
      result map lists the kinds of exactly the tasks run, once each, and no
      task ran before all its dependencies had results. */
  lemma WorkflowFromStart(env: Env, tasks: seq<AgentTask>, fuel: nat)
    ensures var o := Workflow(env, Run(tasks, EmptyResults, []), fuel);
      && o.last.results.Keys() == KindSet(o.last.completed)
      && o.last.results.Valid()
      && DepsFirst(o.last.completed)
  {
    PassOfKeeps(env);
    LoopKeepsInvariant(PassOf(env), Run(tasks, EmptyResults, []), fuel);
  }

  /** What each way of stopping means, for the executor. */
  lemma WorkflowStops(env: Env, run: Run, fuel: nat)
    ensures var o := Workflow(env, run, fuel);
      var keys := o.last.results.Keys();
      && (o.stop == Finished <==> |o.last.remaining| == 0)
      && (o.stop == Stalled ==>
            |o.last.remaining| > 0 && forall t :: t in o.last.remaining ==> !(t.deps <= keys))
      && (o.stop == OutOfFuel ==>
            exists t :: t in o.last.remaining && t.deps <= keys)
  {
    LoopStops(PassOf(env), run, fuel);
  }

  // ---------------------------------------------------------------------
  // Dynamic routing

  /** The router's membership test on the kind list agrees with the kind set. */
  lemma KindsAgree(remaining: seq<AgentTask>, k: TaskKind)
    ensures k in Kinds(remaining) <==> k in KindSet(remaining)
  {
    if k in Kinds(remaining) {
      var i :| 0 <= i < |remaining| && Kinds(remaining)[i] == k;
    }
    if k in KindSet(remaining) {
      var i :| 0 <= i < |remaining| && remaining[i].kind == k;
      assert Kinds(remaining)[i] == k;
    }
  }

  /** With distinct suggestions, the router keeps the remaining list as a
      prefix and appends a routed task (depending on the source, marked as
      dynamically routed) for exactly the suggested kinds that no remaining
      task has. */
  lemma {:induction false} InjectSpec(remaining: seq<AgentTask>, suggestions: seq<TaskKind>,
                                      source: TaskKind, message: string)
    requires forall i, j :: 0 <= i < j < |suggestions| ==> suggestions[i] != suggestions[j]
    ensures var r := Inject(remaining, suggestions, source, message);
      && remaining <= r
      && (forall i :: |remaining| <= i < |r| ==>
            r[i].kind in suggestions && r[i].kind !in KindSet(remaining)
            && r[i] == RoutedTask(r[i].kind, source, message))
      && (forall k :: k in suggestions && k !in KindSet(remaining) ==>
            RoutedTask(k, source, message) in r)
    decreases |suggestions|
  {
    InjectExtends(remaining, suggestions, source, message);
    InjectSuggested(remaining, suggestions, source, message);
    if |suggestions| > 0 {
      var k := suggestions[0];
      var rest := suggestions[1..];
      var next := if k in Kinds(remaining) then remaining
                  else remaining + [RoutedTask(k, source, message)];
      KindsAgree(remaining, k);
      assert KindSet(next) == KindSet(remaining) + (if k in KindSet(remaining) then {} else {k}) by {
        if k !in KindSet(remaining) { KindSetAppend(remaining, RoutedTask(k, source, message)); }
      }
      InjectSpec(next, rest, source, message);
      var r := Inject(remaining, suggestions, source, message);
      assert r == Inject(next, rest, source, message);
      forall i | |remaining| <= i < |r|
        ensures r[i].kind !in KindSet(remaining)
        ensures r[i] == RoutedTask(r[i].kind, source, message)
      {
        if i >= |next| {
          assert r[i].kind in rest;
          assert r[i].kind != k by {
            var j :| 0 <= j < |rest| && rest[j] == r[i].kind;
            assert rest[j] == suggestions[j + 1];
          }
        } else {
          assert next[i] == r[i];
        }
      }
      forall k' | k' in suggestions && k' !in KindSet(remaining)
        ensures RoutedTask(k', source, message) in r
      {
        if k' == k {
          assert next[|remaining|] == r[|remaining|];
        } else {
          var j :| 0 <= j < |suggestions| && suggestions[j] == k';
          assert rest[j - 1] == k';
        }
      }
    }
  }

  /** Every appended task's kind is one of the suggestions. */
  lemma {:induction false} InjectSuggested(remaining: seq<AgentTask>, suggestions: seq<TaskKind>,
                                           source: TaskKind, message: string)
    ensures var r := Inject(remaining, suggestions, source, message);
      forall i :: |remaining| <= i < |r| ==> r[i].kind in suggestions
    decreases |suggestions|
  {
    if |suggestions| > 0 {
      var k := suggestions[0];
      var rest := suggestions[1..];
      var next := if k in Kinds(remaining) then remaining
                  else remaining + [RoutedTask(k, source, message)];
      InjectSuggested(next, rest, source, message);
      InjectExtends(next, rest, source, message);
      var r := Inject(remaining, suggestions, source, message);
      assert r == Inject(next, rest, source, message);
      forall i | |remaining| <= i < |r| ensures r[i].kind in suggestions {
        if i < |next| {
          assert r[i] == next[i];
        } else {
          var a :| 0 <= a < |rest| && rest[a] == r[i].kind;
          assert suggestions[a + 1] == r[i].kind;
        }
      }
    }
  }

  /** `x` is suggested before `y`. */
  ghost predicate SuggestedBefore(suggestions: seq<TaskKind>, x: TaskKind, y: TaskKind)
  {
    exists a, b :: 0 <= a < b < |suggestions| && suggestions[a] == x && suggestions[b] == y
  }

  /** Two appended tasks come from suggestions in the same order. */
  lemma {:induction false} InjectFollowsSuggestions(remaining: seq<AgentTask>, suggestions: seq<TaskKind>,
                                                    source: TaskKind, message: string)
    ensures var r := Inject(remaining, suggestions, source, message);
      forall i, j :: |remaining| <= i < j < |r| ==> SuggestedBefore(suggestions, r[i].kind, r[j].kind)
    decreases |suggestions|
  {
    if |suggestions| > 0 {
      var k := suggestions[0];
      var rest := suggestions[1..];
      var next := if k in Kinds(remaining) then remaining
                  else remaining + [RoutedTask(k, source, message)];
      InjectFollowsSuggestions(next, rest, source, message);
      InjectSuggested(next, rest, source, message);
      InjectExtends(next, rest, source, message);
      var r := Inject(remaining, suggestions, source, message);
      assert r == Inject(next, rest, source, message);
      forall i, j | |remaining| <= i < j < |r|
        ensures SuggestedBefore(suggestions, r[i].kind, r[j].kind)
      {
        if i < |next| {
          assert r[i] == next[i] == RoutedTask(k, source, message);
          var b :| 0 <= b < |rest| && rest[b] == r[j].kind;
          assert 0 < b + 1 < |suggestions| && suggestions[0] == r[i].kind && suggestions[b + 1] == r[j].kind;
        } else {
          assert SuggestedBefore(rest, r[i].kind, r[j].kind);
          var a, b :| 0 <= a < b < |rest| && rest[a] == r[i].kind && rest[b] == r[j].kind;
          assert 0 <= a + 1 < b + 1 < |suggestions| && suggestions[a + 1] == r[i].kind && suggestions[b + 1] == r[j].kind;
        }
      }
    }
  }

  /** The routed tasks are appended in the order of the suggestions that
      produce them, so with distinct suggestions no kind is appended twice. */
  lemma InjectOrder(remaining: seq<AgentTask>, suggestions: seq<TaskKind>, source: TaskKind, message: string)
    requires forall i, j :: 0 <= i < j < |suggestions| ==> suggestions[i] != suggestions[j]
    ensures var r := Inject(remaining, suggestions, source, message);
      && (forall i :: |remaining| <= i < |r| ==> r[i].kind in suggestions)
      && (forall i, j :: |remaining| <= i < j < |r| ==> SuggestedBefore(suggestions, r[i].kind, r[j].kind))
      && (forall i, j :: |remaining| <= i < j < |r| ==> r[i].kind != r[j].kind)
  {
    InjectSuggested(remaining, suggestions, source, message);
    InjectFollowsSuggestions(remaining, suggestions, source, message);
    var r := Inject(remaining, suggestions, source, message);
    forall i, j | |remaining| <= i < j < |r| ensures r[i].kind != r[j].kind {
      assert SuggestedBefore(suggestions, r[i].kind, r[j].kind);
      var a, b :| 0 <= a < b < |suggestions| && suggestions[a] == r[i].kind && suggestions[b] == r[j].kind;
      assert suggestions[a] != suggestions[b];
    }
  }

  /** The router only appends to the remaining list. */
  lemma {:induction false} InjectExtends(remaining: seq<AgentTask>, suggestions: seq<TaskKind>,
                                         source: TaskKind, message: string)
    ensures remaining <= Inject(remaining, suggestions, source, message)
    decreases |suggestions|
  {
    if |suggestions| > 0 {
      var next := if suggestions[0] in Kinds(remaining) then remaining
                  else remaining + [RoutedTask(suggestions[0], source, message)];
      InjectExtends(next, suggestions[1..], source, message);
    }
  }

  /** Routing keeps the remaining kinds distinct: a kind is appended only
      when no task of it is left, whatever the suggestions. */
  lemma {:induction false} InjectKeepsDistinct(remaining: seq<AgentTask>, suggestions: seq<TaskKind>,
                                               source: TaskKind, message: string)
    requires DistinctKinds(remaining)
    ensures DistinctKinds(Inject(remaining, suggestions, source, message))
    decreases |suggestions|
  {
    if |suggestions| > 0 {
      var k := suggestions[0];
      var next := if k in Kinds(remaining) then remaining
                  else remaining + [RoutedTask(k, source, message)];
      forall i, j | 0 <= i < j < |next| ensures next[i].kind != next[j].kind {
        if j == |remaining| {
          assert Kinds(remaining)[i] == next[i].kind;
        }
      }
      InjectKeepsDistinct(next, suggestions[1..], source, message);
    }
  }

  /** Routing, then removing a task that was remaining, takes exactly that
      one task out of the routed list. */
  lemma RouteThenRemoveCount(remaining: seq<AgentTask>, suggested: seq<TaskKind>, t: AgentTask, message: string)
    requires t in remaining
    ensures var routed := Inject(remaining, suggested, t.kind, message);
      && multiset(RemoveFirst(routed, t)) == multiset(routed) - multiset{t}
      && |RemoveFirst(routed, t)| == |routed| - 1
  {
    var routed := Inject(remaining, suggested, t.kind, message);
    InjectExtends(remaining, suggested, t.kind, message);
    assert t in routed by {
      var i :| 0 <= i < |remaining| && remaining[i] == t;
      assert routed[i] == t;
    }
    RemoveFirstSpec(routed, t);
  }

  /** Removing one element keeps every other one. */
  lemma {:induction false} RemoveFirstKeeps(s: seq<AgentTask>, x: AgentTask, u: AgentTask)
    requires u in s && u != x
    ensures u in RemoveFirst(s, x)
    decreases |s|
  {
    if s[0] != x && s[0] != u {
      RemoveFirstKeeps(s[1..], x, u);
    }
  }

  /** Routing and then removing the task just run: every suggested kind
      other than the task's own has a remaining task afterwards, and one that
      had none before gets a routed task. */
  lemma RouteThenRemove(remaining: seq<AgentTask>, suggested: seq<TaskKind>, t: AgentTask, message: string)
    requires forall i, j :: 0 <= i < j < |suggested| ==> suggested[i] != suggested[j]
    requires t.kind !in suggested
    ensures var r := RemoveFirst(Inject(remaining, suggested, t.kind, message), t);
      && (forall k :: k in suggested ==> k in KindSet(r))
      && (forall k :: k in suggested && k !in KindSet(remaining) ==> RoutedTask(k, t.kind, message) in r)
  {
    var routed := Inject(remaining, suggested, t.kind, message);
    var r := RemoveFirst(routed, t);
    InjectSpec(remaining, suggested, t.kind, message);
    forall k | k in suggested
      ensures k in KindSet(r)
      ensures k !in KindSet(remaining) ==> RoutedTask(k, t.kind, message) in r
    {
      var u: AgentTask;
      if k in KindSet(remaining) {
        var i :| 0 <= i < |remaining| && remaining[i].kind == k;
        u := remaining[i];
        assert u == routed[i];
      } else {
        u := RoutedTask(k, t.kind, message);
      }
      RemoveFirstKeeps(routed, t, u);
      var j :| 0 <= j < |r| && r[j] == u;
    }
  }

  /** After a step, every kind its output suggests has a task among the
      remaining ones, and a suggested kind that had none gets a routed task
      depending on the task just run (a consultation that mentions a
      technical review gets its review this way). */
  lemma StepRoutesFollowUps(env: Env, t: AgentTask, run: Run)
    ensures var next := Step(env, t, run);
      var suggested := RoutingSuggestions(next.results.values[t.kind], t.kind);
      && (forall k :: k in suggested ==> k in KindSet(next.remaining))
      && (forall k :: k in suggested && k !in KindSet(run.remaining) ==>
            RoutedTask(k, t.kind, env.message) in next.remaining)
  {
    var out := TaskOutput(env, t, run.results);
    var suggested := RoutingSuggestions(out, t.kind);
    RoutingSuggestionsSpec(out, t.kind);
    RouteThenRemove(run.remaining, suggested, t, env.message);
  }

  // ---------------------------------------------------------------------
  // Each removal finds its task

  /** The tail of a list with distinct kinds has distinct kinds, none of
      them the head's. */
  lemma TailDistinct(s: seq<AgentTask>)
    requires |s| > 0 && DistinctKinds(s)
    ensures DistinctKinds(s[1..])
    ensures forall u :: u in s[1..] ==> u.kind != s[0].kind
  {
    var tail := s[1..];
    forall i, j | 0 <= i < j < |tail| ensures tail[i].kind != tail[j].kind {
      assert tail[i] == s[i + 1] && tail[j] == s[j + 1];
    }
    forall u | u in tail ensures u.kind != s[0].kind {
      var m :| 0 <= m < |tail| && tail[m] == u;
      assert s[m + 1] == u;
    }
  }

  lemma PrependDistinct(x: AgentTask, rest: seq<AgentTask>)
    requires DistinctKinds(rest)
    requires forall u :: u in rest ==> u.kind != x.kind
    ensures DistinctKinds([x] + rest)
  {
    var r := [x] + rest;
    forall i, j | 0 <= i < j < |r| ensures r[i].kind != r[j].kind {
      assert r[j] == rest[j - 1];
      if i > 0 {
        assert r[i] == rest[i - 1];
      } else {
        assert rest[j - 1] in rest;
      }
    }
  }

  /** Removing an element keeps the kinds of the rest distinct. */
  lemma {:induction false} RemoveFirstKeepsDistinct(s: seq<AgentTask>, x: AgentTask)
    requires DistinctKinds(s)
    ensures DistinctKinds(RemoveFirst(s, x))
    decreases |s|
  {
    if |s| > 0 {
      TailDistinct(s);
      if s[0] != x {
        var tail := s[1..];
        var rest := RemoveFirst(tail, x);
        RemoveFirstKeepsDistinct(tail, x);
        RemoveFirstSpec(tail, x);
        forall u | u in rest ensures u.kind != s[0].kind {
          assert u in multiset(rest);
          assert u in multiset(tail);
        }
        PrependDistinct(s[0], rest);
      }
    }
  }

  /** The ready list only holds remaining tasks. */
  lemma ReadyWithin(remaining: seq<AgentTask>, keys: set<TaskKind>)
    ensures forall t :: t in Ready(remaining, keys) ==> t in remaining
  {
    ReadySpec(remaining, keys);
  }

  /** The ready tasks of a list with distinct kinds have distinct kinds. */
  lemma {:induction false} ReadyKeepsDistinct(remaining: seq<AgentTask>, keys: set<TaskKind>)
    requires DistinctKinds(remaining)
    ensures DistinctKinds(Ready(remaining, keys))
    decreases |remaining|
  {
    if |remaining| > 0 {
      var tail := remaining[1..];
      TailDistinct(remaining);
      ReadyKeepsDistinct(tail, keys);
      ReadyWithin(tail, keys);
      if remaining[0].deps <= keys {
        PrependDistinct(remaining[0], Ready(tail, keys));
      }
    }
  }

  /** Each task of a pass is still remaining when its turn comes, so the
      `remove` at the end of its turn finds it. */
  ghost predicate EachPresent(env: Env, ready: seq<AgentTask>, run: Run)
    decreases |ready|
  {
    |ready| == 0 || (ready[0] in run.remaining && EachPresent(env, ready[1..], Step(env, ready[0], run)))
  }

  /** Routing and then removing the task just run keeps the remaining kinds
      distinct and keeps every remaining task of another kind. */
  lemma RouteThenRemoveKeeps(remaining: seq<AgentTask>, suggested: seq<TaskKind>, t: AgentTask,
                             message: string, later: seq<AgentTask>)
    requires DistinctKinds(remaining)
    requires forall u :: u in later ==> u in remaining && u.kind != t.kind
    ensures var r := RemoveFirst(Inject(remaining, suggested, t.kind, message), t);
      && DistinctKinds(r)
      && forall u :: u in later ==> u in r
  {
    var routed := Inject(remaining, suggested, t.kind, message);
    InjectExtends(remaining, suggested, t.kind, message);
    InjectKeepsDistinct(remaining, suggested, t.kind, message);
    RemoveFirstKeepsDistinct(routed, t);
    forall u | u in later ensures u in RemoveFirst(routed, t) {
      var i :| 0 <= i < |remaining| && remaining[i] == u;
      assert routed[i] == u;
      RemoveFirstKeeps(routed, t, u);
    }
  }

  /** A pass over remaining tasks of distinct kinds finds each of them when
      its turn comes, and leaves the remaining kinds distinct. */
  lemma {:induction false} PassFindsEach(env: Env, ready: seq<AgentTask>, run: Run)
    requires DistinctKinds(run.remaining) && DistinctKinds(ready)
    requires forall t :: t in ready ==> t in run.remaining
    ensures EachPresent(env, ready, run)
    ensures DistinctKinds(Pass(env, ready, run).remaining)
    decreases |ready|
  {
    if |ready| > 0 {
      var t := ready[0];
      var later := ready[1..];
      TailDistinct(ready);
      forall u | u in later ensures u in run.remaining {
        var j :| 0 <= j < |later| && later[j] == u;
        assert ready[j + 1] == u;
      }
      var out := TaskOutput(env, t, run.results);
      RouteThenRemoveKeeps(run.remaining, RoutingSuggestions(out, t.kind), t, env.message, later);
      PassFindsEach(env, later, Step(env, t, run));
    }
  }

  /** What a pass must satisfy, given the ready tasks and the state. */
  type PassProp = (seq<AgentTask>, Run) -> bool

  /** Every pass the loop runs, within the budget, satisfies `prop`. */
  ghost predicate EveryPass(pass: PassFn, prop: PassProp, run: Run, fuel: nat)
    decreases fuel
  {
    var ready := Ready(run.remaining, run.results.Keys());
    if |run.remaining| == 0 || |ready| == 0 || fuel == 0 then true
    else prop(ready, run) && EveryPass(pass, prop, pass(ready, run), fuel - 1)
  }

  /** A pass that satisfies `prop` on a state with distinct remaining kinds
      and keeps those kinds distinct. */
  ghost predicate KeepsDistinct(pass: PassFn, prop: PassProp)
  {
    forall ready: seq<AgentTask>, run: Run :: DistinctKinds(run.remaining) && ready == Ready(run.remaining, run.results.Keys()) ==>
      prop(ready, run) && DistinctKinds(pass(ready, run).remaining)
  }

  lemma {:induction false} LoopKeepsDistinct(pass: PassFn, prop: PassProp, run: Run, fuel: nat)
    requires KeepsDistinct(pass, prop) && DistinctKinds(run.remaining)
    ensures EveryPass(pass, prop, run, fuel)
    decreases fuel
  {
    var ready := Ready(run.remaining, run.results.Keys());
    if |run.remaining| > 0 && |ready| > 0 && fuel > 0 {
      LoopKeepsDistinct(pass, prop, pass(ready, run), fuel - 1);
    }
  }

  /** The executor's pass finds each of its tasks and keeps the remaining
      kinds distinct. */
  lemma PassOfFindsEach(env: Env)
    ensures KeepsDistinct(PassOf(env), (ready, run) => EachPresent(env, ready, run))
  {
    forall ready: seq<AgentTask>, run: Run | DistinctKinds(run.remaining) && ready == Ready(run.remaining, run.results.Keys())
      ensures EachPresent(env, ready, run) && DistinctKinds(PassOf(env)(ready, run).remaining)
    {
      ReadyWithin(run.remaining, run.results.Keys());
      ReadyKeepsDistinct(run.remaining, run.results.Keys());
      PassFindsEach(env, ready, run);
    }
  }

  /** From a planned request, whatever the agents answer, every `remove`
      the executor performs finds the task it removes: the remaining kinds
      stay distinct, so no earlier removal in a pass takes a later ready
      task away. */
  lemma WorkflowRemovesPresent(env: Env, fuel: nat)
    ensures EveryPass(PassOf(env), (ready, run) => EachPresent(env, ready, run),
                      Run(PlanWorkflow(env.message, env.images), EmptyResults, []), fuel)
  {
    PlanDistinct(env.message, env.images);
    PassOfFindsEach(env);
    LoopKeepsDistinct(PassOf(env), (ready, run) => EachPresent(env, ready, run),
                      Run(PlanWorkflow(env.message, env.images), EmptyResults, []), fuel);
  }

  // ---------------------------------------------------------------------
  // Termination when no agent asks for a follow-up

  /** No agent output, an error text included, mentions a follow-up phrase. */
  ghost predicate Quiet(env: Env)
  {
    forall k, input, context, images ::
      var out := OutputText(env.respond(k, input, context, images));
      !Contains(Lower(out), StylePhrase) && !Contains(Lower(out), TechnicalPhrase)
  }

  lemma KindSetCons(ready: seq<AgentTask>)
    requires |ready| > 0
    ensures KindSet(ready) == {ready[0].kind} + KindSet(ready[1..])
  {
    forall k | k in KindSet(ready) ensures k in {ready[0].kind} + KindSet(ready[1..]) {
      var i :| 0 <= i < |ready| && ready[i].kind == k;
      if i > 0 { assert ready[1..][i - 1] == ready[i]; }
    }
    forall k | k in KindSet(ready[1..]) ensures k in KindSet(ready) {
      var i :| 0 <= i < |ready[1..]| && ready[1..][i].kind == k;
      assert ready[i + 1] == ready[1..][i];
    }
  }

  /** With a quiet agent a step only removes the task and records its kind. */
  lemma QuietStep(env: Env, t: AgentTask, run: Run)
    requires Quiet(env)
    ensures Step(env, t, run).remaining == RemoveFirst(run.remaining, t)
    ensures Step(env, t, run).results.Keys() == run.results.Keys() + {t.kind}
  {
    var out := TaskOutput(env, t, run.results);
    assert RoutingSuggestions(out, t.kind) == [];
  }

  lemma DiffDiff(a: multiset<AgentTask>, b: multiset<AgentTask>, c: multiset<AgentTask>)
    ensures (a - b) - c == a - (b + c)
  {
  }

  /** With a quiet agent a pass removes exactly its ready tasks. */
  lemma {:induction false} QuietPassRemoves(env: Env, ready: seq<AgentTask>, run: Run)
    requires Quiet(env)
    requires multiset(ready) <= multiset(run.remaining)
    ensures multiset(Pass(env, ready, run).remaining) == multiset(run.remaining) - multiset(ready)
    decreases |ready|
  {
    if |ready| > 0 {
      var t := ready[0];
      QuietStep(env, t, run);
      assert ready == [t] + ready[1..];
      assert t in multiset(run.remaining);
      RemoveFirstSpec(run.remaining, t);
      QuietPassRemoves(env, ready[1..], Step(env, t, run));
      DiffDiff(multiset(run.remaining), multiset{t}, multiset(ready[1..]));
    }
  }

  /** With a quiet agent a pass records exactly its ready tasks' kinds. */
  lemma {:induction false} QuietPassRecords(env: Env, ready: seq<AgentTask>, run: Run)
    requires Quiet(env)
    ensures Pass(env, ready, run).results.Keys() == run.results.Keys() + KindSet(ready)
    decreases |ready|
  {
    if |ready| > 0 {
      QuietStep(env, ready[0], run);
      QuietPassRecords(env, ready[1..], Step(env, ready[0], run));
      KindSetCons(ready);
    }
  }

  /** `next` is `run` with exactly the tasks of `ready` taken out of the
      remaining list and their kinds recorded. */
  ghost predicate RemovedExactly(run: Run, ready: seq<AgentTask>, next: Run)
  {
    && (forall t :: t in next.remaining ==> t in run.remaining)
    && (forall u :: u in run.remaining && u !in ready ==> u in next.remaining)
    && |next.remaining| == |run.remaining| - |ready|
    && next.results.Keys() == run.results.Keys() + KindSet(ready)
  }

  lemma RemovedExactlyByCount(run: Run, ready: seq<AgentTask>, next: Run)
    requires multiset(ready) <= multiset(run.remaining)
    requires multiset(next.remaining) == multiset(run.remaining) - multiset(ready)
    requires next.results.Keys() == run.results.Keys() + KindSet(ready)
    ensures RemovedExactly(run, ready, next)
  {
    forall t | t in next.remaining ensures t in run.remaining {
      assert t in multiset(next.remaining);
    }
    forall u | u in run.remaining && u !in ready ensures u in next.remaining {
      assert u in multiset(next.remaining);
    }
    assert |multiset(next.remaining)| == |multiset(run.remaining)| - |multiset(ready)|;
  }

  /** Each pass over the ready tasks takes out exactly those and records
      exactly their kinds. */
  ghost predicate RemovesReady(pass: PassFn)
  {
    forall ready: seq<AgentTask>, run: Run :: ready == Ready(run.remaining, run.results.Keys()) ==>
      RemovedExactly(run, ready, pass(ready, run))
  }

  lemma QuietPassOf(env: Env)
    requires Quiet(env)
    ensures RemovesReady(PassOf(env))
  {
    forall ready: seq<AgentTask>, run: Run | ready == Ready(run.remaining, run.results.Keys())
      ensures RemovedExactly(run, ready, PassOf(env)(ready, run))
    {
      ReadySpec(run.remaining, run.results.Keys());
      QuietPassRemoves(env, ready, run);
      QuietPassRecords(env, ready, run);
      RemovedExactlyByCount(run, ready, Pass(env, ready, run));
    }
  }

  /** The order of the kinds along the planned dependency chains. */
  function Rank(k: TaskKind): nat
  {
    match k
    case VisionAnalysis => 0
    case ArchitecturalConsultation => 1
    case StyleAnalysis => 1
    case PromptEngineering => 2
    case TechnicalReview => 2
    case QualityAssurance => 3
  }

  /** Every dependency of a remaining task ranks below it under `rank` and
      either has a result or is the kind of a remaining task: the dependency
      graph is acyclic and nothing depends on a kind that will never run. */
  ghost predicate Ranked(run: Run, rank: TaskKind -> nat)
  {
    forall t, d :: t in run.remaining && d in t.deps ==>
      rank(d) < rank(t.kind) && (d in run.results.Keys() || d in KindSet(run.remaining))
  }

  lemma {:induction false} LowestRanked(s: seq<AgentTask>, rank: TaskKind -> nat) returns (t: AgentTask)
    requires |s| > 0
    ensures t in s && forall u :: u in s ==> rank(t.kind) <= rank(u.kind)
    decreases |s|
  {
    if |s| == 1 {
      t := s[0];
    } else {
      var rest := LowestRanked(s[1..], rank);
      t := if rank(s[0].kind) <= rank(rest.kind) then s[0] else rest;
      forall u | u in s ensures rank(t.kind) <= rank(u.kind) {
        if u != s[0] { assert u in s[1..]; }
      }
    }
  }

  /** In a ranked state with tasks left, the lowest-ranked task is ready. */
  lemma RankedHasReady(run: Run, rank: TaskKind -> nat)
    requires Ranked(run, rank) && |run.remaining| > 0
    ensures |Ready(run.remaining, run.results.Keys())| > 0
  {
    var t := LowestRanked(run.remaining, rank);
    forall d | d in t.deps ensures d in run.results.Keys() {
      forall u | u in run.remaining ensures u.kind != d {
        assert rank(t.kind) <= rank(u.kind);
      }
    }
    ReadySpec(run.remaining, run.results.Keys());
    assert t in Ready(run.remaining, run.results.Keys());
  }

  /** Removing some remaining tasks and recording their kinds keeps a state
      ranked. */
  lemma RankedAfterPass(run: Run, ready: seq<AgentTask>, next: Run, rank: TaskKind -> nat)
    requires Ranked(run, rank) && RemovedExactly(run, ready, next)
    ensures Ranked(next, rank)
  {
    forall t, d | t in next.remaining && d in t.deps
      ensures rank(d) < rank(t.kind) && (d in next.results.Keys() || d in KindSet(next.remaining))
    {
      assert t in run.remaining;
      if d !in run.results.Keys() {
        assert d in KindSet(run.remaining);
        var i :| 0 <= i < |run.remaining| && run.remaining[i].kind == d;
        var u := run.remaining[i];
        assert u in run.remaining;
        if u in ready {
          var j :| 0 <= j < |ready| && ready[j] == u;
        } else {
          var j :| 0 <= j < |next.remaining| && next.remaining[j] == u;
        }
      }
    }
  }

  /** From a ranked state the loop finishes within as many passes as tasks
      are left, provided each pass takes out exactly its ready tasks; every
      task that was left has a result for its kind at the end. */
  lemma {:induction false} LoopFinishes(pass: PassFn, rank: TaskKind -> nat, run: Run, fuel: nat)
    requires RemovesReady(pass) && Ranked(run, rank) && |run.remaining| <= fuel
    ensures var o := Loop(pass, run, fuel);
      && o.stop == Finished
      && run.results.Keys() <= o.last.results.Keys()
      && forall t :: t in run.remaining ==> t.kind in o.last.results.Keys()
    decreases fuel
  {
    if |run.remaining| > 0 {
      var ready := Ready(run.remaining, run.results.Keys());
      RankedHasReady(run, rank);
      var next := pass(ready, run);
      assert RemovedExactly(run, ready, next);
      RankedAfterPass(run, ready, next, rank);
      LoopFinishes(pass, rank, next, fuel - 1);
      forall t | t in run.remaining && t in ready
        ensures t.kind in next.results.Keys()
      {
        var j :| 0 <= j < |ready| && ready[j] == t;
      }
    }
  }

  /** The shape of a planned task: its kind and the dependencies it may
      have. */
  predicate PlannedShape(t: AgentTask)
  {
    match t.kind
    case VisionAnalysis => t.deps == {}
    case ArchitecturalConsultation => t.deps <= {VisionAnalysis}
    case PromptEngineering => t.deps == {ArchitecturalConsultation}
    case QualityAssurance => t.deps == {PromptEngineering}
    case StyleAnalysis => t.deps <= {VisionAnalysis}
    case TechnicalReview => t.deps == {ArchitecturalConsultation}
  }

  lemma PlanShapes(message: string, images: seq<Image>)
    ensures var tasks := PlanWorkflow(message, images);
      forall i :: 0 <= i < |tasks| ==> PlannedShape(tasks[i])
  {
  }

  /** The planned tasks form a ranked state: each dependency ranks lower
      and is planned itself. */
  lemma PlanRanked(message: string, images: seq<Image>)
    ensures Ranked(Run(PlanWorkflow(message, images), EmptyResults, []), Rank)
  {
    var tasks := PlanWorkflow(message, images);
    PlanDepsPointBack(message, images);
    PlanShapes(message, images);
    forall t, d | t in tasks && d in t.deps
      ensures Rank(d) < Rank(t.kind) && d in KindSet(tasks)
    {
      var i :| 0 <= i < |tasks| && tasks[i] == t;
      assert PlannedShape(t);
      assert d in KindSet(tasks[..i]);
      var j :| 0 <= j < |tasks[..i]| && tasks[..i][j].kind == d;
      assert tasks[j].kind == d;
    }
  }

  /** When no agent asks for a follow-up, the executor finishes the plan
      within as many passes as there are planned tasks, and every planned
      kind ends with a result. */
  lemma QuietPlanFinishes(env: Env, fuel: nat)
    requires Quiet(env)
    requires |PlanWorkflow(env.message, env.images)| <= fuel
    ensures var tasks := PlanWorkflow(env.message, env.images);
      var o := Workflow(env, Run(tasks, EmptyResults, []), fuel);
      && o.stop == Finished
      && forall t :: t in tasks ==> t.kind in o.last.results.Keys()
  {
    QuietPassOf(env);
    PlanRanked(env.message, env.images);
    LoopFinishes(PassOf(env), Rank, Run(PlanWorkflow(env.message, env.images), EmptyResults, []), fuel);
  }
}
