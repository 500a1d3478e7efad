/** An endless run of the executor: when agents keep naming both follow-up
    phrases, style analysis and technical review re-inject each other for
    ever, and a planned request reaches that cycle. */
module EndlessRun {
  import opened Wrappers
  import opened Text
  import opened Tasks
  import opened Executor


  /** Every agent output, an error text included, mentions both follow-up
      phrases. */
  ghost predicate Chatty(env: Env)
  {
    forall k, input, context, images ::
      var out := OutputText(env.respond(k, input, context, images));
      Contains(Lower(out), StylePhrase) && Contains(Lower(out), TechnicalPhrase)
  }

  /** The kind that style analysis and technical review suggest. */
  function Partner(k: TaskKind): TaskKind
  {
    if k == StyleAnalysis then TechnicalReview else StyleAnalysis
  }

  /** The routed task for `k` that depends on its partner. */
  function Echo(env: Env, k: TaskKind): AgentTask
  {
    RoutedTask(k, Partner(k), env.message)
  }

  /** With agents that always mention both phrases, running a routed style
      (technical) task that is the only one left routes a fresh technical
      (style) task that depends on it, and records its result. */
  lemma ChattyStep(env: Env, k: TaskKind, run: Run)
    requires Chatty(env) && (k == StyleAnalysis || k == TechnicalReview)
    requires run.remaining == [Echo(env, k)]
    ensures Step(env, Echo(env, k), run).remaining == [Echo(env, Partner(k))]
    ensures k in Step(env, Echo(env, k), run).results.Keys()
  {
    var t := Echo(env, k);
    var next := Step(env, t, run);
    var out := next.results.Get(k, "");
    assert out == TaskOutput(env, t, run.results);
    assert RoutingSuggestions(out, k) == [Partner(k)];
    assert Kinds(run.remaining) == [k];
    assert Inject(run.remaining, [Partner(k)], k, env.message) == [t, Echo(env, Partner(k))];
  }

  /** Only the routed style (technical) task is left, and the result of the
      task it depends on is there. */
  ghost predicate Echoing(env: Env, k: TaskKind, run: Run)
  {
    && (k == StyleAnalysis || k == TechnicalReview)
    && run.remaining == [Echo(env, k)]
    && Partner(k) in run.results.Keys()
  }

  /** In an echoing state the one task left is ready, and the pass swaps the
      roles. */
  ghost predicate Swaps(env: Env, pass: PassFn)
  {
    forall k: TaskKind, run: Run :: Echoing(env, k, run) ==>
      Ready(run.remaining, run.results.Keys()) == run.remaining
      && Echoing(env, Partner(k), pass(run.remaining, run))
  }

  /** The executor's pass swaps the roles when every output mentions both
      phrases. */
  lemma ChattySwaps(env: Env)
    requires Chatty(env)
    ensures Swaps(env, PassOf(env))
  {
    forall k: TaskKind, run: Run | Echoing(env, k, run)
      ensures Ready(run.remaining, run.results.Keys()) == run.remaining
      ensures Echoing(env, Partner(k), PassOf(env)(run.remaining, run))
    {
      assert Ready(run.remaining[1..], run.results.Keys()) == [] by {
        assert run.remaining[1..] == [];
      }
      ChattyStep(env, k, run);
      assert Pass(env, run.remaining, run) == Pass(env, [], Step(env, Echo(env, k), run));
    }
  }

  lemma {:induction false} LoopEchoes(env: Env, pass: PassFn, k: TaskKind, run: Run, fuel: nat)
    requires Swaps(env, pass) && Echoing(env, k, run)
    ensures Loop(pass, run, fuel).stop == OutOfFuel
    decreases fuel
  {
    assert Ready(run.remaining, run.results.Keys()) == run.remaining;
    if fuel > 0 {
      var next := pass(run.remaining, run);
      LoopEchoes(env, pass, Partner(k), next, fuel - 1);
      assert Loop(pass, run, fuel) == Loop(pass, next, fuel - 1);
    }
  }

  /** Such a run never finishes or stalls: whatever the pass budget, the
      executor is still busy when it runs out, alternating between style
      analysis and technical review. */
  lemma PingPongForever(env: Env, k: TaskKind, run: Run, fuel: nat)
    requires Chatty(env) && Echoing(env, k, run)
    ensures Workflow(env, run, fuel).stop == OutOfFuel
  {
    ChattySwaps(env);
    LoopEchoes(env, PassOf(env), k, run, fuel);
  }

  // ---------------------------------------------------------------------
  // A planned request that never finishes

  /** The follow-ups a chatty agent of kind `k` asks for. */
  function ChattySuggestions(k: TaskKind): seq<TaskKind>
  {
    (if k != StyleAnalysis then [StyleAnalysis] else [])
    + (if k != TechnicalReview then [TechnicalReview] else [])
  }

  /** With chatty agents a step routes the suggestions of its kind, removes
      its task and records its kind. */
  lemma ChattyRoutes(env: Env, t: AgentTask, run: Run)
    requires Chatty(env)
    ensures Step(env, t, run).remaining
         == RemoveFirst(Inject(run.remaining, ChattySuggestions(t.kind), t.kind, env.message), t)
    ensures Step(env, t, run).results.Keys() == run.results.Keys() + {t.kind}
  {
    var out := TaskOutput(env, t, run.results);
    assert RoutingSuggestions(out, t.kind) == ChattySuggestions(t.kind);
  }

  /** A step with chatty agents, given the list its routing and removal
      leave. */
  lemma ChattyStepTo(env: Env, t: AgentTask, run: Run, rest: seq<AgentTask>) returns (next: Run)
    requires Chatty(env)
    requires RemoveFirst(Inject(run.remaining, ChattySuggestions(t.kind), t.kind, env.message), t) == rest
    ensures next == Step(env, t, run)
    ensures next.remaining == rest && next.results.Keys() == run.results.Keys() + {t.kind}
  {
    ChattyRoutes(env, t, run);
    next := Step(env, t, run);
  }

  /** The plan of a message without keywords and without images. */
  function ConsultTask(m: string): AgentTask
  {
    NewTask(ArchitecturalConsultation, m, map[], {}, 2)
  }

  function PromptTask(m: string): AgentTask
  {
    NewTask(PromptEngineering, m, map[], {ArchitecturalConsultation}, 3)
  }

  function ReviewTask(m: string): AgentTask
  {
    NewTask(QualityAssurance, m, map[], {PromptEngineering}, 4)
  }

  function StyleAfter(source: TaskKind, m: string): AgentTask
  {
    RoutedTask(StyleAnalysis, source, m)
  }

  function TechnicalAfter(source: TaskKind, m: string): AgentTask
  {
    RoutedTask(TechnicalReview, source, m)
  }

  /** The list facts of pass 1. */
  lemma FirstPassLists(m: string)
    ensures var c, p, q := ConsultTask(m), PromptTask(m), ReviewTask(m);
      && Ready([c, p, q], {}) == [c]
      && RemoveFirst(Inject([c, p, q], ChattySuggestions(ArchitecturalConsultation), ArchitecturalConsultation, m), c)
         == [p, q, StyleAfter(ArchitecturalConsultation, m), TechnicalAfter(ArchitecturalConsultation, m)]
  {
    assert ChattySuggestions(ArchitecturalConsultation) == [StyleAnalysis, TechnicalReview];
    var c, p, q := ConsultTask(m), PromptTask(m), ReviewTask(m);
    assert Ready([q], {}) == [] + Ready([], {});
    assert Ready([p, q], {}) == [] + Ready([q], {});
    assert Ready([c, p, q], {}) == [c] + Ready([p, q], {});
    assert Kinds([c, p, q]) == [ArchitecturalConsultation, PromptEngineering, QualityAssurance];
    var s := StyleAfter(ArchitecturalConsultation, m);
    assert Kinds([c, p, q, s]) == [ArchitecturalConsultation, PromptEngineering, QualityAssurance, StyleAnalysis];
  }

  /** The list facts of pass 2. */
  lemma SecondPassLists(m: string)
    ensures var p, q := PromptTask(m), ReviewTask(m);
      var s, t := StyleAfter(ArchitecturalConsultation, m), TechnicalAfter(ArchitecturalConsultation, m);
      var e := StyleAfter(TechnicalReview, m);
      && Ready([p, q, s, t], {ArchitecturalConsultation}) == [p, s, t]
      && RemoveFirst(Inject([p, q, s, t], ChattySuggestions(PromptEngineering), PromptEngineering, m), p) == [q, s, t]
      && RemoveFirst(Inject([q, s, t], ChattySuggestions(StyleAnalysis), StyleAnalysis, m), s) == [q, t]
      && RemoveFirst(Inject([q, t], ChattySuggestions(TechnicalReview), TechnicalReview, m), t) == [q, e]
  {
    var p, q := PromptTask(m), ReviewTask(m);
    var s, t := StyleAfter(ArchitecturalConsultation, m), TechnicalAfter(ArchitecturalConsultation, m);
    var keys := {ArchitecturalConsultation};
    assert Ready([t], keys) == [t] + Ready([], keys);
    assert Ready([s, t], keys) == [s] + Ready([t], keys);
    assert Ready([q, s, t], keys) == [] + Ready([s, t], keys);
    assert Ready([p, q, s, t], keys) == [p] + Ready([q, s, t], keys);
    SecondPassPrompt(m);
    SecondPassStyle(m);
    SecondPassTechnical(m);
  }

  lemma SecondPassPrompt(m: string)
    ensures var p, q := PromptTask(m), ReviewTask(m);
      var s, t := StyleAfter(ArchitecturalConsultation, m), TechnicalAfter(ArchitecturalConsultation, m);
      RemoveFirst(Inject([p, q, s, t], ChattySuggestions(PromptEngineering), PromptEngineering, m), p) == [q, s, t]
  {
    var p, q := PromptTask(m), ReviewTask(m);
    var s, t := StyleAfter(ArchitecturalConsultation, m), TechnicalAfter(ArchitecturalConsultation, m);
    assert ChattySuggestions(PromptEngineering) == [StyleAnalysis, TechnicalReview];
    assert Kinds([p, q, s, t]) == [PromptEngineering, QualityAssurance, StyleAnalysis, TechnicalReview];
  }

  lemma SecondPassStyle(m: string)
    ensures var q := ReviewTask(m);
      var s, t := StyleAfter(ArchitecturalConsultation, m), TechnicalAfter(ArchitecturalConsultation, m);
      RemoveFirst(Inject([q, s, t], ChattySuggestions(StyleAnalysis), StyleAnalysis, m), s) == [q, t]
  {
    var q := ReviewTask(m);
    var s, t := StyleAfter(ArchitecturalConsultation, m), TechnicalAfter(ArchitecturalConsultation, m);
    assert ChattySuggestions(StyleAnalysis) == [TechnicalReview];
    assert Kinds([q, s, t]) == [QualityAssurance, StyleAnalysis, TechnicalReview];
    assert RemoveFirst([q, s, t], s) == [q] + RemoveFirst([s, t], s);
  }

  lemma SecondPassTechnical(m: string)
    ensures var q, t := ReviewTask(m), TechnicalAfter(ArchitecturalConsultation, m);
      RemoveFirst(Inject([q, t], ChattySuggestions(TechnicalReview), TechnicalReview, m), t)
        == [q, StyleAfter(TechnicalReview, m)]
  {
    var q, t := ReviewTask(m), TechnicalAfter(ArchitecturalConsultation, m);
    var e := StyleAfter(TechnicalReview, m);
    assert ChattySuggestions(TechnicalReview) == [StyleAnalysis];
    assert Kinds([q, t]) == [QualityAssurance, TechnicalReview];
    assert Inject([q, t], [StyleAnalysis], TechnicalReview, m) == [q, t, e];
    assert RemoveFirst([q, t, e], t) == [q] + RemoveFirst([t, e], t);
  }

  /** The list facts of pass 3. */
  lemma ThirdPassLists(m: string, keys: set<TaskKind>)
    requires keys == {ArchitecturalConsultation, PromptEngineering, StyleAnalysis, TechnicalReview}
    ensures var q, e, tq := ReviewTask(m), StyleAfter(TechnicalReview, m), TechnicalAfter(QualityAssurance, m);
      && Ready([q, e], keys) == [q, e]
      && RemoveFirst(Inject([q, e], ChattySuggestions(QualityAssurance), QualityAssurance, m), q) == [e, tq]
      && RemoveFirst(Inject([e, tq], ChattySuggestions(StyleAnalysis), StyleAnalysis, m), e) == [tq]
  {
    assert ChattySuggestions(QualityAssurance) == [StyleAnalysis, TechnicalReview];
    assert ChattySuggestions(StyleAnalysis) == [TechnicalReview];
    var q, e, tq := ReviewTask(m), StyleAfter(TechnicalReview, m), TechnicalAfter(QualityAssurance, m);
    assert Ready([e], keys) == [e] + Ready([], keys);
    assert Ready([q, e], keys) == [q] + Ready([e], keys);
    assert Kinds([q, e]) == [QualityAssurance, StyleAnalysis];
    assert Kinds([q, e, tq]) == [QualityAssurance, StyleAnalysis, TechnicalReview];
    assert Inject([q, e], [StyleAnalysis, TechnicalReview], QualityAssurance, m) == [q, e, tq];
    assert Kinds([e, tq]) == [StyleAnalysis, TechnicalReview];
  }

  /** The list facts of pass 4. */
  lemma FourthPassLists(m: string, keys: set<TaskKind>)
    requires QualityAssurance in keys
    ensures var tq := TechnicalAfter(QualityAssurance, m);
      && Ready([tq], keys) == [tq]
      && RemoveFirst(Inject([tq], ChattySuggestions(TechnicalReview), TechnicalReview, m), tq) == [StyleAfter(TechnicalReview, m)]
  {
    assert ChattySuggestions(TechnicalReview) == [StyleAnalysis];
    var tq := TechnicalAfter(QualityAssurance, m);
    assert Ready([tq], keys) == [tq] + Ready([], keys);
    assert Kinds([tq]) == [TechnicalReview];
  }

  /** A pass over two or three tasks is their steps in order. */
  lemma PassTwo(env: Env, a: AgentTask, b: AgentTask, run: Run)
    ensures Pass(env, [a, b], run) == Step(env, b, Step(env, a, run))
  {
    assert [a, b][1..] == [b];
    assert Pass(env, [b], Step(env, a, run)) == Pass(env, [], Step(env, b, Step(env, a, run)));
  }

  lemma PassThree(env: Env, a: AgentTask, b: AgentTask, c: AgentTask, run: Run)
    ensures Pass(env, [a, b, c], run) == Step(env, c, Step(env, b, Step(env, a, run)))
  {
    assert [a, b, c][1..] == [b, c];
    PassTwo(env, b, c, Step(env, a, run));
  }

  /** Pass 1: only the consultation is ready; it routes style analysis and
      technical review. */
  lemma FirstPass(env: Env, run: Run) returns (next: Run)
    requires Chatty(env)
    requires run.remaining == [ConsultTask(env.message), PromptTask(env.message), ReviewTask(env.message)]
    requires run.results.Keys() == {}
    ensures Link(PassOf(env), run, next)
    ensures && next.remaining == [PromptTask(env.message), ReviewTask(env.message),
                            StyleAfter(ArchitecturalConsultation, env.message),
                            TechnicalAfter(ArchitecturalConsultation, env.message)]
      && next.results.Keys() == {ArchitecturalConsultation}
  {
    var m := env.message;
    FirstPassLists(m);
    next := ChattyStepTo(env, ConsultTask(m), run,
                         [PromptTask(m), ReviewTask(m), StyleAfter(ArchitecturalConsultation, m),
                          TechnicalAfter(ArchitecturalConsultation, m)]);
    assert Pass(env, [ConsultTask(m)], run) == next;
  }

  /** Pass 2: the prompt and both routed tasks run; the technical review
      routes a style analysis that depends on it. */
  lemma SecondPass(env: Env, run: Run) returns (next: Run)
    requires Chatty(env)
    requires run.remaining == [PromptTask(env.message), ReviewTask(env.message),
                               StyleAfter(ArchitecturalConsultation, env.message),
                               TechnicalAfter(ArchitecturalConsultation, env.message)]
    requires run.results.Keys() == {ArchitecturalConsultation}
    ensures Link(PassOf(env), run, next)
    ensures next.remaining == [ReviewTask(env.message), Echo(env, StyleAnalysis)]
    ensures next.results.Keys() == {ArchitecturalConsultation, PromptEngineering, StyleAnalysis, TechnicalReview}
  {
    var m := env.message;
    var p, q := PromptTask(m), ReviewTask(m);
    var s, t := StyleAfter(ArchitecturalConsultation, m), TechnicalAfter(ArchitecturalConsultation, m);
    SecondPassLists(m);
    var a := ChattyStepTo(env, p, run, [q, s, t]);
    var b := ChattyStepTo(env, s, a, [q, t]);
    next := ChattyStepTo(env, t, b, [q, Echo(env, StyleAnalysis)]);
    PassThree(env, p, s, t, run);
  }

  /** Pass 3: the quality review routes a technical review that depends on
      it; the style analysis routes nothing new. */
  lemma ThirdPass(env: Env, run: Run) returns (next: Run)
    requires Chatty(env)
    requires run.remaining == [ReviewTask(env.message), Echo(env, StyleAnalysis)]
    requires run.results.Keys() == {ArchitecturalConsultation, PromptEngineering, StyleAnalysis, TechnicalReview}
    ensures Link(PassOf(env), run, next)
    ensures next.remaining == [TechnicalAfter(QualityAssurance, env.message)]
    ensures QualityAssurance in next.results.Keys()
  {
    var m := env.message;
    var q, e := ReviewTask(m), Echo(env, StyleAnalysis);
    var tq := TechnicalAfter(QualityAssurance, m);
    ThirdPassLists(m, run.results.Keys());
    var a := ChattyStepTo(env, q, run, [e, tq]);
    next := ChattyStepTo(env, e, a, [tq]);
    PassTwo(env, q, e, run);
  }

  /** Pass 4: the lone technical review routes a style analysis that
      depends on it, which starts the cycle. */
  lemma FourthPass(env: Env, run: Run) returns (next: Run)
    requires Chatty(env)
    requires run.remaining == [TechnicalAfter(QualityAssurance, env.message)]
    requires QualityAssurance in run.results.Keys()
    ensures Link(PassOf(env), run, next)
    ensures Echoing(env, StyleAnalysis, next)
  {
    var tq := TechnicalAfter(QualityAssurance, env.message);
    FourthPassLists(env.message, run.results.Keys());
    next := ChattyStepTo(env, tq, run, [StyleAfter(TechnicalReview, env.message)]);
    assert Pass(env, [tq], run) == next;
  }

  /** `next` is what one pass makes of `run`, which has ready tasks. */
  ghost predicate Link(pass: PassFn, run: Run, next: Run)
  {
    && |run.remaining| > 0 && |Ready(run.remaining, run.results.Keys())| > 0
    && next == pass(Ready(run.remaining, run.results.Keys()), run)
  }

  /** A loop that walks along four linked passes runs out of a budget of
      fewer passes and otherwise reaches the fourth state. */
  lemma FourLinks(pass: PassFn, r0: Run, r1: Run, r2: Run, r3: Run, r4: Run, fuel: nat)
    requires Link(pass, r0, r1) && Link(pass, r1, r2) && Link(pass, r2, r3) && Link(pass, r3, r4)
    ensures fuel < 4 ==> Loop(pass, r0, fuel).stop == OutOfFuel
    ensures fuel >= 4 ==> Loop(pass, r0, fuel) == Loop(pass, r4, fuel - 4)
  {
    if fuel >= 4 {
      assert Loop(pass, r0, fuel) == Loop(pass, r1, fuel - 1);
      assert Loop(pass, r1, fuel - 1) == Loop(pass, r2, fuel - 2);
      assert Loop(pass, r2, fuel - 2) == Loop(pass, r3, fuel - 3);
    } else if fuel == 3 {
      assert Loop(pass, r0, 3) == Loop(pass, r1, 2);
      assert Loop(pass, r1, 2) == Loop(pass, r2, 1);
    } else if fuel == 2 {
      assert Loop(pass, r0, 2) == Loop(pass, r1, 1);
    }
  }

  /** Four linked passes into a state that runs out of every budget start
      a loop that runs out of every budget too. */
  lemma FourLinksNeverEnd(pass: PassFn, r0: Run, r1: Run, r2: Run, r3: Run, r4: Run, fuel: nat)
    requires Link(pass, r0, r1) && Link(pass, r1, r2) && Link(pass, r2, r3) && Link(pass, r3, r4)
    requires forall f: nat :: Loop(pass, r4, f).stop == OutOfFuel
    ensures Loop(pass, r0, fuel).stop == OutOfFuel
  {
    FourLinks(pass, r0, r1, r2, r3, r4, fuel);
    if fuel >= 4 {
      assert Loop(pass, r4, fuel - 4).stop == OutOfFuel;
    }
  }

  /** Such a request reaches, after four passes, the state where only a
      style analysis routed from a technical review is left. */
  lemma PlannedReachesEcho(env: Env) returns (r1: Run, r2: Run, r3: Run, echo: Run)
    requires Chatty(env)
    requires |env.images| == 0 && !WantsStyle(env.message) && !WantsTechnical(env.message)
    ensures var start := Run(PlanWorkflow(env.message, env.images), EmptyResults, []);
      && Link(PassOf(env), start, r1) && Link(PassOf(env), r1, r2)
      && Link(PassOf(env), r2, r3) && Link(PassOf(env), r3, echo)
    ensures Echoing(env, StyleAnalysis, echo)
  {
    var m := env.message;
    var run0 := Run(PlanWorkflow(m, env.images), EmptyResults, []);
    assert run0.remaining == [ConsultTask(m), PromptTask(m), ReviewTask(m)];
    r1 := FirstPass(env, run0);
    r2 := SecondPass(env, r1);
    r3 := ThirdPass(env, r2);
    echo := FourthPass(env, r3);
  }

  /** A request without images and without style or technical keywords,
      answered by agents that always name both follow-up phrases, never
      finishes or stalls: after four passes style analysis and technical
      review re-inject each other, whatever the pass budget. */
  lemma PlannedPingPong(env: Env, fuel: nat)
    requires Chatty(env)
    requires |env.images| == 0 && !WantsStyle(env.message) && !WantsTechnical(env.message)
    ensures Workflow(env, Run(PlanWorkflow(env.message, env.images), EmptyResults, []), fuel).stop == OutOfFuel
  {
    var r1, r2, r3, echo := PlannedReachesEcho(env);
    forall f: nat ensures Loop(PassOf(env), echo, f).stop == OutOfFuel {
      PingPongForever(env, StyleAnalysis, echo, f);
    }
    FourLinksNeverEnd(PassOf(env), Run(PlanWorkflow(env.message, env.images), EmptyResults, []),
                      r1, r2, r3, echo, fuel);
  }

  /** An answer that names both follow-up phrases. */
  const BothPhrases: string := "style analysis technical review"

  /** Agents that give that answer to every request. */
  function BothPhrasesRespond(): Respond
  {
    (k: TaskKind, input: string, context: string, images: seq<Image>) => Success(BothPhrases)
  }

  lemma BothPhrasesChatty(message: string)
    ensures Chatty(Env(message, [], "", BothPhrasesRespond()))
  {
    BothPhrasesNamesBoth();
  }

  /** The answer is lower case and contains both phrases. */
  lemma BothPhrasesNamesBoth()
    ensures Contains(Lower(BothPhrases), StylePhrase) && Contains(Lower(BothPhrases), TechnicalPhrase)
  {
    LowerKeepsLowerCase(BothPhrases);
    assert BothPhrases[..14] == StylePhrase;
    assert BothPhrases[15..] == TechnicalPhrase;
    assert OccursAt(BothPhrases, StylePhrase, 0);
    assert OccursAt(BothPhrases, TechnicalPhrase, 15);
  }

  /** Lower-casing a text without ASCII capitals changes nothing. */
  lemma LowerKeepsLowerCase(s: string)
    requires forall i :: 0 <= i < |s| ==> !('A' <= s[i] <= 'Z')
    ensures Lower(s) == s
  {
  }

  /** The empty request without images, answered that way, runs out of
      every pass budget. */
  lemma EmptyRequestNeverFinishes(fuel: nat)
    ensures Workflow(Env("", [], "", BothPhrasesRespond()), Run(PlanWorkflow("", []), EmptyResults, []), fuel).stop
         == OutOfFuel
  {
    BothPhrasesChatty("");
    assert Lower("") == "";
    PlannedPingPong(Env("", [], "", BothPhrasesRespond()), fuel);
  }
}
