# Architectural multi-agent orchestrator — a Dafny model

This project models the decision-making core of an architectural-design
assistant. Specialist language-model agents (vision analyst, architectural
expert, FLUX prompt engineer, quality assurance, style specialist and
technical reviewer) work together on one user request. The project covers
four parts:

- **The intelligent orchestrator** (`intelligent_orchestrator.py`):
  - the *planner* turns a message and its images into an ordered task list;
  - the *executor* runs the tasks pass by pass, as their dependencies
    produce results, and injects the follow-up tasks that an agent's output
    asks for;
  - the *context builder* quotes each dependency's output for the agent;
  - the *output compiler* assembles the final record and its confidence
    score, and stores the results in the per-session conversation memory.
- **The fixed pipeline** (`fixed_agents.py`): the chat agent that assembles
  a chat-completion request and turns every failure into an error text, and
  the four-stage pipeline (vision, consultation, FLUX prompt, quality
  review) that threads a growing context through the stages.
- **The agent-role registry** (`agents/agent_definitions.py`): six role
  configurations and the lookup of recommended agents for a task type.
- **The model registry** (`models/model_configs.py`): four model
  deployments and the generator of the shell deployment script.

Modules:

| module | file | what it holds |
|---|---|---|
| `Wrappers` | `wrappers.dfy` | `Option` and `Result` |
| `Text` | `text.dfy` | lower-casing, substring search, `"\n".join` and its inverse split, decimal rendering and its inverse |
| `Tasks` | `tasks.dfy` | task kinds, task records, the insertion-ordered result map, the planner |
| `Executor` | `executor.dfy` | routing suggestions, the task context, one task, one pass, the whole loop; the methods proved equal to their specification functions |
| `ExecutorFacts` | `executor_facts.dfy` | bookkeeping invariant, readiness, stopping, routing, every removal finding its task, termination when no agent asks for follow-ups |
| `EndlessRun` | `endless_run.dfy` | agents that keep asking for both follow-ups, and a planned request that never finishes with them |
| `FixedAgents` | `fixed_agents.dfy` | the chat agent, the pipeline's four agents and the four-stage pipeline |
| `Orchestrator` | `orchestrator.dfy` | confidence, the compiled output, the orchestrator's six agents, the orchestrator class and its session memory |
| `AgentDefinitions` | `agent_definitions.dfy` | the role registry and `get_agents_for_task` |
| `ModelConfigs` | `model_configs.dfy` | the model registry and the deployment script |

Modelling choices:

- The remote agent call is the function-typed parameter `Respond` in the
  executor. `Chat` plays the same part for the chat endpoint, and `Encoder`
  for base64. A raised exception is a `Failure`.
- The executor's loop is the function `Workflow`. It runs at most `fuel`
  passes and reports why it stopped: `Finished`, `Stalled` (nothing is
  ready, and the remaining tasks are dropped) or `OutOfFuel`.
  `ExecuteWorkflow` is the loop written as a method and is proved equal to
  `Workflow`.
- The executor marks each task `completed` and sets its `result` in place.
  The model records the marked tasks in a `completed` log instead, in
  execution order. No code in the repository reads those fields.
- Confidence scores and temperatures are integers in hundredths: 0.85 is 85.

### The executor need not terminate

The executor loop (`intelligent_orchestrator.py:252-307`) leaves only
through two exits: nothing is remaining, or nothing is ready, where the
`break` at `intelligent_orchestrator.py:260` drops the remaining tasks.
Dynamic routing can keep neither exit from being reached. A follow-up task
is injected when no task of its kind is *remaining*, whether or not that
kind already *ran* (`intelligent_orchestrator.py:296-305`). A routed style
analysis depends on the task that suggested it, which has just run, so it is
ready in the next pass. If agent outputs keep naming both follow-up phrases,
style analysis and technical review re-inject each other forever:

- `EndlessRun.PingPongForever` proves this from any state where only one
  such routed task is left.
- `EndlessRun.PlannedPingPong` proves that a planned request without images
  or keywords reaches that state after four passes. From there it never
  finishes or stalls, whatever the pass budget.
- `EndlessRun.EmptyRequestNeverFinishes` instantiates this with concrete
  agents that always answer "style analysis technical review".

The model follows the code. `QuietPlanFinishes` proves termination when no
agent output asks for a follow-up.

## Model

| member | source | states |
|---|---|---|
| Tasks.Results.Put | intelligent_orchestrator.py:283 | assigning a kind sets its value, adds the kind to the keys, and appends it to the insertion order only if it was new |
| Tasks.PutValid | intelligent_orchestrator.py:283 | assignment keeps the insertion order a duplicate-free listing of exactly the keys |
| Tasks.PlanWorkflow | intelligent_orchestrator.py:182-239 | every planned task is fresh, carries the user message and has at most one dependency; the plan length is 3, plus 1 with images, plus 1 for each keyword group present |
| Tasks.PlanTasks | intelligent_orchestrator.py:182-239 | the appending planner builds exactly the planned list |
| Tasks.PlanVisionFirst | intelligent_orchestrator.py:186-194 | a vision task is planned iff images are present, and then it comes first with no dependencies and priority 1 |
| Tasks.PlanCoreChain | intelligent_orchestrator.py:196-218 | consultation (depending on vision iff images), then prompt engineering depending on consultation, then quality assurance depending on prompt engineering, with priorities 2, 3, 4 |
| Tasks.PlanStyle | intelligent_orchestrator.py:220-228 | style analysis is planned iff the lower-cased message contains a style keyword; it depends on vision iff images are present |
| Tasks.PlanTechnical | intelligent_orchestrator.py:230-237 | technical review is planned iff the lower-cased message contains a technical keyword ("structural" included); it depends on consultation |
| Tasks.PlanDistinct | intelligent_orchestrator.py:182-239 | no kind is planned twice |
| Tasks.PlanDepsPointBack | intelligent_orchestrator.py:182-239 | every planned dependency names a kind planned earlier in the list |
| Executor.RoutingSuggestionsSpec | intelligent_orchestrator.py:330-341 | suggestions are drawn from {style, technical} and never the source kind; each appears iff its phrase occurs case-insensitively; style comes before technical; at most two, none twice |
| Executor.ContextFromSkips | intelligent_orchestrator.py:316-319 | kinds that are not dependencies add nothing to the task context |
| Executor.ContextFromSingle | intelligent_orchestrator.py:316-319 | with one dependency, its quoted block is appended once, and only if it has a result |
| Executor.TaskContextAtMostOneDep | intelligent_orchestrator.py:316-319 | with at most one dependency, the task context is the session context followed by `"\n" + dep + ": " + output + "\n"` when the dependency has an output, so the dependency-set iteration order does not matter |
| Executor.BuildTaskContext | intelligent_orchestrator.py:311-319 | the context-building loop yields the specified task context |
| Executor.OutputText | intelligent_orchestrator.py:283-288 | a successful call yields its output; a raised exception yields "Error: " followed by its message |
| Executor.ExecuteSingleTask | intelligent_orchestrator.py:311-328 | the call uses the task's input and context, and passes the images only to the vision kind when there are images |
| Executor.RemoveFirstSpec | intelligent_orchestrator.py:307 | `list.remove` takes away exactly one copy of a present task, keeping the others in order (the absent case, where Python raises, is never reached: `WorkflowRemovesPresent`) |
| Executor.ReadySpec | intelligent_orchestrator.py:254-257 | the ready list holds exactly the remaining tasks whose dependencies all have results, each exactly as often as it remains, in list order |
| Executor.ReadyAppend | intelligent_orchestrator.py:254-257 | the comprehension filters a concatenation piecewise, so the ready list keeps the remaining list's order |
| Executor.RunTask | intelligent_orchestrator.py:282-307 | one iteration of the task loop records the output, marks the task, injects the routed tasks and removes the task, as `Step` specifies |
| Executor.RunPass | intelligent_orchestrator.py:262-307 | one pass runs the ready tasks in list order, as `Pass` specifies |
| Executor.LoopUnfold | intelligent_orchestrator.py:252-260 | a pass that runs ready tasks continues the same loop outcome |
| Executor.ExecuteWorkflow | intelligent_orchestrator.py:241-309 | the while loop returns the final result map, the completed log and the stop reason of the specified loop |
| ExecutorFacts.KindSetAppend | intelligent_orchestrator.py:283-291 | appending a task to the log adds exactly its kind to the log's kinds |
| ExecutorFacts.StepKeepsInvariant | intelligent_orchestrator.py:282-307 | running a ready task keeps the result keys equal to the kinds run, with a duplicate-free order; records the task's output under its kind; appends the marked task to the log; when the task was remaining, the new remaining list is the routed list minus exactly that task |
| ExecutorFacts.PassKeepsInvariant | intelligent_orchestrator.py:262-307 | a pass over ready tasks keeps the invariant, and results only accumulate |
| ExecutorFacts.StepAppends | intelligent_orchestrator.py:290-291 | a step appends its task, marked completed, to the log |
| ExecutorFacts.AppendsMarkedCons | intelligent_orchestrator.py:262-291 | appending marked tasks one pass step at a time appends them all, in order |
| ExecutorFacts.PassRunsReady | intelligent_orchestrator.py:262-291 | a pass runs exactly its ready tasks, in ready-list order, appending each one marked completed |
| ExecutorFacts.ReadyAreReady | intelligent_orchestrator.py:254-257 | every ready task has all its dependencies' results at the start of the pass |
| ExecutorFacts.PassOfKeeps | intelligent_orchestrator.py:262-307 | the executor's pass keeps the invariant and only appends to the log |
| ExecutorFacts.LoopKeepsInvariant | intelligent_orchestrator.py:252-307 | the loop keeps the invariant, and the log only grows |
| ExecutorFacts.LoopStops | intelligent_orchestrator.py:252-260 | Finished iff nothing is left; Stalled means tasks are left and none is ready, so they are dropped; OutOfFuel means some left task could still run |
| ExecutorFacts.WorkflowFromStart | intelligent_orchestrator.py:241-309 | from the empty start, the final result keys are exactly the kinds run, listed once each, and no task ran before all its dependencies had results |
| ExecutorFacts.WorkflowStops | intelligent_orchestrator.py:252-260 | the meaning of each stop reason, for the executor's loop |
| ExecutorFacts.InjectSpec | intelligent_orchestrator.py:296-305 | the router keeps the remaining list as a prefix and appends a task with dependency {source}, priority 5 and the dynamic-routing flag for exactly the suggested kinds that no remaining task has |
| ExecutorFacts.InjectSuggested | intelligent_orchestrator.py:296-305 | every appended task's kind is one of the suggestions |
| ExecutorFacts.InjectFollowsSuggestions | intelligent_orchestrator.py:296-305 | of two appended tasks, the earlier one's kind is suggested before the later one's |
| ExecutorFacts.InjectOrder | intelligent_orchestrator.py:296-305 | the appended tasks' kinds are suggested ones, appended in suggestion order, none twice |
| ExecutorFacts.InjectExtends | intelligent_orchestrator.py:296-305 | routing only appends to the remaining list |
| ExecutorFacts.InjectKeepsDistinct | intelligent_orchestrator.py:296-305 | routing keeps the remaining kinds distinct, whatever the suggestions |
| ExecutorFacts.RouteThenRemoveCount | intelligent_orchestrator.py:296-307 | routing and then removing a remaining task takes exactly that one task out of the routed list |
| ExecutorFacts.RemoveFirstKeeps | intelligent_orchestrator.py:307 | removing one task keeps every other one |
| ExecutorFacts.RouteThenRemove | intelligent_orchestrator.py:296-307 | after routing and removal, every suggested kind has a remaining task, and a newly suggested kind gets a routed one |
| ExecutorFacts.StepRoutesFollowUps | intelligent_orchestrator.py:296-307 | after any step, each kind its output suggests is remaining, routed to depend on the task just run if it was not there before |
| ExecutorFacts.RemoveFirstKeepsDistinct | intelligent_orchestrator.py:307 | removing a task keeps the remaining kinds distinct |
| ExecutorFacts.ReadyKeepsDistinct | intelligent_orchestrator.py:254-257 | the ready tasks of a list with distinct kinds have distinct kinds |
| ExecutorFacts.RouteThenRemoveKeeps | intelligent_orchestrator.py:296-307 | routing and removing the task just run keeps the kinds distinct and keeps every remaining task of another kind |
| ExecutorFacts.PassFindsEach | intelligent_orchestrator.py:262-307 | in a pass over distinct remaining tasks, each ready task is still remaining when `remove` is called on it, and the pass keeps the kinds distinct |
| ExecutorFacts.LoopKeepsDistinct | intelligent_orchestrator.py:252-307 | a pass that keeps the kinds distinct and meets a property on such states meets it in every pass of the loop |
| ExecutorFacts.PassOfFindsEach | intelligent_orchestrator.py:262-307 | the executor's pass finds each of its tasks and keeps the remaining kinds distinct |
| ExecutorFacts.WorkflowRemovesPresent | intelligent_orchestrator.py:252-307 | from a planned request, whatever the agents answer, every `remove` in every pass finds the task it removes |
| ExecutorFacts.QuietStep | intelligent_orchestrator.py:282-307 | when no output mentions a follow-up phrase, a step only removes its task and records its kind |
| ExecutorFacts.QuietPassRemoves | intelligent_orchestrator.py:262-307 | such a pass removes exactly its ready tasks |
| ExecutorFacts.QuietPassRecords | intelligent_orchestrator.py:262-291 | such a pass records exactly its ready tasks' kinds |
| ExecutorFacts.RemovedExactlyByCount | intelligent_orchestrator.py:307 | multiset removal of the ready tasks leaves the other tasks and shortens the list by their number |
| ExecutorFacts.QuietPassOf | intelligent_orchestrator.py:262-307 | with quiet agents every pass removes and records exactly its ready tasks |
| ExecutorFacts.LowestRanked | intelligent_orchestrator.py:254-257 | a non-empty task list has a lowest-ranked task |
| ExecutorFacts.RankedHasReady | intelligent_orchestrator.py:254-260 | in an acyclic state whose dependencies will all run, some task is ready, so the deadlock stop is not taken |
| ExecutorFacts.RankedAfterPass | intelligent_orchestrator.py:262-307 | removing the ready tasks and recording their kinds keeps the state acyclic and its dependencies satisfiable |
| ExecutorFacts.LoopFinishes | intelligent_orchestrator.py:252-307 | from such a state the loop finishes within as many passes as there are tasks, and every task's kind gets a result |
| ExecutorFacts.PlanShapes | intelligent_orchestrator.py:182-239 | each planned task has one of the planned dependency shapes |
| ExecutorFacts.PlanRanked | intelligent_orchestrator.py:182-239 | the plan is acyclic, and each dependency is itself planned |
| ExecutorFacts.QuietPlanFinishes | intelligent_orchestrator.py:241-309 | when no agent asks for a follow-up, the plan finishes within as many passes as tasks, and every planned kind ends with a result |
| EndlessRun.ChattyStep | intelligent_orchestrator.py:296-307 | when every output mentions both phrases, a lone routed style (technical) task routes a fresh technical (style) task after itself |
| EndlessRun.ChattySwaps | intelligent_orchestrator.py:296-307 | such a pass swaps the style and technical roles and stays ready |
| EndlessRun.LoopEchoes | intelligent_orchestrator.py:252-307 | a loop whose pass swaps the roles runs out of any pass budget |
| EndlessRun.PingPongForever | intelligent_orchestrator.py:296-307 | with such agents the executor never finishes or stalls: style analysis and technical review re-inject each other without end |
| EndlessRun.ChattyRoutes | intelligent_orchestrator.py:282-307 | with such agents a step routes its kind's suggestions (both for the four core kinds, the partner for style and technical), removes the task and records its kind |
| EndlessRun.ChattyStepTo | intelligent_orchestrator.py:282-307 | with such agents, a step leaves exactly the list that routing its kind's suggestions and removing the task produce, and records its kind |
| EndlessRun.FirstPassLists | intelligent_orchestrator.py:254-307 | pass 1 of a keyword-free, image-free plan: only the consultation is ready; routing appends style then technical tasks depending on it |
| EndlessRun.SecondPassLists | intelligent_orchestrator.py:254-307 | pass 2: the prompt and both routed tasks are ready; the prompt and the style analysis route nothing new; the technical review routes a style analysis depending on itself |
| EndlessRun.ThirdPassLists | intelligent_orchestrator.py:254-307 | pass 3: the quality review and the routed style analysis are ready; the review routes a technical review depending on itself |
| EndlessRun.FourthPassLists | intelligent_orchestrator.py:254-307 | pass 4: the lone technical review is ready and routes a style analysis depending on itself |
| EndlessRun.FirstPass | intelligent_orchestrator.py:252-307 | with such agents, the executor's first pass leaves the prompt, the review and the two routed tasks, with the consultation's result |
| EndlessRun.SecondPass | intelligent_orchestrator.py:252-307 | the second pass leaves the review and a routed style analysis, with four kinds' results |
| EndlessRun.ThirdPass | intelligent_orchestrator.py:252-307 | the third pass leaves only a technical review routed by quality assurance |
| EndlessRun.FourthPass | intelligent_orchestrator.py:252-307 | the fourth pass reaches the ping-pong state: only a routed style analysis is left |
| EndlessRun.FourLinks | intelligent_orchestrator.py:252-260 | four consecutive passes either exhaust a small budget or continue the same loop outcome |
| EndlessRun.FourLinksNeverEnd | intelligent_orchestrator.py:252-260 | a loop whose first four passes lead to a state that runs out of every budget runs out of every budget too |
| EndlessRun.PlannedReachesEcho | intelligent_orchestrator.py:241-307 | from a planned keyword-free, image-free request, the executor reaches the ping-pong state in four passes |
| EndlessRun.PlannedPingPong | intelligent_orchestrator.py:174-177 | with agents that always mention both phrases, such a planned request never finishes or stalls, whatever the pass budget |
| EndlessRun.BothPhrasesNamesBoth | intelligent_orchestrator.py:330-341 | the answer "style analysis technical review", lower-cased, contains both follow-up phrases |
| EndlessRun.BothPhrasesChatty | intelligent_orchestrator.py:330-341 | agents that always answer "style analysis technical review" mention both follow-up phrases |
| EndlessRun.EmptyRequestNeverFinishes | intelligent_orchestrator.py:174-177 | the empty request answered that way never finishes, whatever the pass budget |
| FixedAgents.ImageParts | fixed_agents.py:49-58 | one image part per image, in order, each holding the data URL `data:image/png;base64,` followed by the encoding |
| FixedAgents.MessagesShape | fixed_agents.py:38-60 | the system instructions come first; a "Context: " message is present iff the context is non-empty; the user content is the text followed by one data URL for each of the first min(3, n) images, in order |
| FixedAgents.AgentReplyCases | fixed_agents.py:63-73 | the request goes to the agent's deployment with 1500 tokens and temperature 0.7; success returns the completion; failure returns "❌ Error in " + name + ": " + the error |
| FixedAgents.BuildUserContent | fixed_agents.py:46-58 | the appending loop builds exactly the specified user content |
| FixedAgents.ProcessRequest | fixed_agents.py:31-73 | the agent assembles the specified messages and returns the specified reply; it never raises |
| FixedAgents.FailedResult | fixed_agents.py:187-197 | the error record carries the error, has confidence 0, hands the user's message back as the prompt, and puts "Error occurred during processing" in the other three fields |
| FixedAgents.FixedPipelineAgents | fixed_agents.py:79-132 | the pipeline's agents are "Vision Analyst", "Architectural Expert", "Prompt Engineer" and "Quality Assurance"; only quality assurance runs on "gpt-5-model", the others on "gpt-4o"; names are distinct and each agent keeps its instructions |
| FixedAgents.RunPipeline | fixed_agents.py:134-185 | vision runs iff images are present; each stage is the pipeline's agent for it, called with the context of all earlier stages' blocks in order; the final record has the vision analysis (or ""), the consultation, the prompt, the review and confidence 0.9 |
| Orchestrator.Confidence | intelligent_orchestrator.py:396-407 | the confidence lies in [60, 90]; it is at least 80 iff there are at least three results; above its base it adds 5 for style analysis and 5 for technical review |
| Orchestrator.ConfidenceMonotone | intelligent_orchestrator.py:396-407 | more result kinds never lower the confidence |
| Orchestrator.FinalOutputReports | intelligent_orchestrator.py:379-394 | each kind's field holds its output, or "" if it did not run; the executed list names each result kind once, in insertion order; the confidence is that of the results |
| Orchestrator.OrchestratorAgentsShape | intelligent_orchestrator.py:49-124 | each kind's agent keeps its instructions; only quality assurance runs on "gpt-5-model", every other on "gpt-4o"; no two kinds' agents share a name |
| Orchestrator.IntelligentOrchestrator.constructor | intelligent_orchestrator.py:47-128 | a new orchestrator holds the six named agents with their deployments, has empty conversation memory and reaches its agents through the chat agent |
| Orchestrator.IntelligentOrchestrator.CompileFinalOutput | intelligent_orchestrator.py:377-394 | replaces the session's stored outputs with the results and returns the compiled record with the result map |
| Orchestrator.IntelligentOrchestrator.ProcessRequest | intelligent_orchestrator.py:161-180 | creates the session with an empty context on first use; runs the plan with the session's context; stores the results; never changes the context |
| Orchestrator.RunPlanned | intelligent_orchestrator.py:174-177 | plans the request and executes the plan, yielding the planned run's result map |
| Orchestrator.PlanHoldsKinds | intelligent_orchestrator.py:196-237 | a plan always holds consultation, prompt engineering and quality assurance, plus style analysis and technical review when their keywords occur |
| Orchestrator.ReportedKinds | intelligent_orchestrator.py:379-407 | results holding those kinds are all listed as executed, with confidence of at least 80 plus 5 for style and 5 for technical |
| Orchestrator.QuietRequestReports | intelligent_orchestrator.py:161-180 | when no agent asks for a follow-up, a request finishes; every planned kind is reported as executed, with confidence of at least 80 plus 5 for a style and 5 for a technical request |
| AgentDefinitions.IndexOf | agents/agent_definitions.py:323-330 | each role has its place in the registry's insertion order |
| AgentDefinitions.GetAgentConfiguration | agents/agent_definitions.py:332-334 | the configuration of role r has role r; it uses the gpt-4o 2024-11-20 defaults with 4000 tokens and temperature 0.7; its threshold lies in [0.82, 0.90] |
| AgentDefinitions.ConfigurationsOf | agents/agent_definitions.py:377-378 | element i is the registry entry of role i, preserving order |
| AgentDefinitions.AllAgentsOnePerRole | agents/agent_definitions.py:336-338 | `get_all_agents` returns six configurations, one per role, in registry order, with no role twice |
| AgentDefinitions.GetAgentsForTask | agents/agent_definitions.py:340-378 | element i is the registry entry of the task type's i-th role, the general list serving unknown types |
| AgentDefinitions.UnknownTaskFallsBack | agents/agent_definitions.py:370-377 | an unknown task type gets the architect, the designer and the project manager |
| AgentDefinitions.RolesForTaskShape | agents/agent_definitions.py:342-377 | architectural design lists five roles and every other type three; no list repeats a role |
| AgentDefinitions.AgentsForTaskShape | agents/agent_definitions.py:340-378 | architectural design gets five agents and every other type three; no agent appears twice |
| ModelConfigs.GetModelConfig | models/model_configs.py:168-170 | the configuration of model type t has type t |
| ModelConfigs.ConfigsOf | models/model_configs.py:172-174 | element i is the registry entry of type i |
| ModelConfigs.AllModelsOnePerType | models/model_configs.py:155-174 | `get_all_models` returns four configurations, one per type, in registry order |
| ModelConfigs.OpenAIDeployment | models/model_configs.py:207-222 | the GPT-4o block has 12 lines and ends with an empty line |
| ModelConfigs.Gpt5Deployment | models/model_configs.py:224-240 | the GPT-5 block has 13 lines and ends with an empty line |
| ModelConfigs.FluxDeployment | models/model_configs.py:242-254 | the FLUX block has 9 lines and ends with an empty line |
| ModelConfigs.VisionDeployment | models/model_configs.py:256-262 | the vision block has 3 lines and ends with an empty line |
| ModelConfigs.BlocksSnoc | models/model_configs.py:189-197 | one more model appends its block to the script body |
| ModelConfigs.GetDeploymentScript | models/model_configs.py:176-205 | the script is the header, each registered model's block in registry order, and the footer, joined with "\n" |
| ModelConfigs.ScriptFraming | models/model_configs.py:178-205 | the script's lines open with "#!/bin/bash" and the fixed 8-line header, and close with the fixed 3-line footer; the text starts with the shebang line |
| ModelConfigs.AzBlockCarriesConfig | models/model_configs.py:207-240 | the GPT-4o and GPT-5 blocks name the configuration's deployment, model, version, capacity and SKU in their `az` command |
| ModelConfigs.VisionBlockRunsNoAz | models/model_configs.py:256-262 | the vision block runs no `az` command |
| ModelConfigs.FluxBlockStoresKey | models/model_configs.py:242-254 | the FLUX block stores the `flux-api-key` secret |
| Text.Lower | intelligent_orchestrator.py:221 | lower-casing keeps the length and maps each character |
| Text.SplitJoin | models/model_configs.py:205 | splitting a newline-joined list of newline-free lines gives the lines back |
| Text.NatToStringRoundTrip | models/model_configs.py:219 | the decimal rendering of a capacity reads back as the same number |

## Left out

- Tracing: the OpenTelemetry span branches of `process_request`, the executor and the compiler, and `_add_workflow_attributes`. They duplicate the untraced logic, which is modelled. The `print` progress messages are left out too.
- Concurrency: `async` only wraps sequential calls, so each awaited call is an ordinary call.
- Remote calls and encoding: the chat-completion endpoint, the Azure client construction and base64 are function-typed parameters, not implementations.
- Executor.Workflow: the loop is bounded by a pass budget (`fuel`). The code has no bound and can run forever, even on a planned request (see `PlannedPingPong` and `EmptyRequestNeverFinishes`). `OutOfFuel` is the model's own stop reason.
- Executor.TaskContext: Python visits the dependency set in hash order; the model visits it in declaration order. Every planned and routed task has at most one dependency, so the result is the same (`TaskContextAtMostOneDep`).
- Task objects are mutated in place (`completed`, `result`). The model returns the marked copies in a `completed` log and does not model the aliasing.
- Executor.RemoveFirstSpec: Python's `list.remove` raises `ValueError` when the element is absent; the model's `RemoveFirst` leaves the list unchanged instead, and its specification states that choice. The executor never reaches that case (`WorkflowRemovesPresent`).
- `IntelligentOrchestrator.workflow_history` is never written after construction and is not modelled.
- Absent optional arguments (`None` images or context) are the empty list or string. The code treats both alike through truthiness.
- The agents' system instructions are parameters (`PipelineInstructions`, and a function from task kind to text); their wording is not modelled. Their names and deployments are.
- The agents' system prompts, descriptions, capability lists, collaboration styles and authentication maps are descriptive text that no modelled code computes on. They are not part of the configuration records.
- Floating point: confidence scores, thresholds and temperatures are integer hundredths. Float rounding (0.8 + 0.05 + 0.05) is not modelled.
- Orchestrator.AgentsRespond: the orchestrator's agents never raise, so the executor's "Error: " branch is unreachable with them. It is still modelled for an arbitrary `Respond`.
- FixedAgents.RunPipeline: for the same reason the pipeline's `except` branch is unreachable, so the method always completes. The error record is modelled as `FailedResult`.
- `ModelManager.save_deployment_configs` (file writes, chmod) and `create_environment_variables` (a constant map) are not modelled.
- Text.Lower: lower-casing covers ASCII letters only. Every keyword and routing phrase is ASCII, but a non-ASCII upper-case letter in a message is not folded.
