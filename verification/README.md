# AuxiTalk core: a verified model

AuxiTalk is an event-driven runtime: a bus accepts events, workflow rules turn events into action
requests, a gate decides on each request, allowed or approved actions are executed through plugins,
and the end of an execution is published as an event again. Plugins are child processes that speak
JSON-RPC over lines of text.

This project models that core in Dafny and proves what it promises over every input, every schedule
and every run. `dafny verify dfyconfig.toml` checks all of it.

| file | models | form |
|---|---|---|
| `Cascade.dfy` | the event, rule, action, event cascade as a step system; any goroutine may move at any step, and users, plugins and reloads intervene at any time | steps over an explicit state |
| `Audit.dfy`, `Lineage.dfy` | what every run of the cascade keeps, and where actions come from | invariants and induction over runs |
| `Execution.dfy` | how an execution ends, by the type of its action | functions, and a method proved against them |
| `Ranks.dfy`, `CascadeEnds.dfy` | rankings of actions, and the potential by which cascades under ranked rules end, sessions being created meanwhile | a potential over steps |
| `AnswerGraph.dfy`, `Perpetual.dfy`, `EndsExactly.dfy` | which actions may lead to which, cascades that never end, and exactly when cascades end | a graph of the rules; runs built from it |
| `Engine.dfy`, `Handler.dfy`, `Interleaving.dfy` | the workflow engine's methods, their agreement with the cascade, and what a handler has done when it finishes among others | class, then refinement; induction over runs |
| `Runtime.dfy` | the runtime's entry points over its action store and its bus, each equal to a schedule of the cascade | class, then refinement |
| `Templates.dfy`, `Interpolation.dfy` | string rewriting of placeholders and what it means, on strings and on payload trees | functions, loops, induction |
| `Calls.dfy`, `Lifecycle.dfy` | the JSON-RPC client and the crash, restart and stop machine around it, at the granularity of the lock, against an arbitrary plugin and clock | steps over an explicit state |
| `PluginProcess.dfy` | the plugin process object, each method a schedule of those two machines | class, then refinement |
| `EventBus.dfy`, `Registry.dfy`, `Reload.dfy`, `Actions.dfy`, `Router.dfy`, `Framing.dfy`, `Health.dfy`, `Workflow.dfy` | subscriptions and bounded history, workflow registry and reload, gate and store, capability dispatch, line framing, health counters, rule validation and matching | classes and methods against specification functions |
| `Types.dfy`, `Decimal.dfy`, `Prelude.dfy` | domain types, `%s-%d` identifiers, shared vocabulary | values |

Reading notes.

- A law about actions in `Audit.dfy` holds for every predicate `p` on actions, so it holds per id, per
  risk, per exact action and in total.
- `Tracked` origins, `Cause`, `created` and `trail` are history the code does not keep; they tag the
  events the runtime itself publishes, because a plugin may publish an event of any type.
- `sprint` stands for `fmt.Sprint`, and nothing is assumed about it. The clock, the interpolated payloads
  and the end of an execution are parts of a `Choice`: the clock is not at Go's zero time, the payloads
  are such as the engine may build, and the end is one that the action's type can have (`CanEnd`). Which
  capabilities have an owner, and which replies their plugins may give, is a parameter of a `Setup`.
- A session is looked up by its id when a handler starts, and never changes once it exists; tracking an
  event of an unknown one creates it, at any later moment (`Track`). Nothing is assumed about how soon.
- Of several monitors inside Wait for one process only one comes back, as Go's os/exec delivers the result
  of a command with a context once; a later Wait fails at once, or hangs if another does.
- That a cascade ends means that some number of steps is exceeded by no schedule (`Ends`).
- The code runs handlers of `Publish` in goroutines and waits for them only up to a timeout, so a
  handler is a task of its own that may be overtaken by anything.

Where the code and its documentation differ, the model follows the code:

- `docs/workflow-engine.md:29` speaks of one action request per matching rule; a rule may list several
  actions, and every one of them is requested.
- `docs/architecture/action-gate.md:7` lists denied actions as such; a denied action is nevertheless
  stored, and a later approval executes it, because `ApproveAction` does not look at the old status.
  Approving twice executes twice.
- `docs/workflow-engine.md:30` says requests keep the event's metadata; session, trace and depth are
  carried over, but action.requested, action.approved and action.denied carry neither trace nor depth.

Results that are false of the code in general, with the exact condition under which they hold:

- A cascade need not end: a rule that listens to action.requested of the runtime, or to everything,
  without conditions feeds it for ever (`CascadeUnbounded`). It ends if actions can be ranked so that
  answers to an announcement rank lower (`CascadeBounded`). `CascadesEndExactlyWhenAcyclic` gives the
  exact condition for rules that cannot tell the engine's running ids apart: no action leads back to one
  like itself through announcements and possible ends, within one session.
  `CascadesEndExactlyWhenUnanswered` is its simplest case, and `AcyclicEnds` holds for all rules.
- Interpolation depends on map iteration order when a value spells a placeholder
  (`ValueHypothesisNeeded`) or a placeholder stands in extra braces (`LiteralHypothesisNeeded`), and is
  not idempotent when a value contains its own (`SelfHypothesisNeeded`). `InertExact`,
  `ValueSafeExactly` and `IdempotentExactly` say exactly which texts and values are harmless;
  `InterpolationIsSubstitution` asks it only of values put in before the placeholder is rewritten.
- At most one plugin process is alive only as long as a start does not overlap an outstanding
  monitor (`HarmfulStartDoubles`). `OverlapSafeExactly` says exactly which overlapping starts are
  harmless, one after another.
- A successful stop can be undone without a start, by a monitor in backoff: `StopFinalExactly`.
- A finished call may leave its entry in the pending table (`ALeak`): `LeaksExactly` says exactly which
  entries stay.

## Model

| member | source | states |
|---|---|---|
| `CascadeEnds.CascadeFromEvent` | internal/runtime/runtime.go:285-312 | With rules none of which matches the runtime's announcements and no outside help, the cascade of one accepted event of depth d ends under every schedule, and creates at most B + B^2 + ... + B^(21-d) actions, B being the actions over all rules |
| `CascadeEnds.RankedCascadeFromEvent` | internal/runtime/runtime.go:498-513 | With rules that do listen to announcements, but along a ranking of actions that, whatever sessions are met, falls along every announcement and never rises along an execution, the cascade of one event ends under every schedule, within a bound given by the highest rank the event leads to and its depth, and one step for each session still to be created |
| `CascadeEnds.CascadeBounded` | internal/runtime/runtime.go:515-601 | From any state whose rules are ranked, with any executions and handlers in flight and whatever sessions are created meanwhile, every schedule is finite: a potential bounds the actions it creates, and, with one step more for each session still to be created, its steps |
| `CascadeEnds.ComesToRest` | internal/runtime/runtime.go:515-601 | And some schedule finishes everything that is under way |
| `CascadeEnds.QuietIsRanked` | pkg/types/workflow.go:110-126 | Rules that match no announcement are ranked by a single rank |
| `CascadeEnds.WholeIsPowerSum` | internal/events/bus.go:85-87 | Under a single rank, an action with k generations left is worth exactly B + ... + B^k further actions |
| `Ranks.RequestFalls` | internal/runtime/runtime.go:498-513 | In a ranked rule set, whatever answers the announcement of an action, in any session, ranks strictly below it |
| `Ranks.EndNeverRises` | internal/runtime/runtime.go:582-599 | And whatever answers an end that its execution can have ranks no higher |
| `CascadeEnds.StepPays` | internal/workflows/engine.go:87-124 | Every step of every interleaving lowers the potential, by one step and by the number of actions it creates |
| `CascadeEnds.AdvancePays` | internal/runtime/runtime.go:498-513 | Each goroutine pays for its step and for the goroutines it leaves behind out of its own worth |
| `CascadeEnds.TrackPays` | internal/runtime/runtime.go:396-421 | Creating a session leaves one session less to be created and never raises the potential, although the rules may from then on match otherwise |
| `Execution.Execute` | internal/runtime/runtime.go:515-580 | The outcome of an execution by its action's type and circumstances: a built-in type is simulated unless its time is up; a dotted one succeeds exactly when its plugin, reached by the router, replies; any other fails; the dry-run flag is set exactly for simulated successes, and a success has no error |
| `Execution.SuccessHasAnExecutor` | internal/runtime/runtime.go:526-567 | An execution can only complete if its type is built in, or its prefix owns the capability with a handler that may reply |
| `Execution.EndsByKind` | internal/workflows/executor.go:27-46 | How an execution may end depends on the type alone, for all actions the gate lets through |
| `AnswerGraph.AcyclicPathIsShort` | pkg/types/workflow.go:110-166 | If no action can lead back to one like itself, a chain of answers comes to each kind, risk, source and depth at most once |
| `AnswerGraph.AcyclicIsRanked` | internal/workflows/engine.go:87-124 | Then the longest chain of answers is a ranking of actions |
| `AnswerGraph.AcyclicEnds` | internal/runtime/runtime.go:422-429 | Then every cascade ends, whatever the rules test, whatever sessions its handlers meet and whatever else is in flight |
| `AnswerGraph.NoCycleEnds` | internal/runtime/runtime.go:396-421 | And so it does if there is no way back within one session as it is, or as tracking may create it, although sessions may be created in the middle of the cascade |
| `AnswerGraph.TrackingLowers` | internal/runtime/runtime.go:396-421 | What an action may lead to once a session is created fits into what was set aside for it before |
| `Perpetual.OneRound` | internal/runtime/runtime.go:302-309 | A handler about to answer an event, left alone, creates the action, announces it, and, if needed, executes it to an end that this type of action can have, and where the answer to that is sure in its session another handler becomes ready for the next |
| `Perpetual.CascadeUnbounded` | internal/runtime/runtime.go:498-513 | Once a cascade can enter a cycle of sure answers in its session, any number of actions follows without outside help, each as the engine builds it for an event it matches |
| `EndsExactly.SureCycleNeverEnds` | internal/runtime/runtime.go:422-429 | Every cycle of sure answers within one session, that exists or that tracking can create, has an event from which some schedule goes on for ever |
| `EndsExactly.BlindEdge` | pkg/types/workflow.go:128-166 | A rule that cannot tell apart the ids the engine gives one rule's actions answers all of these of one type, risk, session and depth alike |
| `EndsExactly.CascadesEndExactlyWhenAcyclic` | internal/runtime/runtime.go:422-429 | For rules that cannot tell the engine's ids apart, with any other conditions, in every mode, for any sessions, capabilities and plugins: every cascade ends if and only if no action can lead back to one like itself, through announcements and through ends that executions of its type can have, within one session as it is or as tracking may create it |
| `EndsExactly.NoTestIsBlind` | pkg/types/workflow.go:128-166 | Rules without tests of ids cannot tell them apart |
| `EndsExactly.PrefixTestIsBlind` | pkg/types/workflow.go:150-166 | Nor can rules that only test how an id starts, up to the running number |
| `EndsExactly.CompletionNeedsAnExecutor` | internal/runtime/runtime.go:526-567 | A rule that waits for completed executions answers none of an action whose type is neither built in nor owned by its prefix with a handler that may reply |
| `EndsExactly.QuietUnlessAnswered` | pkg/types/workflow.go:110-126 | Rules without conditions on announcements match none of them exactly when no trigger lets one through by type and source |
| `EndsExactly.CascadesEndExactlyWhenUnanswered` | internal/runtime/runtime.go:422-429 | For rules without conditions on announcements every cascade ends if and only if no enabled rule's trigger covers the runtime's action.requested |
| `EndsExactly.WatchersEnd` | pkg/types/workflow.go:128-166 | In local mode, if texts print as themselves, rules that answer only announcements with status confirmed, by low-risk actions, and no ends of executions, have cascades that end |
| `Audit.RunProvenance` | internal/runtime/runtime.go:302-309 | Over every run and for every set of actions, executions started plus grants still waiting to start equal gate decisions of allowed plus approvals |
| `Audit.RunLaunchesBacked` | internal/runtime/runtime.go:477-486 | At no moment of a run had more executions of any set of actions started than were granted by then |
| `Audit.StepProvenance` | internal/runtime/runtime.go:477-486 | Every step keeps that balance, repeated approvals of one action and requests by plugins included |
| `Audit.RunGateObeyed` | internal/actions/gate.go:23-66 | Over every run, an action the gate let through without approval had dev mode, or local mode and low risk |
| `Audit.ApprovalRequired` | internal/actions/gate.go:44-66 | In strict mode nothing executes without an approval of its own, and in local mode only low-risk actions do, at every moment of every run |
| `Audit.RunAccounted` | internal/runtime/runtime.go:582-599 | Over every run and in every prefix of the accepted log, published executions never outnumber the go-aheads published before them, and the difference is exactly the executions in flight and those dropped |
| `Audit.StepAccounted` | internal/runtime/runtime.go:658-681 | Every step keeps that balance, whoever asked for the action |
| `Audit.RunOnlyDeepDropped` | internal/events/bus.go:84-90 | The only executions missing from the log are those deeper than 20 |
| `Audit.AuditAtRest` | internal/runtime/runtime.go:515-601 | When nothing is in flight, go-aheads equal published executions plus the executions deeper than 20; without such depth they are equal |
| `Cascade.StatusAccepted` | internal/runtime/runtime.go:498-513 | The bus never refuses the runtime's own status events |
| `Cascade.ExecutedAccepted` | internal/runtime/runtime.go:582-599 | The bus refuses the end of an execution exactly when the action is deeper than 20 |
| `Lineage.RunGood` | internal/workflows/engine.go:156-172 | Over every run, every creation inherits from an accepted event logged before it, every logged event of the runtime says what it should, and every action is, but for its status, what it was when it came into being |
| `Lineage.ActionsNeverChange` | internal/actions/store.go:34-44 | Wherever an action is met, stored, queued, announced, executing or reported, it is, but for its status, as the engine created it, a plugin asked for it, or it was restored |
| `Lineage.CreatedIdsDistinct` | internal/workflows/engine.go:156-158 | Over every run of a process, across events, handlers and rules, no two actions the engine creates share an id unless 2^64 numbers lie between them |
| `Lineage.ChainInherits` | internal/runtime/runtime.go:582-588 | In every run of a process, the i-th action of a chain event, action, action.executed, action, ... has the root's depth plus i, the root's trace, or its id when it has none, and the root's session, as created and wherever it is met again: stored, approved later, executing or reported |
| `Lineage.FollowsInherits` | internal/workflows/engine.go:156-172 | One generation is one deeper than the one before, with the same trace and session, and was created after it |
| `Lineage.ChainLength` | internal/events/bus.go:85-87 | In every run of a process no created action is deeper than 21, so no chain is longer than 21 minus its root's depth |
| `Lineage.EveryCreationHasARoot` | internal/workflows/engine.go:87-124 | In every run of a process every created action ends a chain whose root no created action caused |
| `Runtime.Runtime.RequestAction` | internal/runtime/runtime.go:285-312 | The next request of a handler is a schedule of the cascade: the verdict is stored and announced, an allowed action starts to execute, and the handler goes on; only an unknown mode refuses, which ends the handler and changes nothing else |
| `Runtime.CompletedKeepsValid` | internal/runtime/runtime.go:286-297 | Filling in defaults never touches an action that passes validation |
| `Runtime.Runtime.HandleActionRequest` | internal/runtime/runtime.go:641-682 | A plugin's request is a schedule of the cascade: a refused one changes nothing; otherwise the verdict is stored and announced, and an allowed action starts to execute |
| `Runtime.Runtime.ApproveAction` | internal/runtime/runtime.go:477-486 | Approving is a schedule of the cascade: an unknown id changes nothing; a known one is stored as allowed, announced and executed, whatever its status was |
| `Runtime.Runtime.DenyAction` | internal/runtime/runtime.go:488-496 | Denying is a schedule of the cascade: the status is stored and announced, and no execution starts or stops |
| `Runtime.Runtime.FinishExecution` | internal/runtime/runtime.go:569-599 | Ending an execution, in a way its action's type can end, is a schedule of the cascade: only that action's status changes, and the end is published with the action's trace and depth, or lost if that is over 20 |
| `Runtime.Runtime.HandleSessionTracking` | internal/runtime/runtime.go:396-421 | Tracking an event is a schedule of the cascade: an event with a session id not known yet creates its session, active and without metadata, if it can be valid; any other changes nothing that rules read |
| `Runtime.Runtime.Publish` | internal/runtime/runtime.go:88-102 | An accepted event is recorded by the bus and reaches the workflow engine, which listens to everything, exactly once; a refused one leaves no trace |
| `Runtime.Runtime.RecentEvents` | internal/runtime/runtime.go:473-475 | With a positive limit L, the last L of the events restored and then published |
| `Runtime.AnnounceThenGoOn` | internal/runtime/runtime.go:498-513 | Announcing an action, starting it if it goes ahead and going on with the job, done without interruption, is a schedule with exactly that effect on log, trail and tasks |
| `Engine.Engine.HandleEvent` | internal/workflows/engine.go:87-124 | For rules SetRules accepted, a valid event and a mode the gate knows, handling never fails, and returns and sends exactly the actions of the matching rules, in rule order then action order; otherwise it says which error, and sends nothing |
| `Engine.Engine.NewActions` | internal/workflows/engine.go:126-175 | One action per listed action of the rule, numbered on from the counter, with the event's session, trace and depth plus one, and the interpolated payload over the event's coordinates |
| `Engine.Engine.BuildPayload` | internal/workflows/engine.go:136-155 | The payload has exactly the keys of the event's coordinates and of the rule; the rule's interpolated values win |
| `Engine.Engine.Submit` | internal/runtime/runtime.go:285-312 | Requests reach the sink in order up to the first that is invalid or refused, and the error says which; only an unknown mode refuses a valid one |
| `Engine.Engine.HandleRule` | internal/workflows/engine.go:100-121 | A rule that does not match contributes nothing; a matching one exactly its actions |
| `Engine.Engine.SetRules` | internal/workflows/engine.go:48-61 | All or nothing: rules are replaced if and only if every new one is valid |
| `Engine.PlanSound` | internal/workflows/engine.go:100-121 | Everything planned belongs to an installed rule that matches, and is one of its actions |
| `Engine.DraftValid` | pkg/types/action.go:41-65 | An action drafted for a valid rule always passes validation |
| `Engine.ActionIdsDistinct` | internal/workflows/engine.go:156-158 | Ids of one engine collide if and only if rule and 64-bit number agree, even when rule ids contain dashes and digits; numbers less than 2^64 apart never do |
| `Engine.HandledIdsDistinct` | internal/workflows/engine.go:126-175 | The ids handed out for one event differ from each other and from every id drawn before |
| `Decimal.TagInjective` | internal/workflows/engine.go:156-158 | Two `%s-%d` renderings are equal if and only if the prefixes and the printed numbers are |
| `Decimal.DecRoundTrip` | internal/plugins/supervisor/process.go:180 | Reading a printed number back gives the number |
| `Handler.HandlerRequestsWhatTheEngineReturns` | internal/workflows/engine.go:87-124 | Whatever HandleEvent may return for an event and the session found for it, the event's handler in the cascade, left alone, creates, and passes to the gate in the same order, exactly that |
| `Handler.RequestOne` | internal/runtime/runtime.go:285-312 | A queued action that the gate judges leads to its verdict, its announcement in the log and waiting to be handled, and, if allowed, its launch and its execution under way, after which the handler goes on with the rest |
| `Interleaving.FinishedHandlersDidTheirPlan` | internal/workflows/engine.go:87-124 | In every run of a process and every interleaving with other handlers, users, plugins, reloads and session tracking: once an event's handler has finished, the actions created for the event are exactly those that the rules installed when it began ask for, in rule order then action order, each as the engine may build it |
| `Interleaving.RunKeeps` | internal/workflows/engine.go:100-121 | At every moment in between, the actions created so far are the first of these, and the rest are still before the handler |
| `Interleaving.RunSingle` | internal/events/bus.go:92-100 | An accepted event has at most one workflow handler, and nothing is created for it before that handler begins |
| `Templates.RewriteIsFill` | internal/workflows/engine.go:198-213 | Rewriting the placeholders one after the other, each by ReplaceAll, is substituting all known ones at once; unknown ones and literals survive |
| `Templates.RewriteInOrder` | internal/workflows/engine.go:198-213 | The same for one order, if no placeholder can start inside a literal or inside a value put in before it is rewritten |
| `Templates.ReplaceIsFill` | internal/workflows/engine.go:198-203 | One ReplaceAll fills exactly the holes of that name |
| `Templates.OrderIrrelevant` | internal/workflows/engine.go:204-211 | The order in which the placeholders are rewritten does not matter |
| `Templates.RewriteIdempotent` | internal/workflows/engine.go:198-213 | Interpolating the result again changes nothing, when each value either cannot start its own placeholder or is that placeholder |
| `Templates.IdempotentExactly` | internal/workflows/engine.go:198-213 | On all safe templates and in all orders interpolating twice is interpolating once if and only if that holds of every value |
| `Templates.SelfHypothesisNeeded` | internal/workflows/engine.go:198-213 | A value that contains its own placeholder grows every time |
| `Templates.SkipInert` | internal/workflows/engine.go:198-213 | ReplaceAll passes over a text in which the placeholder cannot start, whatever follows it |
| `Templates.InertExact` | internal/workflows/engine.go:198-213 | A text is left alone, whatever follows it and whatever the replacement, if and only if the placeholder cannot start inside it |
| `Templates.ValueSafeExactly` | internal/workflows/engine.go:204-211 | Rewriting one name to a value and then another name is substitution on all templates of safe literals if and only if the other placeholder cannot start inside the value |
| `Templates.PlainIsSafe` | internal/workflows/engine.go:198-213 | Literals and values without `{{` and not ending in `{`, and brace-free names, always meet the condition |
| `Templates.ValueHypothesisNeeded` | internal/workflows/engine.go:204-211 | A value that spells another placeholder gives different results in different orders |
| `Templates.LiteralHypothesisNeeded` | internal/workflows/engine.go:198-213 | A placeholder in extra braces builds a new placeholder out of its value, which substitution would not |
| `Interpolation.InterpolateString` | internal/workflows/engine.go:198-213 | The loops return the result of rewriting by some order of the payload and metadata keys, each key once, under both payload spellings |
| `Interpolation.InterpolationIsSubstitution` | internal/workflows/engine.go:198-213 | Every run returns the simultaneous substitution of what the event and the session define, if no placeholder can start inside a literal, nor inside a value that some run puts in before rewriting that placeholder, or the placeholder stands for itself |
| `Interpolation.PrecedesByPlace` | internal/workflows/engine.go:198-213 | No run rewrites a placeholder before one with an earlier place in the code: event fields, then payload, then session id and state, then metadata |
| `Interpolation.ScheduleEnv` | internal/workflows/engine.go:198-213 | Whatever the iteration order, the placeholders rewritten are exactly those the event and session define, with those values |
| `Interpolation.ScheduleDistinct` | internal/workflows/engine.go:198-213 | No placeholder is rewritten twice, whatever the payload and metadata keys are |
| `Interpolation.Interpolate` | internal/workflows/engine.go:177-196 | The result is a tree of the same shape whose texts are interpolations of the texts, and whose scalars are unchanged |
| `Interpolation.InterpolationDeterministic` | internal/workflows/engine.go:177-196 | On trees of safe templates two runs agree, whatever orders they iterate in |
| `Interpolation.InterpolationIdempotent` | internal/workflows/engine.go:177-196 | On trees of templates that are safe in every order, interpolating twice is interpolating once, when each value either cannot start its own placeholder or is that placeholder |
| `Interpolation.InterpolationKeepsPaths` | internal/workflows/engine.go:177-196 | Every path of maps and lists survives, and the subtree at each path is interpolated independently |
| `Calls.ResponsesMatch` | internal/plugins/supervisor/process.go:292-329 | In every interleaving of calls, timeouts, retries, restarts and late, duplicate, reordered or unsolicited replies, the response an attempt consumes carries that attempt's id and no other attempt's (section 5 of the JSON-RPC 2.0 Specification) |
| `Calls.ChannelsAreLinear` | internal/plugins/supervisor/process.go:322-328 | For every attempt, its table entry, the reader holding its channel and the sends its channel saw number at most one together, so a reader's send never blocks |
| `Calls.HolderFindsRoom` | internal/plugins/supervisor/process.go:326-328 | A reader that holds a channel finds it empty and unused, and its entry gone |
| `Calls.ThreeAttempts` | internal/plugins/supervisor/process.go:204-211 | No call makes more than three attempts |
| `Calls.OnlyLocalFailuresLeak` | internal/plugins/supervisor/process.go:186-199 | A finished attempt leaves an entry behind only if it ended by a marshal, size or write failure |
| `Calls.PendingExactly` | internal/plugins/supervisor/process.go:322-324 | Over every run, an entry is still there if and only if it was there, its attempt has not reached a phase that withdraws it, and no reply with its id has come |
| `Calls.LeaksExactly` | internal/plugins/supervisor/process.go:186-199 | From its registration on, a finished attempt still has its entry if and only if it failed to be marshalled or written and no reply with its id has come since |
| `Calls.ALeak` | internal/plugins/supervisor/process.go:186-199 | It does happen: a run of three steps that leaves an entry behind |
| `Calls.IdsDistinct` | internal/plugins/supervisor/process.go:180 | No two of a process's first 2^64 attempts carry the same id |
| `Calls.RunKeeps` | internal/plugins/supervisor/process.go:174-218 | The invariant behind these holds in every reachable state |
| `Calls.StepKeeps` | internal/plugins/supervisor/process.go:408-412 | Every step keeps it, whoever takes it |
| `Lifecycle.RunBudget` | internal/plugins/supervisor/process.go:354-375 | Under every interleaving, overlapping starts included: the restart count never falls and never exceeds max(0, MaxRestarts); monitors in backoff plus completed relaunches equal it; launches are at most successful starts plus max(0, MaxRestarts) |
| `Lifecycle.RunSole` | internal/plugins/supervisor/process.go:103-167 | In runs without overlapping starts at most one process is alive in every reachable state |
| `Lifecycle.StopStops` | internal/plugins/supervisor/process.go:157-167 | A successful stop leaves the current process cancelled and nothing running, and wakes no monitor |
| `Lifecycle.StopFinalExactly` | internal/plugins/supervisor/process.go:262-272 | Whatever happened before, overlapping starts included: until the next start nothing is launched and nothing counts as running after a successful stop, if and only if no monitor is in backoff |
| `Lifecycle.StopIsFinal` | internal/plugins/supervisor/process.go:354-375 | In runs without overlapping starts every successful stop is final until the next start |
| `Lifecycle.HarmfulStartDoubles` | internal/plugins/supervisor/process.go:368-374 | A start that is not harmless can be followed, without a further start, by two processes at once |
| `Lifecycle.OverlapSafeExactly` | internal/plugins/supervisor/process.go:354-375 | In every state that harmless starts lead to, overlapping ones included, a start that launches is followed by at most one live process, come what may, if and only if no process is alive and no monitor in backoff, none waits or is back from waiting unless the budget is used up, and none is outstanding unless at most one restart is left |
| `Lifecycle.RunCalm` | internal/plugins/supervisor/process.go:354-375 | In every run whose starts are all refused, fail or are harmless, at most one process is alive at any moment |
| `PluginProcess.PluginProcess.CallWithRetry` | internal/plugins/supervisor/process.go:174-218 | A call, with anything happening while it writes, waits, expires and sleeps, is a run of the call machine; it answers with the reply carrying its last attempt's id, or says why not; a timed-out attempt leaves no entry, and the call gives up early only for a caller that has gone |
| `PluginProcess.PluginProcess.AwaitReply` | internal/plugins/supervisor/process.go:201-217 | One wait ends with the reply in the attempt's own channel, or with its entry withdrawn and a retry exactly while attempts and the caller remain |
| `PluginProcess.PluginProcess.Open` | internal/plugins/supervisor/process.go:175-199 | An attempt opens exactly when the process runs, and its request is then written or fails, whatever others do in between |
| `PluginProcess.PluginProcess.BeginAttempt` | internal/plugins/supervisor/process.go:175-184 | Nothing is entered when nothing runs; otherwise a new number, a new empty channel and a new entry under its id, and no other change to the table |
| `PluginProcess.PluginProcess.HandleMessage` | internal/plugins/supervisor/process.go:322-328 | A reply goes to the attempt waiting under its id, whose channel has room, and the entry is gone; any other reply changes nothing |
| `PluginProcess.PluginProcess.DeletePending` | internal/plugins/supervisor/process.go:408-412 | The entry is gone and the attempt retries or gives up |
| `PluginProcess.PluginProcess.Start` | internal/plugins/supervisor/process.go:103-112 | Refused exactly when running; a failed launch changes nothing; otherwise one more process with its reader, running |
| `PluginProcess.PluginProcess.StartLocked` | internal/plugins/supervisor/process.go:114-155 | Launching never asks whether something runs |
| `PluginProcess.PluginProcess.Stop` | internal/plugins/supervisor/process.go:157-167 | Refused exactly when not running; otherwise the current process is cancelled, and if no monitor is in backoff the stop is final until the next start |
| `PluginProcess.PluginProcess.BeginWait` | internal/plugins/supervisor/process.go:354-355 | A monitor calls Wait for whatever process the fields refer to: it waits, beside any others, or fails at once if Wait has returned to another already, or hangs where others do |
| `PluginProcess.PluginProcess.WaitReturns` | internal/plugins/supervisor/process.go:354-355 | Wait returns to one monitor of those inside it for an exited process, and to no other of them ever |
| `PluginProcess.PluginProcess.ProcessEnded` | internal/plugins/supervisor/process.go:357-366 | Nothing runs any more, and a restart is charged exactly when the context in the fields is live and the budget allows |
| `PluginProcess.PluginProcess.RestartAfterBackoff` | internal/plugins/supervisor/process.go:368-374 | The relaunch happens whether or not something runs by then, and gives no budget back |
| `PluginProcess.PluginProcess.Others` | internal/plugins/supervisor/process.go:292-329 | Whatever others do meanwhile is a run of the call machine that leaves a resting attempt's phase and number alone |
| `EventBus.Bus.Subscribe` | internal/events/bus.go:50-72 | A handler gets an id no subscription has had; the live subscriptions grow by exactly that one |
| `EventBus.Bus.Unsubscribe` | internal/events/bus.go:129-142 | Exactly the named subscription ends, if it is live; the index stays free of empty, "" and "*" buckets |
| `EventBus.Subscription.Unsubscribe` | internal/events/bus.go:74-82 | The first call ends the subscription, later calls have no effect |
| `EventBus.Bus.SnapshotHandlers` | internal/events/bus.go:144-162 | Each live subscription to the type or to everything, exactly once, and no other |
| `EventBus.Bus.Publish` | internal/events/bus.go:84-103 | Too deep or invalid events are refused without trace; accepted ones are recorded and go to exactly the subscriptions they concern |
| `EventBus.Bus.RestoreHistory` | internal/events/bus.go:114-127 | Restoring is recording the events one by one from empty |
| `EventBus.Bus.History` | internal/events/bus.go:105-112 | With a positive limit L, exactly the last L events of what was restored and then published; otherwise nothing |
| `EventBus.HistoryIsTail` | internal/events/bus.go:164-176 | After any mix of restores and publishes the kept history is the tail of the unbounded one |
| `EventBus.AddTyped` | internal/events/bus.go:50-72 | Filing a subscription under its type keeps the two-level index in agreement with the flat set of live ones |
| `EventBus.DropTyped` | internal/events/bus.go:129-142 | So does taking one out, together with the bucket it empties |
| `EventBus.AddWild` | internal/events/bus.go:60-63 | So does filing one for everything |
| `EventBus.DropWild` | internal/events/bus.go:133-136 | And taking one for everything out |
| `EventBus.ReverseInPlace` | internal/runtime/runtime.go:163-169 | The two-index swap reverses the rows in place |
| `Registry.Registry.Register` | internal/workflows/registry.go:25-37 | A workflow is accepted if and only if it is valid and its id is new; otherwise nothing changes |
| `Registry.Registry.ListAll` | internal/workflows/registry.go:39-47 | Every registered workflow exactly once |
| `Registry.Registry.CollectRules` | internal/workflows/registry.go:64-72 | As a multiset, exactly the enabled rules of the enabled workflows, all of them valid |
| `Registry.Registry.SetEnabled` | internal/workflows/registry.go:74-84 | Exactly one flag changes, or nothing when the id is unknown |
| `Registry.RulesOfById` | internal/workflows/registry.go:64-72 | A list of workflows and the registry built from it contribute the same rules, with multiplicity |
| `Reload.WorkflowHost.ReloadWorkflows` | internal/runtime/runtime.go:269-283 | All or nothing: it fails exactly on invalid or duplicate workflows or a failing database, and then registry, rules and stored workflows are unchanged; otherwise all three move together, and installing the rules cannot fail |
| `Reload.WorkflowHost.SwitchWorkflow` | internal/runtime/runtime.go:238-268 | Listing, flipping one flag and reloading changes that one flag and nothing else, or nothing at all |
| `Reload.WorkflowHost.Build` | internal/runtime/runtime.go:269-275 | A new registry takes a list in full if and only if all are valid and their ids distinct |
| `Reload.ByIdFlip` | internal/runtime/runtime.go:238-252 | Flipping a flag in the list is flipping it in the registry |
| `Workflow.ValidateFlow` | pkg/types/workflow.go:43-61 | Accepts exactly the workflows with an id and at least one rule, whose rules are all valid with pairwise distinct ids; the error names the first fault |
| `Workflow.ValidateRule` | pkg/types/workflow.go:76-98 | Accepts exactly the rules with an id, an event type and at least one action, whose actions all have a type and a known risk; the error names the first fault |
| `Workflow.CollectEnabled` | pkg/types/workflow.go:63-74 | The enabled rules in order, none when the workflow is disabled |
| `Actions.Store.UpdateStatus` | internal/actions/store.go:34-44 | Only the status of that one action changes, whatever it was; an unknown id changes nothing |
| `Actions.Store.Pending` | internal/actions/store.go:56-66 | Exactly the requested and confirmed actions, each once |
| `Actions.Store.Save` | internal/actions/store.go:21-25 | The action is filed under its own id, replacing what was there |
| `Router.FirstOwnerKeeps` | internal/capabilities/router.go:48-65 | Over every sequence of registrations a capability belongs to the first valid one for it |
| `Router.Router.Register` | internal/capabilities/router.go:36-46 | A manifest's capabilities are registered in order up to the first one taken, and those before it stay |
| `Router.Router.RegisterCapability` | internal/capabilities/router.go:48-65 | Succeeds exactly for a valid manifest and a free capability; otherwise nothing changes |
| `Router.Router.Call` | internal/capabilities/router.go:67-85 | Over every sequence of registrations: only the first plugin to have registered a capability reaches the handler it registered; another is denied, a missing handler or capability is reported as such |
| `Router.Router.Dispatch` | internal/runtime/runtime.go:526-567 | A dotted action type reaches a handler if and only if the text before its first dot was the first to register the text after it, with that handler; built-in types never do |
| `Router.CutExact` | internal/runtime/runtime.go:530-534 | Splitting at the first dot gives (p, c) if and only if the type is p, a dot, c, and p has no dot |
| `Framing.FramingRoundTrip` | internal/rpc/codec.go:89-139 | Successive reads of what was written give exactly the bodies written, none refused, and leave what follows unread |
| `Framing.SameLimit` | internal/rpc/codec.go:115-139 | A body is refused on write exactly when its line would be refused on read at the same limit, and a refused line is consumed whole |
| `Framing.WholeLineExactly` | internal/rpc/codec.go:89-113 | A body comes back as one line if and only if it has no newline |
| `Framing.Codec.WriteJson` | internal/rpc/codec.go:115-139 | Within the limit the body's frame is appended, otherwise nothing is written |
| `Framing.Codec.ReadLine` | internal/rpc/codec.go:89-113 | The first line is taken off the input and returned, or refused when too long |
| `Framing.Codec.constructor` | internal/rpc/codec.go:24-33 | A limit that is not positive becomes one mebibyte |
| `Health.HealthLoop` | internal/runtime/runtime.go:431-463 | For every sequence of checks: between checks no counter reaches 3, and each plugin has one plugin.error per three failures in a row of its own, the sum of length/3 over its maximal failure runs, whatever other plugins did |
| `Health.AlarmsDuePush` | internal/runtime/runtime.go:442-458 | One more outcome is due an alarm exactly when it is the third, sixth, ... failure in a row |

## Left out

- Real time, timeouts and timer ticks: a timeout, a backoff ending or a health tick may happen at any step.
- Operating-system processes, pipes and scanners: exits, replies and failed launches are arbitrary steps.
- JSON encoding and decoding: bodies are byte sequences, decoded payloads are trees whose numbers and nulls are opaque.
- SQLite: kept only as one operation that replaces all workflows or fails and changes nothing. Persisting events, actions and sessions is left out; storage drops depth and trace, so lineage is stated within one process lifetime.
- Merging stored with configured workflows at start-up: the cascade may start from any stored actions and sessions, the registry from any configuration.
- HTTP control server, command line, logger, configuration and manifest files: input and output plumbing.
- Session messages and participants, context builder, `Suggestion`, the fields of `ActionExecution` that no event carries, manifest field validation and the older supervisor skeleton: they would add only easy members. Whether a manifest is valid is a parameter.
- Capabilities registered while a cascade runs: plugins register at start-up only, so the table is fixed. Which replies a plugin may give does not depend on what it is asked; `CascadesEndExactlyWhenAcyclic` speaks of plugins that may give any of them each time.
- Events that plugins' own status and health reports publish: they are outside events to the cascade, which it accepts at any step.
- Codec reads and writes abandoned by context cancellation, and the write lock: framing is stated for completed writes in order.
- Counters: the engine's 64-bit counter wraps in `Tag`, and distinctness is stated for fewer than 2^64 numbers apart; the call machine covers a process's first 2^64 - 1 attempts; the bus's subscription counter and the restart and failure counters are unbounded integers.
- HandleEvent: one session lookup per event, because the source's repeated lookups can differ only when a session is created in between; the cascade's `ScanStep` does look it up again for the payloads of every rule.
- ScanStep: the numbers of one rule's actions are drawn in one step, although another handler could draw numbers in between; `CreatedIdsDistinct` needs only that no number is drawn twice.
- CascadesEndExactlyWhenAcyclic: exact for rules that cannot tell apart the ids of one rule's actions, because these contain a counter that never comes to the same value again, so that a rule that tests the number itself answers some actions and not others like them; `NoCycleEnds` and `SureCycleNeverEnds` hold for every set of rules. Schedules need not be fair: the tracking of a session may be put off for any number of steps.
- CascadesEndExactlyWhenUnanswered: the simplest condition, for rules that attach no conditions to action.requested of the runtime; `CascadesEndExactlyWhenAcyclic` covers rules that do.
- RunSole: for runs without overlapping starts, because the restart after a backoff does not look whether something runs by then; `RunCalm` covers overlapping starts that are harmless, and `OverlapSafeExactly` says which are.
- A goroutine that blocks for ever: in the model every task under way can take its next step.
- RewriteIsFill: the condition `Safe` is sufficient for a whole template; it is exact text by text and value by value (`InertExact`, `ValueSafeExactly`).
- CallWithRetry: other goroutines open attempts only while four numbers are left below 2^64, so that the call's own retries stay below it.
- Health loops of plugin processes: they are ordinary callers of the call machine, and killing a process only makes it exit, which it may do at any step anyway.
