/** The event -> workflow -> action -> event cascade as a step system.

    One step is what the code does between two points where another goroutine may run: building
    one rule's actions, deciding and saving one action, publishing its status, starting its
    execution, finishing it, publishing action.executed, creating a session. The tasks are the goroutines'
    remaining work; a schedule picks any of them at every step, and users, plugins and reloads intervene
    at any time. `Publish` waits for its handlers only up to a timeout, so a handler is a task of
    its own. */
module Cascade {
  import opened Decimal
  import opened Types
  import opened Workflow
  import opened Engine
  import opened Execution
  import opened Actions
  import opened EventBus

  const CORE := "core.runtime"

  /** Where an action came from: outside, as a plugin's completed request or restored from the database,
      or the engine's `index`-th creation. */
  datatype Origin = External(first: Action) | Made(index: nat)

  /** An action together with its origin, which the code does not store. */
  datatype Tracked = Tracked(action: Action, origin: Origin)

  /** What an action's status is published for: the engine's request, a plugin's, or a user's word. */
  datatype Topic = OnRequest | OnAsk | OnApprove | OnDeny

  predicate IsRequest(topic: Topic) {
    topic == OnRequest || topic == OnAsk
  }

  /** Why an event was published: by someone outside, or by the runtime itself. */
  datatype Cause = Outside | StatusOf(topic: Topic, subject: Action) | ExecutionOf(who: Tracked)

  /** An event the bus accepted. */
  datatype Entry = Entry(event: Event, cause: Cause)

  /** An action the engine built, and the position in the log of the event it was built for. */
  datatype Creation = Creation(action: Action, parent: nat)

  /** The rules a handler has not looked at yet. */
  datatype Scan = NoScan | Scan(entry: nat, event: Event, session: Session, rules: seq<Rule>)

  /** The rest of a handler: actions of the current rule still to request, then more rules. */
  datatype Job = Job(scan: Scan, queue: seq<Tracked>)

  datatype Task =
    | Handling(entry: nat, event: Event)
    | Working(job: Job)
    | Announcing(topic: Topic, who: Tracked, job: Job)
    | Launching(who: Tracked, job: Job)
    | Executing(who: Tracked)
    | Reporting(who: Tracked, end: End)

  /** What happened to actions, in order. */
  datatype Mark = Decided(action: Action) | Granted(action: Action) | Launched(action: Action) | Dropped(action: Action)

  /** The sessions there are, by id. */
  type Sessions = map<string, Session>

  datatype Sys = Sys(rules: seq<Rule>, sessions: Sessions, seqNo: nat, store: map<string, Tracked>, tasks: seq<Task>,
                     log: seq<Entry>, created: seq<Creation>, trail: seq<Mark>)

  /** What a task's step does to the rest of the system, and the tasks that replace the task. */
  datatype Effect = Effect(sys: Sys, next: seq<Task>)

  datatype Setup = Setup(mode: Mode, sprint: Value -> string, capabilities: Capabilities)

  /** Everything a step does not determine: the interpolated payloads, the clock, and how an
      execution ends. */
  datatype Choice = Choice(payloads: seq<Payload>, now: nat, end: End)

  datatype Label =
    | Work(i: nat, choice: Choice)
    | Track(entry: nat)
    | Emit(event: Event)
    | Ask(plugin: string, action: Action, now: nat)
    | Approve(id: string)
    | Deny(id: string)
    | Reload(rules: seq<Rule>)

  // ---- Events the runtime publishes ----

  function TopicKind(topic: Topic): string {
    match topic
    case OnRequest => "action.requested"
    case OnAsk => "action.requested"
    case OnApprove => "action.approved"
    case OnDeny => "action.denied"
  }

  function RiskText(r: Risk): string {
    match r
    case Low => "low"
    case Medium => "medium"
    case High => "high"
    case UnknownRisk(text) => text
  }

  function StatusText(s: Status): string {
    match s
    case Requested => "requested"
    case Allowed => "allowed"
    case Confirmed => "confirmed"
    case Denied => "denied"
    case Executed => "executed"
    case Failed => "failed"
    case UnknownStatus(text) => text
  }

  /** `publishActionStatus`, and what a plugin's request publishes: no trace and depth 0. */
  function StatusEvent(topic: Topic, a: Action, now: nat): Event {
    Event(Tag(if topic == OnAsk then a.id + "-event" else TopicKind(topic), now), TopicKind(topic), CORE,
          a.sessionId, "", 0,
          map["id" := Text(a.id), "type" := Text(a.kind), "risk" := Text(RiskText(a.risk)),
              "status" := Text(StatusText(a.status)), "source" := Text(a.source)], now)
  }

  /** The event an execution ends with: the action's own trace and depth. */
  function ExecutedEvent(a: Action, end: End, now: nat): Event {
    Event(Tag("action.executed", now), "action.executed", CORE, a.sessionId, a.traceId, a.depth,
          map["actionId" := Text(a.id), "actionType" := Text(a.kind), "actionSource" := Text(a.source),
              "status" := Text(if end.failed then "failed" else "completed"),
              "error" := Text(end.error), "result" := Object(end.result), "dryRun" := Flag(end.dryRun)], now)
  }

  lemma StatusAccepted(topic: Topic, a: Action, now: nat)
    requires now != 0
    ensures Accepts(StatusEvent(topic, a, now))
  {
    var e := StatusEvent(topic, a, now);
    var prefix := if topic == OnAsk then a.id + "-event" else TopicKind(topic);
    assert e.id[|prefix|] == '-' && e.kind[0] == 'a' && e.source[0] == 'c';
  }

  /** The runtime's own events are dropped for one reason only. */
  lemma ExecutedAccepted(a: Action, end: End, now: nat)
    requires now != 0
    ensures Accepts(ExecutedEvent(a, end, now)) <==> a.depth <= MAX_DEPTH
  {
    var e := ExecutedEvent(a, end, now);
    assert e.id[0] == 'a' && e.kind[0] == 'a' && e.source[0] == 'c';
  }

  // ---- Sessions ----

  const NO_SESSION := Session("", "", "", map[])

  /** The session a handler finds for an id. */
  function Found(sessions: Sessions, id: string): Session {
    if id != "" && id in sessions then sessions[id] else NO_SESSION
  }

  /** `handleSessionTracking` for an event of a session not known yet. */
  function NewSession(e: Event): Session {
    Session(e.sessionId, e.source, "active", map[])
  }

  predicate Trackable(sessions: Sessions, e: Event) {
    e.sessionId !in sessions && ValidSession(NewSession(e))
  }

  /** A session that exists never changes again, in any field that rules and templates read. */
  function Noted(sessions: Sessions, e: Event): Sessions {
    if Trackable(sessions, e) then sessions[e.sessionId := NewSession(e)] else sessions
  }

  /** Sessions are filed under their ids. */
  ghost predicate Proper(sessions: Sessions) {
    forall id :: id in sessions ==> sessions[id].id == id && ValidSession(sessions[id])
  }

  // ---- Steps ----

  const NO_JOB := Job(NoScan, [])

  /** Publishing: an accepted event is logged and its workflow handler starts. */
  function Logged(s: Sys, e: Event, cause: Cause): seq<Entry> {
    if Accepts(e) then s.log + [Entry(e, cause)] else s.log
  }

  function Heard(s: Sys, e: Event): seq<Task> {
    if Accepts(e) then [Handling(|s.log|, e)] else []
  }

  /** An approved action executes whatever the gate had said; a requested one if it is allowed. */
  predicate Proceeds(topic: Topic, a: Action) {
    topic == OnApprove || (IsRequest(topic) && a.status == Allowed)
  }

  function EndStatus(failed: bool): Status {
    if failed then Failed else Executed
  }

  function WithStatus(t: Tracked, status: Status): Tracked {
    t.(action := t.action.(status := status))
  }

  /** The actions one matching rule yields, numbered on from `seqNo`. */
  function MadeActions(r: Rule, e: Event, seqNo: nat, c: Choice): (made: seq<Action>)
    ensures |made| == |GetActions(r)|
  {
    seq(|GetActions(r)|, j requires 0 <= j < |GetActions(r)| =>
      Draft(Item(r, GetActions(r)[j]), e, seqNo + j + 1, if j < |c.payloads| then c.payloads[j] else map[], c.now))
  }

  function Creations(made: seq<Action>, parent: nat): (cs: seq<Creation>)
    ensures |cs| == |made|
  {
    seq(|made|, j requires 0 <= j < |made| => Creation(made[j], parent))
  }

  function Queue(made: seq<Action>, first: nat): (q: seq<Tracked>)
    ensures |q| == |made|
  {
    seq(|made|, j requires 0 <= j < |made| => Tracked(made[j], Made(first + j)))
  }

  /** Handlers scan rules; a plugin's request does not. */
  function RequestTopic(job: Job): Topic {
    if job.scan.Scan? then OnRequest else OnAsk
  }

  function RequestStep(setup: Setup, s: Sys, job: Job): Effect
    requires job.queue != []
  {
    var rest := job.(queue := job.queue[1..]);
    match Decide(setup.mode, job.queue[0].action)
    case Refused => Effect(s, [])
    case Verdict(status) =>
      var t := WithStatus(job.queue[0], status);
      Effect(s.(store := s.store[t.action.id := t], trail := s.trail + [Decided(t.action)]),
       [Announcing(RequestTopic(job), t, rest)])
  }

  function ScanStep(setup: Setup, s: Sys, scan: Scan, c: Choice): Effect
    requires scan.Scan? && scan.rules != []
  {
    var r, rest := scan.rules[0], scan.(rules := scan.rules[1..]);
    if Matches(r, scan.event, scan.session, setup.sprint) then
      var made := MadeActions(r, scan.event, s.seqNo, c);
      Effect(s.(seqNo := s.seqNo + |made|, created := s.created + Creations(made, scan.entry)),
       [Working(Job(rest, Queue(made, |s.created|)))])
    else Effect(s, [Working(Job(rest, []))])
  }

  /** The effect of one task's next step, and the tasks that replace it. */
  function Advance(setup: Setup, s: Sys, t: Task, c: Choice): Effect {
    match t
    case Handling(entry, e) =>
      Effect(s, [Working(Job(Scan(entry, e, Found(s.sessions, e.sessionId), s.rules), []))])
    case Working(job) =>
      if job.queue != [] then RequestStep(setup, s, job)
      else if job.scan.Scan? && job.scan.rules != [] then ScanStep(setup, s, job.scan, c)
      else Effect(s, [])
    case Announcing(topic, who, job) =>
      var e := StatusEvent(topic, who.action, c.now);
      Effect(s.(log := Logged(s, e, StatusOf(topic, who.action))),
       (if Proceeds(topic, who.action) then [Launching(who, job)] else [Working(job)]) + Heard(s, e))
    case Launching(who, job) =>
      Effect(s.(trail := s.trail + [Launched(who.action)]), [Executing(who), Working(job)])
    case Executing(who) =>
      var id := who.action.id;
      Effect(if id in s.store then s.(store := s.store[id := WithStatus(s.store[id], EndStatus(c.end.failed))]) else s,
       [Reporting(who, c.end)])
    case Reporting(who, end) =>
      var e := ExecutedEvent(who.action, end, c.now);
      Effect(s.(log := Logged(s, e, ExecutionOf(who)),
          trail := if Accepts(e) then s.trail else s.trail + [Dropped(who.action)]),
       Heard(s, e))
  }

  /** The defaults a plugin's action request is completed with. */
  function Completed(plugin: string, a: Action, now: nat): Action {
    var b := a.(source := if a.source == "" then plugin else a.source,
                id := if a.id == "" then Tag(plugin + "-action", now) else a.id);
    b.(status := if b.status == UnknownStatus("") then Requested else b.status,
       createdAt := if b.createdAt == 0 then now else b.createdAt)
  }

  function Asked(plugin: string, a: Action, now: nat): Tracked {
    Tracked(Completed(plugin, a, now), External(Completed(plugin, a, now)))
  }

  function Replace(s: Sys, i: nat, e: Effect): Sys
    requires i < |s.tasks|
  {
    e.sys.(tasks := s.tasks[..i] + e.next + s.tasks[i + 1..])
  }

  lemma ReplacedAt(s: Sys, i: nat, e: Effect, k: nat)
    requires i < |s.tasks| && k < |e.next|
    ensures Replace(s, i, e).tasks[i + k] == e.next[k]
  {
  }

  /** The payloads are what the engine may build for a matching rule; the session is looked up anew. */
  ghost predicate Interpolated(setup: Setup, s: Sys, scan: Scan, c: Choice)
    requires scan.Scan? && scan.rules != []
  {
    Matches(scan.rules[0], scan.event, scan.session, setup.sprint) ==>
      PayloadsFor(c.payloads, scan.rules[0], scan.event, Found(s.sessions, scan.event.sessionId), setup.sprint)
  }

  ghost predicate PayloadsFor(payloads: seq<Payload>, r: Rule, e: Event, session: Session, sprint: Value -> string) {
    && |payloads| == |GetActions(r)|
    && forall j :: 0 <= j < |payloads| ==> PayloadFor(payloads[j], Item(r, GetActions(r)[j]), e, session, sprint)
  }

  /** What a task's next step may choose. */
  ghost predicate Allows(setup: Setup, s: Sys, t: Task, c: Choice) {
    match t
    case Working(job) =>
      job.queue == [] && job.scan.Scan? && job.scan.rules != [] ==> Interpolated(setup, s, job.scan, c)
    case Executing(who) => CanEnd(setup.capabilities, who.action, c.end)
    case _ => true
  }

  ghost predicate Enabled(setup: Setup, s: Sys, l: Label) {
    match l
    case Work(i, c) => i < |s.tasks| && c.now != 0 && Allows(setup, s, s.tasks[i], c)
    case Track(entry) => entry < |s.log| && Trackable(s.sessions, s.log[entry].event)
    case Emit(_) => true
    case Ask(_, _, now) => now != 0
    case Approve(_) => true
    case Deny(_) => true
    case Reload(rules) => ValidRules(rules)
  }

  function Settle(s: Sys, id: string, status: Status, topic: Topic): Sys {
    if id !in s.store then s
    else
      var t := WithStatus(s.store[id], status);
      s.(store := s.store[id := t],
         tasks := s.tasks + [Announcing(topic, t, NO_JOB)],
         trail := if topic == OnApprove then s.trail + [Granted(t.action)] else s.trail)
  }

  function Apply(setup: Setup, s: Sys, l: Label): Sys
    requires Enabled(setup, s, l)
  {
    match l
    case Work(i, c) => Replace(s, i, Advance(setup, s, s.tasks[i], c))
    case Track(entry) => s.(sessions := Noted(s.sessions, s.log[entry].event))
    case Emit(e) => s.(log := Logged(s, e, Outside), tasks := s.tasks + Heard(s, e))
    case Ask(plugin, a, now) =>
      s.(tasks := s.tasks + [Working(Job(NoScan, [Asked(plugin, a, now)]))])
    case Approve(id) => Settle(s, id, Allowed, OnApprove)
    case Deny(id) => Settle(s, id, Denied, OnDeny)
    case Reload(rules) => s.(rules := rules)
  }

  // ---- Runs ----

  ghost predicate CanRun(setup: Setup, s: Sys, labels: seq<Label>)
    decreases labels
  {
    labels == [] || (Enabled(setup, s, labels[0]) && CanRun(setup, Apply(setup, s, labels[0]), labels[1..]))
  }

  ghost function Run(setup: Setup, s: Sys, labels: seq<Label>): Sys
    requires CanRun(setup, s, labels)
    decreases labels
  {
    if labels == [] then s else Run(setup, Apply(setup, s, labels[0]), labels[1..])
  }

  /** A run without users, plugins or reloads. */
  ghost predicate Internal(labels: seq<Label>) {
    forall i :: 0 <= i < |labels| ==> labels[i].Work? || labels[i].Track?
  }

  /** A freshly started process; it may have restored actions and sessions from the database. */
  ghost predicate Init(s: Sys) {
    && ValidRules(s.rules) && Proper(s.sessions) && s.tasks == [] && s.log == [] && s.created == [] && s.trail == []
    && forall id :: id in s.store ==> s.store[id].origin == External(s.store[id].action) && s.store[id].action.id == id
  }

  lemma {:induction false} RunConcat(setup: Setup, s: Sys, ls: seq<Label>, ms: seq<Label>)
    requires CanRun(setup, s, ls) && CanRun(setup, Run(setup, s, ls), ms)
    ensures CanRun(setup, s, ls + ms) && Run(setup, s, ls + ms) == Run(setup, Run(setup, s, ls), ms)
    decreases ls
  {
    hide Enabled, Apply;
    if ls == [] {
      assert ls + ms == ms;
    } else {
      assert (ls + ms)[0] == ls[0] && (ls + ms)[1..] == ls[1..] + ms;
      RunConcat(setup, Apply(setup, s, ls[0]), ls[1..], ms);
    }
  }

  /** A choice that only reads the clock. */
  function Pick(now: nat): Choice {
    Choice([], now, Failure(""))
  }

  /** Every task can take its next step. */
  ghost function SomeChoice(setup: Setup, s: Sys, t: Task): (c: Choice)
    ensures Allows(setup, s, t, c) && c.now != 0
  {
    match t
    case Working(job) =>
      if job.queue == [] && job.scan.Scan? && job.scan.rules != [] then
        Pick(1).(payloads := SomePayloads(job.scan.rules[0], job.scan.event,
                                          Found(s.sessions, job.scan.event.sessionId), setup.sprint))
      else Pick(1)
    case Executing(who) => Pick(1).(end := Breakdown(setup.capabilities, who.action))
    case _ => Pick(1)
  }

  ghost function SomePayloads(r: Rule, e: Event, session: Session, sprint: Value -> string): (payloads: seq<Payload>)
    ensures PayloadsFor(payloads, r, e, session, sprint)
  {
    seq(|GetActions(r)|, j requires 0 <= j < |GetActions(r)| => APayload(Item(r, GetActions(r)[j]), e, session, sprint))
  }

  lemma NothingRun(setup: Setup, s: Sys)
    ensures CanRun(setup, s, []) && Run(setup, s, []) == s
  {
  }

  lemma RunOne(setup: Setup, s: Sys, l: Label)
    requires Enabled(setup, s, l)
    ensures CanRun(setup, s, [l]) && Run(setup, s, [l]) == Apply(setup, s, l)
  {
    assert [l][1..] == [];
    assert CanRun(setup, Apply(setup, s, l), [l][1..]);
  }
}
