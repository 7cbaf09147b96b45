/** The runtime's entry points of internal/runtime/runtime.go, run without interruption. Each of
    them is one of the schedules of the cascade. */
module Runtime {
  import opened Prelude
  import opened Types
  import opened Workflow
  import opened Engine
  import opened Execution
  import opened Actions
  import opened Cascade
  import opened EventBus

  /** Who listens to the bus on the runtime's behalf. */
  datatype Listener = Persistence | WorkflowEngine | SessionTracking

  /** The workflow engine listens to everything, once. */
  ghost predicate Subscribed(live: map<nat, Interest<Listener>>) {
    exists id :: OnlySubscription(live, id)
  }

  ghost predicate OnlySubscription(live: map<nat, Interest<Listener>>, id: nat) {
    && id in live && live[id] == Interest(ANY, WorkflowEngine)
    && forall j :: j in live && live[j].handler == WorkflowEngine ==> j == id
  }

  /** The handlers of an event that the cascade follows. */
  function Handlings(handlers: seq<Listener>, entry: nat, e: Event): seq<Task> {
    if handlers == [] then []
    else (if handlers[0] == WorkflowEngine then [Handling(entry, e)] else []) + Handlings(handlers[1..], entry, e)
  }

  lemma {:induction false} NoHandlings(handlers: seq<Listener>, entry: nat, e: Event)
    requires WorkflowEngine !in handlers
    ensures Handlings(handlers, entry, e) == []
  {
    if handlers != [] { NoHandlings(handlers[1..], entry, e); }
  }

  lemma {:induction false} OneHandling(handlers: seq<Listener>, i: nat, entry: nat, e: Event)
    requires OnlyAt(handlers, i)
    ensures Handlings(handlers, entry, e) == [Handling(entry, e)]
  {
    if i == 0 {
      assert forall j :: 0 <= j < |handlers| - 1 ==> handlers[1..][j] == handlers[j + 1];
      NoHandlings(handlers[1..], entry, e);
    } else {
      OneHandling(handlers[1..], i - 1, entry, e);
    }
  }

  ghost predicate OnlyAt(handlers: seq<Listener>, i: int) {
    && 0 <= i < |handlers| && handlers[i] == WorkflowEngine
    && forall j :: 0 <= j < |handlers| && j != i ==> handlers[j] != WorkflowEngine
  }

  lemma OneInAudience(live: map<nat, Interest<Listener>>, handlers: seq<Listener>, ids: seq<nat>, kind: string)
    requires Subscribed(live) && |ids| == |handlers| && Distinct(ids)
    requires forall id :: id in ids <==> id in live && Concerns(live[id], kind)
    requires forall i :: 0 <= i < |ids| ==> handlers[i] == live[ids[i]].handler
    ensures exists i :: OnlyAt(handlers, i)
  {
    var id :| OnlySubscription(live, id);
    assert id in ids;
    var i :| 0 <= i < |ids| && ids[i] == id;
    forall j | 0 <= j < |handlers| && j != i ensures handlers[j] != WorkflowEngine {
      assert ids[j] in ids;
      if i < j { assert ids[i] != ids[j]; } else { assert ids[j] != ids[i]; }
    }
    assert OnlyAt(handlers, i);
  }

  lemma RecordOne(prior: seq<Change>, log: seq<Entry>, entry: Entry)
    ensures prior + Recordings(log + [entry]) == prior + Recordings(log) + [Recorded(entry.event)]
  {
    assert Recordings(log + [entry]) == Recordings(log) + [Recorded(entry.event)];
  }

  /** What logged events do to the bus's history. */
  function Recordings(log: seq<Entry>): (changes: seq<Change>)
    ensures |changes| == |log|
  {
    seq(|log|, i requires 0 <= i < |log| => Recorded(log[i].event))
  }

  function EventsOf(log: seq<Entry>): (events: seq<Event>)
    ensures |events| == |log|
  {
    seq(|log|, i requires 0 <= i < |log| => log[i].event)
  }

  lemma {:induction false} FullHistoryOf(prior: seq<Change>, log: seq<Entry>)
    ensures FullHistory(prior + Recordings(log)) == FullHistory(prior) + EventsOf(log)
  {
    hide FullHistory;
    if log == [] {
      assert prior + Recordings(log) == prior && FullHistory(prior) + EventsOf(log) == FullHistory(prior);
    } else {
      var n := |log| - 1;
      FullHistoryOf(prior, log[..n]);
      assert log == log[..n] + [log[n]];
      RecordOne(prior, log[..n], log[n]);
      HistoryPush(prior + Recordings(log[..n]), log[n].event);
      assert EventsOf(log) == EventsOf(log[..n]) + [log[n].event];
    }
  }

  lemma HistoryPush(changes: seq<Change>, e: Event)
    ensures FullHistory(changes + [Recorded(e)]) == FullHistory(changes) + [e]
  {
    assert (changes + [Recorded(e)])[..|changes|] == changes;
  }

  /** The runtime with its action store and its bus. The goroutines under way and what has happened so
      far are ghost. */
  class Runtime {
    const setup: Setup
    const actions: Store
    const bus: Bus<Listener>
    /** What had happened to the bus's history before this runtime published anything. */
    ghost const prior: seq<Change>
    ghost var rules: seq<Rule>
    var sessions: Sessions
    ghost var seqNo: nat
    ghost var store: map<string, Tracked>
    ghost var tasks: seq<Task>
    ghost var log: seq<Entry>
    ghost var created: seq<Creation>
    ghost var trail: seq<Mark>

    ghost function Model(): Sys
      reads this
    {
      Sys(rules, sessions, seqNo, store, tasks, log, created, trail)
    }

    /** The store holds the cascade's actions. */
    ghost predicate StoreOk()
      reads `store, actions
    {
      && actions.Valid() && actions.actions.Keys == store.Keys
      && forall id :: id in store ==> actions.actions[id] == store[id].action
    }

    /** The bus has recorded exactly the cascade's log, and the workflow engine listens. */
    ghost predicate BusOk()
      reads `log, bus
    {
      bus.Valid() && Subscribed(bus.live) && bus.changes == prior + Recordings(log)
    }

    ghost predicate Valid()
      reads this, actions, bus
    {
      StoreOk() && BusOk() && Proper(sessions)
    }

    constructor (setup: Setup, rules: seq<Rule>, sessions: Sessions, actions: Store, bus: Bus<Listener>)
      requires ValidRules(rules) && Proper(sessions) && actions.Valid() && bus.Valid() && Subscribed(bus.live)
      ensures Valid() && Init(Model()) && this.setup == setup && this.actions == actions && this.bus == bus
      ensures this.sessions == sessions
      ensures store == map id | id in actions.actions :: Tracked(actions.actions[id], External(actions.actions[id]))
    {
      this.setup, this.actions, this.bus, this.rules, this.sessions := setup, actions, bus, rules, sessions;
      prior := bus.changes;
      seqNo, tasks, log, created, trail := 0, [], [], [], [];
      store := map id | id in actions.actions :: Tracked(actions.actions[id], External(actions.actions[id]));
    }

    /** Accepted events are recorded and reach the workflow engine once; refused ones leave no trace. */
    method Publish(e: Event, ghost cause: Cause) returns (ok: bool, ghost handlers: seq<Task>)
      requires BusOk()
      modifies `log, bus`history, bus`changes
      ensures BusOk() && ok == Accepts(e)
      ensures log == Logged(old(Model()), e, cause)
      ensures handlers == Heard(old(Model()), e)
    {
      hide Accepts, Subscribed, Agrees, KeptHistory, Recordings;
      var audience;
      ok, audience := bus.Publish(e);
      if !ok { return false, []; }
      handlers := Handlings(audience, |log|, e);
      HeardOnce(audience, |log|, e);
      RecordOne(prior, log, Entry(e, cause));
      log := log + [Entry(e, cause)];
    }

    lemma HeardOnce(audience: seq<Listener>, entry: nat, e: Event)
      requires Subscribed(bus.live) && bus.Audience(audience, e.kind)
      ensures Handlings(audience, entry, e) == [Handling(entry, e)]
    {
      hide Handlings, Accepts, Distinct;
      var ids: seq<nat> :| |ids| == |audience| && Distinct(ids)
        && (forall id :: id in ids <==> id in bus.live && Concerns(bus.live[id], e.kind))
        && forall i :: 0 <= i < |ids| ==> audience[i] == bus.live[ids[i]].handler;
      OneInAudience(bus.live, audience, ids, e.kind);
      var i :| OnlyAt(audience, i);
      OneHandling(audience, i, entry, e);
    }

    /** A new or changed action is stored. */
    method Keep(b: Action, ghost t: Tracked)
      requires StoreOk() && t.action == b
      modifies `store, actions
      ensures StoreOk() && store == old(store)[b.id := t]
    {
      actions.Save(b);
      store := store[b.id := t];
    }

    /** Only the status of a stored action changes. */
    method UpdateStatus(id: string, status: Status) returns (updated: Option<Action>)
      requires StoreOk()
      modifies `store, actions
      ensures StoreOk()
      ensures id !in old(store) ==> updated == None && store == old(store)
      ensures id in old(store) ==>
                && updated == Some(WithStatus(old(store)[id], status).action)
                && store == old(store)[id := WithStatus(old(store)[id], status)]
    {
      updated := actions.UpdateStatus(id, status);
      if updated.Some? { store := store[id := WithStatus(store[id], status)]; }
    }

    /** The engine's sink, called by handler `i` with its next action, which it has validated: the
        gate's verdict is stored, announced, and, if it is allowed, executed, and the handler goes on;
        a refusal, which only an unknown mode can cause, ends the handler and changes nothing else. */
    method RequestAction(a: Action, ghost i: nat, now: nat) returns (ok: bool, ghost labels: seq<Label>)
      requires Valid() && now != 0
      requires i < |tasks| && tasks[i].Working? && tasks[i].job.scan.Scan? && tasks[i].job.queue != []
      requires a == tasks[i].job.queue[0].action && ValidAction(a)
      modifies this, actions, bus`history, bus`changes
      ensures Valid() && CanRun(setup, old(Model()), labels) && Model() == Run(setup, old(Model()), labels)
      ensures ok <==> !setup.mode.UnknownMode?
      ensures !ok ==> Model() == old(Model()).(tasks := old(tasks)[..i] + old(tasks)[i + 1..])
      ensures ok ==>
                var rest := old(tasks)[i].job.(queue := old(tasks)[i].job.queue[1..]);
                var t := WithStatus(old(tasks)[i].job.queue[0], Decide(setup.mode, a).status);
                var e := StatusEvent(OnRequest, t.action, now);
                && store == old(store)[a.id := t]
                && log == old(log) + [Entry(e, StatusOf(OnRequest, t.action))]
                && trail == old(trail) + [Decided(t.action)]
                            + (if t.action.status == Allowed then [Launched(t.action)] else [])
                && tasks == old(tasks)[..i] + (if t.action.status == Allowed then [Executing(t)] else [])
                            + [Working(rest), Handling(|old(log)|, e)] + old(tasks)[i + 1..]
    {
      hide CanRun, Run, StatusEvent, Accepts, StoreOk, BusOk;
      labels := SubmitSchedule(setup, Model(), i, now);
      ghost var job := tasks[i].job;
      CompletedKeepsValid("workflow", a, now);
      var completed := Completed("workflow", a, now);
      hide Completed, Decide, Proceeds;
      var d := Decide(setup.mode, completed);
      if d.Refused? {
        tasks := tasks[..i] + tasks[i + 1..];
        return false, labels;
      }
      var b := completed.(status := d.status);
      ghost var t := WithStatus(job.queue[0], d.status);
      Keep(b, t);
      trail := trail + [Decided(b)];
      StatusAccepted(OnRequest, b, now);
      ghost var h, handlers := Handling(|log|, StatusEvent(OnRequest, b, now)), [];
      var published;
      published, handlers := Publish(StatusEvent(OnRequest, b, now), StatusOf(OnRequest, b));
      assert handlers == [h];
      ghost var started: seq<Task> := [];
      if b.status == Allowed {
        trail := trail + [Launched(b)];
        started := [Executing(t)];
      }
      tasks := tasks[..i] + started + ([Working(job.(queue := job.queue[1..]))] + handlers) + tasks[i + 1..];
      assert [Working(job.(queue := job.queue[1..]))] + handlers == [Working(job.(queue := job.queue[1..])), h];
      return true, labels;
    }

    /** A plugin asks for an action: the gate's verdict is recorded, announced, and, if it is
        allowed, executed; a refused request changes nothing. */
    method HandleActionRequest(plugin: string, a: Action, now: nat)
      returns (reply: Option<Action>, ghost labels: seq<Label>)
      requires Valid() && now != 0
      modifies this, actions, bus`history, bus`changes
      ensures Valid() && CanRun(setup, old(Model()), labels) && Model() == Run(setup, old(Model()), labels)
      ensures var d := Decide(setup.mode, Completed(plugin, a, now));
              if d.Refused? then reply == None && Model() == old(Model())
              else
                var t := WithStatus(Asked(plugin, a, now), d.status);
                var e := StatusEvent(OnAsk, t.action, now);
                && reply == Some(t.action)
                && store == old(store)[t.action.id := t]
                && log == old(log) + [Entry(e, StatusOf(OnAsk, t.action))]
                && trail == old(trail) + [Decided(t.action)]
                    + (if d.status == Allowed then [Launched(t.action)] else [])
                && tasks == old(tasks) + (if d.status == Allowed then [Executing(t)] else [])
                    + [Handling(|old(log)|, e)]
    {
      hide CanRun, Run, StatusEvent, Accepts, Completed, StoreOk, BusOk;
      labels := RequestSchedule(setup, Model(), plugin, a, now);
      var completed := Completed(plugin, a, now);
      var d := Decide(setup.mode, completed);
      if d.Refused? { return None, labels; }
      var b := completed.(status := d.status);
      ghost var t, handlers := WithStatus(Asked(plugin, a, now), d.status), [];
      Keep(b, t);
      trail := trail + [Decided(b)];
      StatusAccepted(OnAsk, b, now);
      var published;
      published, handlers := Publish(StatusEvent(OnAsk, b, now), StatusOf(OnAsk, b));
      if b.status == Allowed {
        trail := trail + [Launched(b)];
        tasks := tasks + [Executing(t)];
      }
      tasks := tasks + handlers;
      return Some(b), labels;
    }

    /** Approving executes the stored action whatever its status was; approving twice executes twice. */
    method ApproveAction(id: string, now: nat) returns (reply: Option<Action>, ghost labels: seq<Label>)
      requires Valid() && now != 0
      modifies this, actions, bus`history, bus`changes
      ensures Valid() && CanRun(setup, old(Model()), labels) && Model() == Run(setup, old(Model()), labels)
      ensures id !in old(store) ==> reply == None && Model() == old(Model())
      ensures id in old(store) ==>
                var t := WithStatus(old(store)[id], Allowed);
                var e := StatusEvent(OnApprove, t.action, now);
                && reply == Some(t.action)
                && store == old(store)[id := t]
                && log == old(log) + [Entry(e, StatusOf(OnApprove, t.action))]
                && trail == old(trail) + [Granted(t.action)] + [Launched(t.action)]
                && tasks == old(tasks) + [Executing(t)] + [Handling(|old(log)|, e)]
    {
      hide CanRun, Run, StatusEvent, Accepts, StoreOk, BusOk, Proper;
      labels := ApproveSchedule(setup, Model(), id, now);
      var updated := UpdateStatus(id, Allowed);
      if updated.None? { return None, labels; }
      ghost var t, handlers := store[id], [];
      var b := updated.value;
      trail := trail + [Granted(b)];
      StatusAccepted(OnApprove, b, now);
      var published;
      published, handlers := Publish(StatusEvent(OnApprove, b, now), StatusOf(OnApprove, b));
      trail := trail + [Launched(b)];
      tasks := tasks + [Executing(t)] + handlers;
      return Some(b), labels;
    }

    /** Denying records and announces; executions already started go on. */
    method DenyAction(id: string, now: nat) returns (reply: Option<Action>, ghost labels: seq<Label>)
      requires Valid() && now != 0
      modifies this, actions, bus`history, bus`changes
      ensures Valid() && CanRun(setup, old(Model()), labels) && Model() == Run(setup, old(Model()), labels)
      ensures id !in old(store) ==> reply == None && Model() == old(Model())
      ensures id in old(store) ==>
                var t := WithStatus(old(store)[id], Denied);
                var e := StatusEvent(OnDeny, t.action, now);
                && reply == Some(t.action)
                && store == old(store)[id := t]
                && log == old(log) + [Entry(e, StatusOf(OnDeny, t.action))]
                && trail == old(trail)
                && tasks == old(tasks) + [Handling(|old(log)|, e)]
    {
      hide CanRun, Run, StatusEvent, Accepts, StoreOk, BusOk;
      labels := DenySchedule(setup, Model(), id, now);
      var updated := UpdateStatus(id, Denied);
      if updated.None? { return None, labels; }
      ghost var t, handlers := store[id], [];
      var b := updated.value;
      StatusAccepted(OnDeny, b, now);
      var published;
      published, handlers := Publish(StatusEvent(OnDeny, b, now), StatusOf(OnDeny, b));
      tasks := tasks + handlers;
      return Some(b), labels;
    }

    /** The end of an execution: the outcome is stored, then action.executed is published with the
        action's own trace and depth, and lost if that depth exceeds 20. */
    method FinishExecution(a: Action, ghost i: nat, end: End, now: nat) returns (ghost labels: seq<Label>)
      requires Valid() && now != 0 && CanEnd(setup.capabilities, a, end)
      requires i < |tasks| && tasks[i].Executing? && a == tasks[i].who.action
      modifies this, actions, bus`history, bus`changes
      ensures Valid() && CanRun(setup, old(Model()), labels) && Model() == Run(setup, old(Model()), labels)
      ensures var e := ExecutedEvent(a, end, now);
              && store.Keys == old(store).Keys
              && (forall id :: id in store && id != a.id ==> store[id] == old(store)[id])
              && (a.id in store ==> store[a.id] == WithStatus(old(store)[a.id], EndStatus(end.failed)))
              && (a.depth <= MAX_DEPTH ==>
                    log == old(log) + [Entry(e, ExecutionOf(old(tasks)[i].who))] && trail == old(trail))
              && (a.depth > MAX_DEPTH ==> log == old(log) && trail == old(trail) + [Dropped(a)])
    {
      hide Accepts, ExecutedEvent, CanRun, Run, StoreOk, BusOk, Proper, Recordings, Subscribed, CanEnd;
      labels := FinishSchedule(setup, Model(), i, end, now);
      ghost var who := tasks[i].who;
      var status := EndStatus(end.failed);
      var updated := UpdateStatus(a.id, status);
      var e := ExecutedEvent(a, end, now);
      ExecutedAccepted(a, end, now);
      ghost var handlers;
      var published;
      published, handlers := Publish(e, ExecutionOf(who));
      if !published { trail := trail + [Dropped(a)]; }
      tasks := tasks[..i] + handlers + tasks[i + 1..];
    }

    /** An event of a session not known yet creates it, if it can be valid; any other event changes no
        session. */
    method HandleSessionTracking(e: Event, ghost entry: nat) returns (created: bool, ghost labels: seq<Label>)
      requires Valid() && entry < |log| && log[entry].event == e
      modifies `sessions
      ensures Valid() && CanRun(setup, old(Model()), labels) && Model() == Run(setup, old(Model()), labels)
      ensures created <==> Trackable(old(sessions), e)
      ensures sessions == if created then old(sessions)[e.sessionId := NewSession(e)] else old(sessions)
    {
      hide StoreOk, BusOk;
      NothingRun(setup, Model());
      labels := [];
      if e.sessionId == "" || e.sessionId in sessions { return false, labels; }
      var session := NewSession(e);
      if !ValidSession(session) { return false, labels; }
      labels := [Track(entry)];
      RunOne(setup, Model(), Track(entry));
      sessions := sessions[e.sessionId := session];
      return true, labels;
    }

    /** With a positive limit L, the last L of the events restored or published before, followed by those
        logged since. */
    method RecentEvents() returns (events: seq<Event>)
      requires Valid()
      ensures bus.historyLimit > 0 ==> events == Last(FullHistory(prior) + EventsOf(log), bus.historyLimit)
      ensures bus.historyLimit <= 0 ==> events == []
    {
      FullHistoryOf(prior, log);
      events := bus.History();
    }
  }

  // ---- The schedules ----

  lemma Then(setup: Setup, s: Sys, labels: seq<Label>, l: Label)
    requires CanRun(setup, s, labels) && Enabled(setup, Run(setup, s, labels), l)
    ensures CanRun(setup, s, labels + [l]) && Run(setup, s, labels + [l]) == Apply(setup, Run(setup, s, labels), l)
  {
    RunOne(setup, Run(setup, s, labels), l);
    RunConcat(setup, s, labels, [l]);
  }

  /** Replacing a task near the end of the list. */
  lemma ReplaceNear(s: Sys, head: seq<Task>, t: Task, tail: seq<Task>, e: Effect)
    requires s.tasks == head + [t] + tail
    ensures Replace(s, |head|, e) == e.sys.(tasks := head + e.next + tail)
  {
    assert s.tasks[..|head|] == head && s.tasks[|head| + 1..] == tail;
  }

  lemma InternalPush(labels: seq<Label>, l: Label)
    requires Internal(labels) && l.Work?
    ensures Internal(labels + [l])
  {
  }

  /** The step that announces. */
  lemma Announces(setup: Setup, s: Sys, labels: seq<Label>, head: seq<Task>, topic: Topic, t: Tracked, job: Job,
                  tail: seq<Task>, c: Choice)
    requires CanRun(setup, s, labels) && c.now != 0
    requires Run(setup, s, labels).tasks == head + [Announcing(topic, t, job)] + tail
    ensures CanRun(setup, s, labels + [Work(|head|, c)])
    ensures var z, e := Run(setup, s, labels), StatusEvent(topic, t.action, c.now);
            Run(setup, s, labels + [Work(|head|, c)]) == z.(log := z.log + [Entry(e, StatusOf(topic, t.action))],
              tasks := head + [if Proceeds(topic, t.action) then Launching(t, job) else Working(job),
                               Handling(|z.log|, e)] + tail)
  {
    hide CanRun, Run, StatusEvent, Accepts, Proceeds;
    var z := Run(setup, s, labels);
    StatusAccepted(topic, t.action, c.now);
    Then(setup, s, labels, Work(|head|, c));
    ReplaceNear(z, head, Announcing(topic, t, job), tail, Advance(setup, z, Announcing(topic, t, job), c));
  }

  /** The step that starts the execution. */
  lemma Launches(setup: Setup, s: Sys, labels: seq<Label>, head: seq<Task>, t: Tracked, job: Job, tail: seq<Task>,
                 c: Choice)
    requires CanRun(setup, s, labels) && c.now != 0
    requires Run(setup, s, labels).tasks == head + [Launching(t, job)] + tail
    ensures CanRun(setup, s, labels + [Work(|head|, c)])
    ensures var z := Run(setup, s, labels);
            Run(setup, s, labels + [Work(|head|, c)]) == z.(trail := z.trail + [Launched(t.action)],
              tasks := head + [Executing(t), Working(job)] + tail)
  {
    hide CanRun, Run;
    var z := Run(setup, s, labels);
    Then(setup, s, labels, Work(|head|, c));
    ReplaceNear(z, head, Launching(t, job), tail, Advance(setup, z, Launching(t, job), c));
  }

  /** Announcing an action and, if it goes ahead, starting it; then the job goes on. */
  lemma AnnounceThenGoOn(setup: Setup, s: Sys, labels: seq<Label>, head: seq<Task>, topic: Topic, t: Tracked, job: Job,
                         tail: seq<Task>, now: nat) returns (all: seq<Label>)
    requires CanRun(setup, s, labels) && now != 0
    requires Run(setup, s, labels).tasks == head + [Announcing(topic, t, job)] + tail
    ensures CanRun(setup, s, all) && (Internal(labels) ==> Internal(all))
    ensures var z, e := Run(setup, s, labels), StatusEvent(topic, t.action, now);
            Run(setup, s, all) == z.(log := z.log + [Entry(e, StatusOf(topic, t.action))],
              trail := if Proceeds(topic, t.action) then z.trail + [Launched(t.action)] else z.trail,
              tasks := head + (if Proceeds(topic, t.action) then [Executing(t)] else [])
                       + [Working(job), Handling(|z.log|, e)] + tail)
  {
    hide CanRun, Run, StatusEvent, Proceeds, Internal;
    var n, c, z := |head|, Pick(now), Run(setup, s, labels);
    var h := Handling(|z.log|, StatusEvent(topic, t.action, now));
    Announces(setup, s, labels, head, topic, t, job, tail, c);
    all := labels + [Work(n, c)];
    if Internal(labels) { InternalPush(labels, Work(n, c)); }
    if Proceeds(topic, t.action) {
      assert head + [Launching(t, job), h] + tail == head + [Launching(t, job)] + ([h] + tail);
      Launches(setup, s, all, head, t, job, [h] + tail, c);
      if Internal(labels) { InternalPush(all, Work(n, c)); }
      all := all + [Work(n, c)];
      assert head + [Executing(t), Working(job)] + ([h] + tail) == head + [Executing(t)] + [Working(job), h] + tail;
    } else {
      assert head + [] + [Working(job), h] + tail == head + [Working(job), h] + tail;
    }
  }

  /** The same for a request with nothing after it: the empty job goes away. */
  lemma AnnounceAndLaunch(setup: Setup, s: Sys, labels: seq<Label>, head: seq<Task>, topic: Topic, t: Tracked, now: nat)
    returns (all: seq<Label>)
    requires CanRun(setup, s, labels) && now != 0
    requires Run(setup, s, labels).tasks == head + [Announcing(topic, t, NO_JOB)]
    ensures CanRun(setup, s, all)
    ensures var z, e := Run(setup, s, labels), StatusEvent(topic, t.action, now);
            Run(setup, s, all) == z.(log := z.log + [Entry(e, StatusOf(topic, t.action))],
              trail := if Proceeds(topic, t.action) then z.trail + [Launched(t.action)] else z.trail,
              tasks := head + (if Proceeds(topic, t.action) then [Executing(t)] else []) + [Handling(|z.log|, e)])
  {
    hide CanRun, Run, StatusEvent, Accepts;
    var c, z := Pick(now), Run(setup, s, labels);
    assert head + [Announcing(topic, t, NO_JOB)] + [] == head + [Announcing(topic, t, NO_JOB)];
    all := AnnounceThenGoOn(setup, s, labels, head, topic, t, NO_JOB, [], now);
    var front := head + if Proceeds(topic, t.action) then [Executing(t)] else [];
    var h := Handling(|z.log|, StatusEvent(topic, t.action, now));
    var z1 := Run(setup, s, all);
    assert z1.tasks == front + [Working(NO_JOB)] + [h];
    Then(setup, s, all, Work(|front|, c));
    all := all + [Work(|front|, c)];
    ReplaceNear(z1, front, Working(NO_JOB), [h], Advance(setup, z1, Working(NO_JOB), c));
  }

  /** Filling in defaults never touches an action that passes validation. */
  lemma CompletedKeepsValid(plugin: string, a: Action, now: nat)
    requires ValidAction(a)
    ensures Completed(plugin, a, now) == a
  {
  }

  /** The next request of handler `i`. */
  lemma SubmitSchedule(setup: Setup, s: Sys, i: nat, now: nat) returns (labels: seq<Label>)
    requires i < |s.tasks| && s.tasks[i].Working? && s.tasks[i].job.scan.Scan? && s.tasks[i].job.queue != [] && now != 0
    ensures Internal(labels) && CanRun(setup, s, labels)
    ensures var a, rest := s.tasks[i].job.queue[0], s.tasks[i].job.(queue := s.tasks[i].job.queue[1..]);
            var d := Decide(setup.mode, a.action);
            if d.Refused? then Run(setup, s, labels) == s.(tasks := s.tasks[..i] + s.tasks[i + 1..])
            else
              var t := WithStatus(a, d.status);
              var e := StatusEvent(OnRequest, t.action, now);
              Run(setup, s, labels) == s.(store := s.store[t.action.id := t],
                log := s.log + [Entry(e, StatusOf(OnRequest, t.action))],
                trail := s.trail + [Decided(t.action)] + (if d.status == Allowed then [Launched(t.action)] else []),
                tasks := s.tasks[..i] + (if d.status == Allowed then [Executing(t)] else [])
                         + [Working(rest), Handling(|s.log|, e)] + s.tasks[i + 1..])
  {
    hide CanRun, Run, StatusEvent, Accepts, Decide;
    var job, head, tail := s.tasks[i].job, s.tasks[..i], s.tasks[i + 1..];
    var d := Decide(setup.mode, job.queue[0].action);
    assert s.tasks == head + [Working(job)] + tail;
    RunOne(setup, s, Work(i, Pick(now)));
    labels := [Work(i, Pick(now))];
    ReplaceNear(s, head, Working(job), tail, RequestStep(setup, s, job));
    if d.Refused? {
      assert head + [] + tail == head + tail;
    } else {
      var t := WithStatus(job.queue[0], d.status);
      labels := AnnounceThenGoOn(setup, s, labels, head, OnRequest, t, job.(queue := job.queue[1..]), tail, now);
    }
  }

  lemma RequestSchedule(setup: Setup, s: Sys, plugin: string, a: Action, now: nat) returns (labels: seq<Label>)
    requires now != 0
    ensures CanRun(setup, s, labels)
    ensures var d := Decide(setup.mode, Completed(plugin, a, now));
            if d.Refused? then Run(setup, s, labels) == s
            else
              var t := WithStatus(Asked(plugin, a, now), d.status);
              var e := StatusEvent(OnAsk, t.action, now);
              Run(setup, s, labels) == s.(store := s.store[t.action.id := t],
                log := s.log + [Entry(e, StatusOf(OnAsk, t.action))],
                trail := s.trail + [Decided(t.action)] + (if d.status == Allowed then [Launched(t.action)] else []),
                tasks := s.tasks + (if d.status == Allowed then [Executing(t)] else []) + [Handling(|s.log|, e)])
  {
    var n, c := |s.tasks|, Pick(now);
    var asked := Asked(plugin, a, now);
    var job := Job(NoScan, [asked]);
    RunOne(setup, s, Ask(plugin, a, now));
    labels := [Ask(plugin, a, now)];
    var z := Run(setup, s, labels);
    Then(setup, s, labels, Work(n, c));
    ReplaceNear(z, s.tasks, Working(job), [], RequestStep(setup, z, job));
    labels := labels + [Work(n, c)];
    var d := Decide(setup.mode, asked.action);
    if d.Refused? {
      assert s.tasks + [] + [] == s.tasks;
    } else {
      var t := WithStatus(asked, d.status);
      assert job.(queue := job.queue[1..]) == NO_JOB;
      labels := AnnounceAndLaunch(setup, s, labels, s.tasks, OnAsk, t, now);
    }
  }

  lemma ApproveSchedule(setup: Setup, s: Sys, id: string, now: nat) returns (labels: seq<Label>)
    requires now != 0
    ensures CanRun(setup, s, labels)
    ensures id !in s.store ==> Run(setup, s, labels) == s
    ensures id in s.store ==>
              var t := WithStatus(s.store[id], Allowed);
              var e := StatusEvent(OnApprove, t.action, now);
              Run(setup, s, labels) == s.(store := s.store[id := t],
                log := s.log + [Entry(e, StatusOf(OnApprove, t.action))],
                trail := s.trail + [Granted(t.action)] + [Launched(t.action)],
                tasks := s.tasks + [Executing(t)] + [Handling(|s.log|, e)])
  {
    RunOne(setup, s, Approve(id));
    labels := [Approve(id)];
    if id in s.store {
      labels := AnnounceAndLaunch(setup, s, labels, s.tasks, OnApprove, WithStatus(s.store[id], Allowed), now);
    }
  }

  lemma DenySchedule(setup: Setup, s: Sys, id: string, now: nat) returns (labels: seq<Label>)
    requires now != 0
    ensures CanRun(setup, s, labels)
    ensures id !in s.store ==> Run(setup, s, labels) == s
    ensures id in s.store ==>
              var t := WithStatus(s.store[id], Denied);
              var e := StatusEvent(OnDeny, t.action, now);
              Run(setup, s, labels) == s.(store := s.store[id := t],
                log := s.log + [Entry(e, StatusOf(OnDeny, t.action))],
                tasks := s.tasks + [Handling(|s.log|, e)])
  {
    RunOne(setup, s, Deny(id));
    labels := [Deny(id)];
    if id in s.store {
      labels := AnnounceAndLaunch(setup, s, labels, s.tasks, OnDeny, WithStatus(s.store[id], Denied), now);
      assert s.tasks + [] == s.tasks;
    }
  }

  lemma FinishSchedule(setup: Setup, s: Sys, i: nat, end: End, now: nat) returns (labels: seq<Label>)
    requires i < |s.tasks| && s.tasks[i].Executing? && now != 0
    requires CanEnd(setup.capabilities, s.tasks[i].who.action, end)
    ensures CanRun(setup, s, labels)
    ensures var who, e := s.tasks[i].who, ExecutedEvent(s.tasks[i].who.action, end, now);
            var id := who.action.id;
            Run(setup, s, labels) == s.(
              store := if id in s.store then s.store[id := WithStatus(s.store[id], EndStatus(end.failed))] else s.store,
              log := Logged(s, e, ExecutionOf(who)),
              trail := if Accepts(e) then s.trail else s.trail + [Dropped(who.action)],
              tasks := s.tasks[..i] + Heard(s, e) + s.tasks[i + 1..])
  {
    hide CanEnd;
    var who, c := s.tasks[i].who, Pick(now).(end := end);
    var head, tail := s.tasks[..i], s.tasks[i + 1..];
    assert s.tasks == head + [Executing(who)] + tail;
    RunOne(setup, s, Work(i, c));
    labels := [Work(i, c)];
    ReplaceNear(s, head, Executing(who), tail, Advance(setup, s, Executing(who), c));
    var z := Run(setup, s, labels);
    assert z.tasks == head + [Reporting(who, end)] + tail;
    Then(setup, s, labels, Work(i, c));
    labels := labels + [Work(i, c)];
    ReplaceNear(z, head, Reporting(who, end), tail, Advance(setup, z, Reporting(who, end), c));
  }
}
