/** Handlers among others: however the goroutines interleave, a handler that has finished has created
    exactly what the rules it started with ask for, in order. */
module Interleaving {
  import opened Prelude
  import opened Types
  import opened Workflow
  import opened Engine
  import opened Actions
  import opened Cascade
  import opened CascadeEnds
  import opened AnswerGraph
  import opened Lineage
  import opened EventBus

  // ---- Who works for which event ----

  /** The task handles the event logged at `k`. */
  function Serves(k: nat): Task -> bool {
    (t: Task) => (t.Handling? && t.entry == k) || (ScanOf(t).Scan? && ScanOf(t).entry == k)
  }

  function Servers(k: nat, tasks: seq<Task>): seq<Task> {
    Filter(Serves(k), tasks)
  }

  /** The actions created for that event, in order. */
  function MadeFor(k: nat, created: seq<Creation>): seq<Creation> {
    Filter((c: Creation) => c.parent == k, created)
  }

  function QueueOf(t: Task): seq<Tracked> {
    match t
    case Working(job) => job.queue
    case Announcing(_, _, job) => job.queue
    case Launching(_, job) => job.queue
    case _ => []
  }

  lemma ServersReplaced(k: nat, tasks: seq<Task>, i: nat, next: seq<Task>)
    requires i < |tasks|
    ensures Servers(k, tasks) == Servers(k, tasks[..i]) + Servers(k, [tasks[i]]) + Servers(k, tasks[i + 1..])
    ensures Servers(k, tasks[..i] + next + tasks[i + 1..])
         == Servers(k, tasks[..i]) + Servers(k, next) + Servers(k, tasks[i + 1..])
  {
    hide Filter;
    assert tasks == tasks[..i] + [tasks[i]] + tasks[i + 1..];
    FilterConcat(Serves(k), tasks[..i] + [tasks[i]], tasks[i + 1..]);
    FilterConcat(Serves(k), tasks[..i], [tasks[i]]);
    FilterConcat(Serves(k), tasks[..i] + next, tasks[i + 1..]);
    FilterConcat(Serves(k), tasks[..i], next);
  }

  lemma ServersTwo(k: nat, t: Task, u: Task)
    ensures Servers(k, []) == []
    ensures Servers(k, [t]) == if Serves(k)(t) then [t] else []
    ensures Servers(k, [t, u]) == Servers(k, [t]) + Servers(k, [u])
  {
    assert [t, u][1..] == [u] && [t][1..] == [];
  }

  /** Only the event published next gets a new server. */
  lemma HeardServers(s: Sys, e: Event, k: nat)
    ensures Servers(k, Heard(s, e)) == if k == |s.log| then Heard(s, e) else []
  {
    hide Accepts;
    if Accepts(e) { ServersTwo(k, Handling(|s.log|, e), Handling(|s.log|, e)); }
  }

  lemma {:induction false} MadeForOthers(k: nat, made: seq<Action>, parent: nat)
    ensures MadeFor(k, Creations(made, parent)) == if k == parent then Creations(made, parent) else []
  {
    if made != [] {
      assert Creations(made, parent)[1..] == Creations(made[1..], parent);
      MadeForOthers(k, made[1..], parent);
    }
  }

  // ---- What a handler has done, and has left to do ----

  /** The engine built the action for the item, in a session that could be found at the time. */
  ghost predicate Built(setup: Setup, a: Action, item: Item, e: Event, known: Sessions) {
    exists seqNo: nat, session, now: nat ::
      Meetable(known, e.sessionId, session) && ActionFor(a, item, e, seqNo, session, setup.sprint, now)
  }

  ghost predicate Filled(setup: Setup, mine: seq<Creation>, items: seq<Item>, e: Event, known: Sessions) {
    |mine| <= |items| && forall j :: 0 <= j < |mine| ==> Built(setup, mine[j].action, items[j], e, known)
  }

  /** A handler's task, at work on the event with these items left, its queue fit for the gate. */
  ghost predicate AtWork(setup: Setup, t: Task, k: nat, e: Event, session: Session, left: seq<Item>) {
    && ScanOf(t).Scan? && ScanOf(t) == Scan(k, e, session, ScanOf(t).rules) && ValidRules(ScanOf(t).rules)
    && Plan(ScanOf(t).rules, e, session, setup.sprint) == left
    && forall q :: q in QueueOf(t) ==> ValidAction(q.action)
  }

  /** What began as the handling of the event logged at `k` has created the first of the items, and has
      the rest before it. */
  ghost predicate Kept(setup: Setup, z: Sys, k: nat, e: Event, known: Sessions, session: Session, items: seq<Item>) {
    && k < |z.log| && Later(known, z.sessions)
    && var mine, servers := MadeFor(k, z.created), Servers(k, z.tasks);
       && Filled(setup, mine, items, e, known)
       && (servers == [] ==> |mine| == |items|)
       && (servers != [] ==> |servers| == 1 && AtWork(setup, servers[0], k, e, session, items[|mine|..]))
  }

  // ---- Steps of others ----

  /** A step of a task that does not serve the event creates nothing for it, and nobody to serve it, unless
      it publishes the event. */
  lemma OthersLeaveAlone(setup: Setup, s: Sys, t: Task, c: Choice, k: nat)
    requires !Serves(k)(t)
    ensures var e := Advance(setup, s, t, c);
            && MadeFor(k, e.sys.created) == MadeFor(k, s.created)
            && (Servers(k, e.next) != [] ==> k == |s.log| && |e.sys.log| > k && OneNewcomer(Servers(k, e.next)))
  {
    hide Matches, Decide, Accepts, Servers, StatusEvent, ExecutedEvent, ScanStep, MadeFor;
    var e := Advance(setup, s, t, c);
    ServersTwo(k, t, t);
    match t {
      case Handling(_, _) => ServersTwo(k, e.next[0], t);
      case Working(job) =>
        if job.queue != [] {
          if e.next != [] { ServersTwo(k, e.next[0], t); }
        } else if job.scan.Scan? && job.scan.rules != [] {
          OtherScans(setup, s, job.scan, c, k);
        }
      case Announcing(topic, who, job) =>
        var event := StatusEvent(topic, who.action, c.now);
        var next := if Proceeds(topic, who.action) then Launching(who, job) else Working(job);
        HeardServers(s, event, k);
        ServersJoin(k, [next], Heard(s, event));
        ServersTwo(k, next, t);
      case Launching(who, job) => ServersTwo(k, Executing(who), Working(job)); ServersTwo(k, Working(job), t);
      case Executing(who) => ServersTwo(k, e.next[0], t);
      case Reporting(who, end) => HeardServers(s, ExecutedEvent(who.action, end, c.now), k);
    }
  }

  predicate OneNewcomer(tasks: seq<Task>) {
    |tasks| == 1 && tasks[0].Handling?
  }

  lemma ServersJoin(k: nat, ts: seq<Task>, us: seq<Task>)
    ensures Servers(k, ts + us) == Servers(k, ts) + Servers(k, us)
  {
    FilterConcat(Serves(k), ts, us);
  }

  lemma OtherScans(setup: Setup, s: Sys, scan: Scan, c: Choice, k: nat)
    requires scan.Scan? && scan.rules != [] && scan.entry != k
    ensures var e := ScanStep(setup, s, scan, c);
            Servers(k, e.next) == [] && MadeFor(k, e.sys.created) == MadeFor(k, s.created)
  {
    hide Matches, MadeActions;
    var e := ScanStep(setup, s, scan, c);
    ServersTwo(k, e.next[0], e.next[0]);
    if Matches(scan.rules[0], scan.event, scan.session, setup.sprint) {
      CreatedFor(k, s.created, MadeActions(scan.rules[0], scan.event, s.seqNo, c), scan.entry);
    }
  }

  lemma CreatedFor(k: nat, created: seq<Creation>, made: seq<Action>, parent: nat)
    ensures MadeFor(k, created + Creations(made, parent))
         == MadeFor(k, created) + if k == parent then Creations(made, parent) else []
  {
    FilterConcat((c: Creation) => c.parent == k, created, Creations(made, parent));
    MadeForOthers(k, made, parent);
  }

  // ---- Steps of the handler ----

  /** Requesting, announcing and launching keep the handler at work where it was. */
  lemma GoesOn(setup: Setup, s: Sys, t: Task, c: Choice, k: nat, e: Event, session: Session, left: seq<Item>)
    requires k < |s.log| && AtWork(setup, t, k, e, session, left) && !setup.mode.UnknownMode?
    requires t.Working? ==> t.job.queue != []
    ensures var f := Advance(setup, s, t, c);
            && f.sys.created == s.created && |Servers(k, f.next)| == 1
            && AtWork(setup, Servers(k, f.next)[0], k, e, session, left)
  {
    hide Matches, Accepts, Servers, StatusEvent, ScanStep, ValidRules, Plan, ValidAction;
    var f := Advance(setup, s, t, c);
    ServersTwo(k, t, t);
    match t {
      case Working(job) =>
        assert job.queue[0] in job.queue && forall q :: q in job.queue[1..] ==> q in job.queue;
        ServersTwo(k, f.next[0], t);
      case Announcing(topic, who, job) =>
        var event := StatusEvent(topic, who.action, c.now);
        var next := if Proceeds(topic, who.action) then Launching(who, job) else Working(job);
        HeardServers(s, event, k);
        ServersJoin(k, [next], Heard(s, event));
        ServersTwo(k, next, t);
      case Launching(who, job) =>
        ServersTwo(k, Executing(who), Working(job));
        ServersTwo(k, Executing(who), t);
        ServersTwo(k, Working(job), t);
    }
  }

  /** Looking at a rule creates its items, if it matches, and leaves the items of the rest. */
  lemma LooksAtARule(setup: Setup, s: Sys, scan: Scan, c: Choice, known: Sessions, left: seq<Item>)
    requires scan.Scan? && scan.rules != []
    requires AtWork(setup, Working(Job(scan, [])), scan.entry, scan.event, scan.session, left)
    requires Later(known, s.sessions) && c.now != 0 && Interpolated(setup, s, scan, c)
    ensures var f, k := ScanStep(setup, s, scan, c), scan.entry;
            && MadeFor(k, s.created) <= MadeFor(k, f.sys.created)
            && var mine := MadeFor(k, f.sys.created)[|MadeFor(k, s.created)|..];
               && Filled(setup, mine, left, scan.event, known)
               && |Servers(k, f.next)| == 1
               && AtWork(setup, Servers(k, f.next)[0], k, scan.event, scan.session, left[|mine|..])
  {
    hide Matches, Later, Meetable, PayloadFor, ActionId, ValidAction, ValidRule, MadeActions, Built, Found, GetActions;
    hide MadeFor;
    var f, k, r, rest := ScanStep(setup, s, scan, c), scan.entry, scan.rules[0], scan.(rules := scan.rules[1..]);
    ServersTwo(k, f.next[0], f.next[0]);
    assert ValidRules(rest.rules);
    if Matches(r, scan.event, scan.session, setup.sprint) {
      var made := MadeActions(r, scan.event, s.seqNo, c);
      CreatedFor(k, s.created, made, k);
      LaterMeetable(known, s.sessions, scan.event.sessionId);
      assert left == ItemsOf(r) + Plan(rest.rules, scan.event, scan.session, setup.sprint);
      forall j | 0 <= j < |made|
        ensures Built(setup, made[j], left[j], scan.event, known) && ValidAction(made[j])
      {
        assert left[j] == ItemsOf(r)[j];
        MadeIsBuilt(setup, s, scan, c, known, j);
      }
    }
  }

  lemma MadeIsBuilt(setup: Setup, s: Sys, scan: Scan, c: Choice, known: Sessions, j: nat)
    requires scan.Scan? && scan.rules != [] && ValidRule(scan.rules[0]) && j < |GetActions(scan.rules[0])|
    requires PayloadsFor(c.payloads, scan.rules[0], scan.event, Found(s.sessions, scan.event.sessionId), setup.sprint)
    requires Meetable(known, scan.event.sessionId, Found(s.sessions, scan.event.sessionId)) && c.now != 0
    ensures var a := MadeActions(scan.rules[0], scan.event, s.seqNo, c)[j];
            Built(setup, a, ItemsOf(scan.rules[0])[j], scan.event, known) && ValidAction(a)
  {
    hide Meetable, PayloadFor, ActionId, ValidAction, ValidRule, Found;
    var r, session := scan.rules[0], Found(s.sessions, scan.event.sessionId);
    var a, x := MadeActions(r, scan.event, s.seqNo, c)[j], Item(r, GetActions(r)[j]);
    assert PayloadFor(c.payloads[j], x, scan.event, session, setup.sprint);
    assert ActionFor(a, x, scan.event, s.seqNo + j + 1, session, setup.sprint, c.now);
    DraftValid(x, scan.event, s.seqNo + j + 1, a.payload, c.now);
  }

  // ---- One step of the whole ----

  lemma OthersKeep(setup: Setup, s: Sys, i: nat, c: Choice, k: nat, e: Event, known: Sessions, session: Session,
                   items: seq<Item>)
    requires Enabled(setup, s, Work(i, c)) && Kept(setup, s, k, e, known, session, items) && !Serves(k)(s.tasks[i])
    ensures Kept(setup, Apply(setup, s, Work(i, c)), k, e, known, session, items)
  {
    var f := Advance(setup, s, s.tasks[i], c);
    LogKept(setup, s, i, c);
    OthersLeaveAlone(setup, s, s.tasks[i], c, k);
    ServersReplaced(k, s.tasks, i, f.next);
    ServersTwo(k, s.tasks[i], s.tasks[i]);
    hide Advance, Filled, AtWork, Later, Servers, MadeFor, Allows;
    var z := Apply(setup, s, Work(i, c));
    assert Servers(k, z.tasks) == Servers(k, s.tasks[..i]) + Servers(k, s.tasks[i + 1..]) == Servers(k, s.tasks);
  }

  lemma LogKept(setup: Setup, s: Sys, i: nat, c: Choice)
    requires Enabled(setup, s, Work(i, c))
    ensures var z := Apply(setup, s, Work(i, c)); s.log <= z.log && z.sessions == s.sessions && z.rules == s.rules
  {
    hide Accepts, StatusEvent, ExecutedEvent, Matches, Decide, Allows;
  }

  lemma OneServer(k: nat, before: seq<Task>, t: Task, after: seq<Task>)
    requires Serves(k)(t) && |Servers(k, before) + Servers(k, [t]) + Servers(k, after)| == 1
    ensures Servers(k, before) == [] && Servers(k, after) == [] && Servers(k, [t]) == [t]
  {
    ServersTwo(k, t, t);
  }

  lemma HandlerKeeps(setup: Setup, s: Sys, i: nat, c: Choice, k: nat, e: Event, known: Sessions, session: Session,
                     items: seq<Item>)
    requires Enabled(setup, s, Work(i, c)) && Kept(setup, s, k, e, known, session, items) && Serves(k)(s.tasks[i])
    requires !setup.mode.UnknownMode?
    ensures Kept(setup, Apply(setup, s, Work(i, c)), k, e, known, session, items)
  {
    var t, f, z := s.tasks[i], Advance(setup, s, s.tasks[i], c), Apply(setup, s, Work(i, c));
    LogKept(setup, s, i, c);
    ServersReplaced(k, s.tasks, i, f.next);
    ServersTwo(k, t, t);
    hide Servers, Accepts, Filled, Later, MadeFor;
    assert t in [t];
    var mine := MadeFor(k, s.created);
    assert Servers(k, s.tasks) != [];
    OneServer(k, s.tasks[..i], t, s.tasks[i + 1..]);
    assert Servers(k, s.tasks) == [t];
    assert Servers(k, z.tasks) == Servers(k, f.next);
    assert AtWork(setup, t, k, e, session, items[|mine|..]);
    if t.Working? && t.job.queue == [] {
      if t.job.scan.rules == [] {
        ServersTwo(k, t, t);
      } else {
        hide AtWork, Interpolated, Matches;
        assert t == Working(Job(t.job.scan, []));
        HandlerScans(setup, s, t.job.scan, c, known, items, mine, f);
      }
    } else {
      hide AtWork;
      GoesOn(setup, s, t, c, k, e, session, items[|mine|..]);
    }
  }

  /** The handler's own scan, seen from the whole of its items. */
  lemma HandlerScans(setup: Setup, s: Sys, scan: Scan, c: Choice, known: Sessions, items: seq<Item>,
                     mine: seq<Creation>, f: Effect)
    requires scan.Scan? && scan.rules != [] && f == ScanStep(setup, s, scan, c)
    requires mine == MadeFor(scan.entry, s.created)
    requires Filled(setup, mine, items, scan.event, known)
    requires AtWork(setup, Working(Job(scan, [])), scan.entry, scan.event, scan.session, items[|mine|..])
    requires Later(known, s.sessions) && c.now != 0 && Interpolated(setup, s, scan, c)
    ensures var now := MadeFor(scan.entry, f.sys.created);
            && Filled(setup, now, items, scan.event, known)
            && |Servers(scan.entry, f.next)| == 1
            && AtWork(setup, Servers(scan.entry, f.next)[0], scan.entry, scan.event, scan.session, items[|now|..])
  {
    hide Built, AtWork, Later, Interpolated, MadeFor, Servers, ScanStep;
    var left, now := items[|mine|..], MadeFor(scan.entry, f.sys.created);
    LooksAtARule(setup, s, scan, c, known, left);
    var more := now[|mine|..];
    assert left[|more|..] == items[|now|..];
    forall j | 0 <= j < |now| ensures Built(setup, now[j].action, items[j], scan.event, known) {
      if j < |mine| {
        assert now[j] == mine[j];
      } else {
        assert now[j] == more[j - |mine|] && items[j] == left[j - |mine|];
      }
    }
  }

  lemma StepKeeps(setup: Setup, s: Sys, l: Label, k: nat, e: Event, known: Sessions, session: Session, items: seq<Item>)
    requires Enabled(setup, s, l) && Kept(setup, s, k, e, known, session, items) && !setup.mode.UnknownMode?
    ensures Kept(setup, Apply(setup, s, l), k, e, known, session, items)
  {
    if l.Work? {
      if Serves(k)(s.tasks[l.i]) {
        HandlerKeeps(setup, s, l.i, l.choice, k, e, known, session, items);
      } else {
        OthersKeep(setup, s, l.i, l.choice, k, e, known, session, items);
      }
    } else {
      OutsideKeeps(setup, s, l, k, e, known, session, items);
    }
  }

  lemma OutsideKeeps(setup: Setup, s: Sys, l: Label, k: nat, e: Event, known: Sessions, session: Session,
                     items: seq<Item>)
    requires Enabled(setup, s, l) && Kept(setup, s, k, e, known, session, items) && !l.Work?
    ensures Kept(setup, Apply(setup, s, l), k, e, known, session, items)
  {
    hide Servers, Filled, AtWork, MadeFor, Accepts, Later, Trackable, Noted;
    match l {
      case Emit(event) =>
        HeardServers(s, event, k);
        ServersJoin(k, s.tasks, Heard(s, event));
      case Ask(plugin, a, now) =>
        ServersAppend(k, s.tasks, Working(Job(NoScan, [Asked(plugin, a, now)])));
      case Approve(id) =>
        if id in s.store { ServersAppend(k, s.tasks, Announcing(OnApprove, WithStatus(s.store[id], Allowed), NO_JOB)); }
      case Deny(id) =>
        if id in s.store { ServersAppend(k, s.tasks, Announcing(OnDeny, WithStatus(s.store[id], Denied), NO_JOB)); }
      case Reload(_) =>
      case Track(entry) => LaterKnown(known, s.sessions, s.log[entry].event);
    }
  }

  lemma ServersAppend(k: nat, tasks: seq<Task>, t: Task)
    requires !Serves(k)(t)
    ensures Servers(k, tasks + [t]) == Servers(k, tasks)
  {
    ServersJoin(k, tasks, [t]);
    ServersTwo(k, t, t);
  }

  lemma {:induction false} RunKeeps(setup: Setup, s: Sys, labels: seq<Label>, k: nat, e: Event, known: Sessions,
                                    session: Session, items: seq<Item>)
    requires CanRun(setup, s, labels) && Kept(setup, s, k, e, known, session, items) && !setup.mode.UnknownMode?
    ensures Kept(setup, Run(setup, s, labels), k, e, known, session, items)
    decreases labels
  {
    hide Kept, Enabled, Apply;
    if labels != [] {
      StepKeeps(setup, s, labels[0], k, e, known, session, items);
      RunKeeps(setup, Apply(setup, s, labels[0]), labels[1..], k, e, known, session, items);
    }
  }

  // ---- From the start of a process ----

  /** The event logged at `k` has at most one server, and before that one begins nothing is created for it. */
  ghost predicate Single(s: Sys, k: nat) {
    && |Servers(k, s.tasks)| <= 1
    && (Servers(k, s.tasks) != [] && Servers(k, s.tasks)[0].Handling? ==> MadeFor(k, s.created) == [])
    && (k >= |s.log| ==> Servers(k, s.tasks) == [] && MadeFor(k, s.created) == [])
  }

  /** A step of the server leaves at most one server, which has begun. */
  lemma ServerStays(setup: Setup, s: Sys, t: Task, c: Choice, k: nat)
    requires k < |s.log| && Serves(k)(t)
    ensures var next := Servers(k, Advance(setup, s, t, c).next); |next| <= 1 && (next != [] ==> !next[0].Handling?)
  {
    hide Matches, Accepts, Servers, StatusEvent, Decide, MadeActions;
    var f := Advance(setup, s, t, c);
    ServersTwo(k, t, t);
    match t {
      case Handling(_, _) => ServersTwo(k, f.next[0], t);
      case Working(job) => if f.next != [] { ServersTwo(k, f.next[0], t); }
      case Announcing(topic, who, job) =>
        var event := StatusEvent(topic, who.action, c.now);
        var next := if Proceeds(topic, who.action) then Launching(who, job) else Working(job);
        HeardServers(s, event, k);
        ServersJoin(k, [next], Heard(s, event));
        ServersTwo(k, next, t);
      case Launching(who, job) =>
        ServersTwo(k, Executing(who), Working(job));
        ServersTwo(k, Executing(who), t);
        ServersTwo(k, Working(job), t);
    }
  }

  lemma WorkSingle(setup: Setup, s: Sys, i: nat, c: Choice, k: nat)
    requires Enabled(setup, s, Work(i, c)) && Single(s, k)
    ensures Single(Apply(setup, s, Work(i, c)), k)
  {
    var t, f, z := s.tasks[i], Advance(setup, s, s.tasks[i], c), Apply(setup, s, Work(i, c));
    ServersReplaced(k, s.tasks, i, f.next);
    ServersTwo(k, t, t);
    LogKept(setup, s, i, c);
    hide Advance, Servers, MadeFor, Allows;
    if Serves(k)(t) {
      assert Servers(k, s.tasks) != [];
      OneServer(k, s.tasks[..i], t, s.tasks[i + 1..]);
      ServerStays(setup, s, t, c, k);
      assert Servers(k, z.tasks) == Servers(k, f.next);
    } else {
      OthersLeaveAlone(setup, s, t, c, k);
      assert Servers(k, s.tasks) == Servers(k, s.tasks[..i]) + Servers(k, s.tasks[i + 1..]);
      if Servers(k, f.next) == [] {
        assert Servers(k, z.tasks) == Servers(k, s.tasks);
      } else {
        assert Servers(k, z.tasks) == Servers(k, f.next);
      }
    }
  }

  lemma StepSingle(setup: Setup, s: Sys, l: Label, k: nat)
    requires Enabled(setup, s, l) && Single(s, k)
    ensures Single(Apply(setup, s, l), k)
  {
    hide Servers, MadeFor, Accepts, Trackable, Noted;
    match l {
      case Work(i, c) => WorkSingle(setup, s, i, c, k);
      case Emit(event) =>
        HeardServers(s, event, k);
        ServersJoin(k, s.tasks, Heard(s, event));
      case Ask(plugin, a, now) =>
        ServersAppend(k, s.tasks, Working(Job(NoScan, [Asked(plugin, a, now)])));
      case Approve(id) =>
        if id in s.store { ServersAppend(k, s.tasks, Announcing(OnApprove, WithStatus(s.store[id], Allowed), NO_JOB)); }
      case Deny(id) =>
        if id in s.store { ServersAppend(k, s.tasks, Announcing(OnDeny, WithStatus(s.store[id], Denied), NO_JOB)); }
      case Reload(_) =>
      case Track(_) =>
    }
  }

  lemma {:induction false} RunSingle(setup: Setup, s: Sys, labels: seq<Label>, k: nat)
    requires CanRun(setup, s, labels) && Single(s, k)
    ensures Single(Run(setup, s, labels), k)
    decreases labels
  {
    hide Single, Enabled, Apply;
    if labels != [] {
      StepSingle(setup, s, labels[0], k);
      RunSingle(setup, Apply(setup, s, labels[0]), labels[1..], k);
    }
  }

  lemma {:induction false} RunRulesValid(setup: Setup, s: Sys, labels: seq<Label>)
    requires CanRun(setup, s, labels) && ValidRules(s.rules)
    ensures ValidRules(Run(setup, s, labels).rules)
    decreases labels
  {
    hide ValidRules, Advance, Allows;
    if labels != [] {
      assert ValidRules(Apply(setup, s, labels[0]).rules) by {
        if labels[0].Work? { LogKept(setup, s, labels[0].i, labels[0].choice); }
      }
      RunRulesValid(setup, Apply(setup, s, labels[0]), labels[1..]);
    }
  }

  /** The step with which a handler begins: everything is still before it. */
  lemma BeginsAll(setup: Setup, s: Sys, at: nat, c: Choice)
    requires Enabled(setup, s, Work(at, c)) && s.tasks[at].Handling? && s.tasks[at].entry < |s.log|
    requires Single(s, s.tasks[at].entry) && ValidRules(s.rules)
    ensures var k, e := s.tasks[at].entry, s.tasks[at].event;
            var session := Found(s.sessions, e.sessionId);
            Kept(setup, Apply(setup, s, Work(at, c)), k, e, s.sessions, session,
                 Plan(s.rules, e, session, setup.sprint))
  {
    hide Servers, MadeFor, Plan, ValidRules, Found, Matches, Later, Filled, AtWork;
    var t, z := s.tasks[at], Apply(setup, s, Work(at, c));
    var k, e, session := t.entry, t.event, Found(s.sessions, t.event.sessionId);
    var begun := Working(Job(Scan(k, e, session, s.rules), []));
    ServersReplaced(k, s.tasks, at, [begun]);
    ServersTwo(k, t, t);
    ServersTwo(k, begun, t);
    assert Servers(k, s.tasks) != [];
    OneServer(k, s.tasks[..at], t, s.tasks[at + 1..]);
    assert Servers(k, s.tasks) == [t];
    assert Servers(k, z.tasks) == [begun];
    NothingDone(setup, begun, k, e, s.sessions, session, Plan(s.rules, e, session, setup.sprint));
  }

  lemma NothingDone(setup: Setup, t: Task, k: nat, e: Event, known: Sessions, session: Session, items: seq<Item>)
    requires t.Working? && t.job.scan.Scan? && t.job.scan == Scan(k, e, session, t.job.scan.rules) && t.job.queue == []
    requires ValidRules(t.job.scan.rules) && items == Plan(t.job.scan.rules, e, session, setup.sprint)
    ensures Later(known, known) && Filled(setup, [], items, e, known) && AtWork(setup, t, k, e, session, items[0..])
  {
    hide Plan, ValidRules;
    assert items[0..] == items;
  }

  /** In every run of a process, whatever else goes on, and whatever rules are installed meanwhile: once
      the handler of an event has finished, the actions created for the event are exactly those that the
      rules installed when it began ask for, in the order of the rules and of their actions. */
  lemma FinishedHandlersDidTheirPlan(setup: Setup, s: Sys, before: seq<Label>, at: nat, c: Choice, after: seq<Label>)
    requires Init(s) && !setup.mode.UnknownMode? && CanRun(setup, s, before)
    requires var y := Run(setup, s, before);
             && Enabled(setup, y, Work(at, c)) && y.tasks[at].Handling?
             && CanRun(setup, Apply(setup, y, Work(at, c)), after)
    requires var y := Run(setup, s, before);
             Servers(y.tasks[at].entry, Run(setup, Apply(setup, y, Work(at, c)), after).tasks) == []
    ensures var y, z := Run(setup, s, before), Run(setup, Apply(setup, Run(setup, s, before), Work(at, c)), after);
            var k, e := y.tasks[at].entry, y.tasks[at].event;
            var plan := Plan(y.rules, e, Found(y.sessions, e.sessionId), setup.sprint);
            var made := MadeFor(k, z.created);
            && |made| == |plan|
            && forall j :: 0 <= j < |plan| ==> Built(setup, made[j].action, plan[j], e, y.sessions)
  {
    hide Run, CanRun, Plan, Built, Servers, MadeFor, ValidRules, Apply, AtWork, Later, GoodEntry, GoodCreation;
    hide GoodTracked;
    var y := Run(setup, s, before);
    var k, e := y.tasks[at].entry, y.tasks[at].event;
    RunFromInit(setup, s, before);
    assert GoodTask(y.log, y.created, y.tasks[at]);
    InitSingle(s, k);
    RunSingle(setup, s, before, k);
    RunRulesValid(setup, s, before);
    BeginsAll(setup, y, at, c);
    var session := Found(y.sessions, e.sessionId);
    RunKeeps(setup, Apply(setup, y, Work(at, c)), after, k, e, y.sessions, session,
             Plan(y.rules, e, session, setup.sprint));
  }

  lemma InitSingle(s: Sys, k: nat)
    requires Init(s)
    ensures Single(s, k)
  {
  }
}
