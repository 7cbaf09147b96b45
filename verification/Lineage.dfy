/** Where actions come from: along every chain event -> action -> action.executed -> action -> ...
    the depth counts the generations and the trace, like the session, stays that of the root. */
module Lineage {
  import opened Decimal
  import opened Types
  import opened Workflow
  import opened Engine
  import opened Execution
  import opened Actions
  import opened Cascade
  import opened EventBus

  /** The same action, at another stage of its life. */
  predicate SameAction(a: Action, b: Action) {
    a == b.(status := a.status)
  }

  /** An action is, but for its status, what it was when it came into being. */
  ghost predicate GoodTracked(created: seq<Creation>, t: Tracked) {
    match t.origin
    case External(first) => SameAction(t.action, first)
    case Made(k) => k < |created| && SameAction(t.action, created[k].action)
  }

  ghost predicate GoodJob(log: seq<Entry>, created: seq<Creation>, job: Job) {
    && (job.scan.Scan? ==> job.scan.entry < |log| && log[job.scan.entry].event == job.scan.event)
    && forall i :: 0 <= i < |job.queue| ==> GoodTracked(created, job.queue[i])
  }

  ghost predicate GoodTask(log: seq<Entry>, created: seq<Creation>, t: Task) {
    match t
    case Handling(entry, e) => entry < |log| && log[entry].event == e
    case Working(job) => GoodJob(log, created, job)
    case Announcing(_, who, job) => GoodTracked(created, who) && GoodJob(log, created, job)
    case Launching(who, job) => GoodTracked(created, who) && GoodJob(log, created, job)
    case Executing(who) => GoodTracked(created, who)
    case Reporting(who, _) => GoodTracked(created, who)
  }

  /** A logged event was acceptable, and one of the runtime's own says what it should. */
  ghost predicate GoodEntry(created: seq<Creation>, e: Entry) {
    && Accepts(e.event)
    && (e.cause.StatusOf? ==> exists now :: e.event == StatusEvent(e.cause.topic, e.cause.subject, now))
    && (e.cause.ExecutionOf? ==>
          && GoodTracked(created, e.cause.who)
          && exists end, now :: e.event == ExecutedEvent(e.cause.who.action, end, now))
  }

  predicate Inherits(a: Action, e: Event) {
    a.depth == e.depth + 1 && a.traceId == TraceOf(e) && a.sessionId == e.sessionId
  }

  /** The engine built the action for a logged event, which no later creation can have caused. */
  ghost predicate GoodCreation(log: seq<Entry>, c: Creation, k: nat) {
    && c.parent < |log|
    && Inherits(c.action, log[c.parent].event)
    && (log[c.parent].cause.ExecutionOf? && log[c.parent].cause.who.origin.Made? ==>
        log[c.parent].cause.who.origin.index < k)
  }

  ghost predicate GoodLineage(s: Sys) {
    && (forall id :: id in s.store ==> GoodTracked(s.created, s.store[id]) && s.store[id].action.id == id)
    && (forall i :: 0 <= i < |s.tasks| ==> GoodTask(s.log, s.created, s.tasks[i]))
    && (forall i :: 0 <= i < |s.log| ==> GoodEntry(s.created, s.log[i]))
    && (forall k :: 0 <= k < |s.created| ==> GoodCreation(s.log, s.created[k], k))
  }

  // ---- The log and the creations only grow ----

  lemma GoodTaskGrows(log: seq<Entry>, more: seq<Entry>, created: seq<Creation>, others: seq<Creation>, t: Task)
    requires GoodTask(log, created, t) && log <= more && created <= others
    ensures GoodTask(more, others, t)
  {
  }

  lemma GoodEntryGrows(created: seq<Creation>, others: seq<Creation>, e: Entry)
    requires GoodEntry(created, e) && created <= others
    ensures GoodEntry(others, e)
  {
    hide Accepts, StatusEvent, ExecutedEvent;
  }

  lemma GoodCreationGrows(log: seq<Entry>, more: seq<Entry>, c: Creation, k: nat)
    requires GoodCreation(log, c, k) && log <= more
    ensures GoodCreation(more, c, k)
  {
  }

  // ---- One step ----

  lemma LoggedGood(s: Sys, e: Event, cause: Cause)
    requires forall i :: 0 <= i < |s.log| ==> GoodEntry(s.created, s.log[i])
    requires Accepts(e) ==> GoodEntry(s.created, Entry(e, cause))
    ensures s.log <= Logged(s, e, cause)
    ensures forall i :: 0 <= i < |Logged(s, e, cause)| ==> GoodEntry(s.created, Logged(s, e, cause)[i])
    ensures forall i :: 0 <= i < |Heard(s, e)| ==> GoodTask(Logged(s, e, cause), s.created, Heard(s, e)[i])
  {
  }

  /** What a matching rule yields: actions that inherit from the event, filed and queued in step. */
  lemma MadeInherit(r: Rule, e: Event, seqNo: nat, c: Choice, parent: nat, first: nat)
    ensures var made := MadeActions(r, e, seqNo, c);
            forall j :: 0 <= j < |made| ==>
              && Inherits(made[j], e)
              && Creations(made, parent)[j] == Creation(made[j], parent)
              && Queue(made, first)[j] == Tracked(made[j], Made(first + j))
  {
  }

  lemma ScanGood(setup: Setup, s: Sys, scan: Scan, c: Choice)
    requires GoodLineage(s) && scan.Scan? && scan.rules != [] && GoodJob(s.log, s.created, Job(scan, []))
    ensures var e := ScanStep(setup, s, scan, c);
            && s.created <= e.sys.created
            && (forall k :: 0 <= k < |e.sys.created| ==> GoodCreation(e.sys.log, e.sys.created[k], k))
            && (forall i :: 0 <= i < |e.next| ==> GoodTask(e.sys.log, e.sys.created, e.next[i]))
  {
    hide Draft, Inherits, Accepts, Queue, Creations, MadeActions;
    var e := ScanStep(setup, s, scan, c);
    var r := scan.rules[0];
    if Matches(r, scan.event, scan.session, setup.sprint) {
      var made := MadeActions(r, scan.event, s.seqNo, c);
      var n := |s.created|;
      assert GoodEntry(s.created, s.log[scan.entry]);
      MadeInherit(r, scan.event, s.seqNo, c, scan.entry, n);
      forall k | 0 <= k < |e.sys.created| ensures GoodCreation(e.sys.log, e.sys.created[k], k) {
        if k >= n {
          assert e.sys.created[k] == Creations(made, scan.entry)[k - n];
        }
      }
      forall j | 0 <= j < |made| ensures GoodTracked(e.sys.created, Queue(made, n)[j]) {
        assert e.sys.created[n + j] == Creations(made, scan.entry)[j];
      }
    }
  }

  /** What a task's step leaves behind, apart from the other tasks. */
  ghost predicate GoodEffect(s: Sys, e: Effect) {
    && s.log <= e.sys.log && s.created <= e.sys.created
    && (forall id :: id in e.sys.store ==>
        GoodTracked(e.sys.created, e.sys.store[id]) && e.sys.store[id].action.id == id)
    && (forall i :: 0 <= i < |e.next| ==> GoodTask(e.sys.log, e.sys.created, e.next[i]))
    && (forall i :: 0 <= i < |e.sys.log| ==> GoodEntry(e.sys.created, e.sys.log[i]))
    && (forall k :: 0 <= k < |e.sys.created| ==> GoodCreation(e.sys.log, e.sys.created[k], k))
  }

  lemma WorkingGood(setup: Setup, s: Sys, job: Job, c: Choice)
    requires GoodLineage(s) && GoodTask(s.log, s.created, Working(job))
    ensures GoodEffect(s, Advance(setup, s, Working(job), c))
  {
    if job.queue == [] && job.scan.Scan? && job.scan.rules != [] {
      ScanGood(setup, s, job.scan, c);
      var e := ScanStep(setup, s, job.scan, c);
      forall i | 0 <= i < |e.sys.log| ensures GoodEntry(e.sys.created, e.sys.log[i]) {
        GoodEntryGrows(s.created, e.sys.created, s.log[i]);
      }
    }
  }

  lemma AnnouncingGood(setup: Setup, s: Sys, topic: Topic, who: Tracked, job: Job, c: Choice)
    requires GoodLineage(s) && GoodTask(s.log, s.created, Announcing(topic, who, job))
    ensures GoodEffect(s, Advance(setup, s, Announcing(topic, who, job), c))
  {
    var ev := StatusEvent(topic, who.action, c.now);
    var e := Advance(setup, s, Announcing(topic, who, job), c);
    LoggedGood(s, ev, StatusOf(topic, who.action));
    forall i | 0 <= i < |e.next| ensures GoodTask(e.sys.log, e.sys.created, e.next[i]) {
      if i > 0 { assert e.next[i] == Heard(s, ev)[i - 1]; }
    }
    forall k | 0 <= k < |s.created| ensures GoodCreation(e.sys.log, s.created[k], k) {
      GoodCreationGrows(s.log, e.sys.log, s.created[k], k);
    }
  }

  lemma ReportingGood(setup: Setup, s: Sys, who: Tracked, end: End, c: Choice)
    requires GoodLineage(s) && GoodTask(s.log, s.created, Reporting(who, end))
    ensures GoodEffect(s, Advance(setup, s, Reporting(who, end), c))
  {
    var ev := ExecutedEvent(who.action, end, c.now);
    var e := Advance(setup, s, Reporting(who, end), c);
    LoggedGood(s, ev, ExecutionOf(who));
    forall k | 0 <= k < |s.created| ensures GoodCreation(e.sys.log, s.created[k], k) {
      GoodCreationGrows(s.log, e.sys.log, s.created[k], k);
    }
  }

  lemma AdvanceGood(setup: Setup, s: Sys, t: Task, c: Choice)
    requires GoodLineage(s) && GoodTask(s.log, s.created, t)
    ensures GoodEffect(s, Advance(setup, s, t, c))
  {
    match t {
      case Handling(entry, e) =>
      case Working(job) => WorkingGood(setup, s, job, c);
      case Announcing(topic, who, job) => AnnouncingGood(setup, s, topic, who, job, c);
      case Launching(who, job) =>
      case Executing(who) =>
      case Reporting(who, end) => ReportingGood(setup, s, who, end, c);
    }
  }

  lemma ReplaceGood(s: Sys, i: nat, e: Effect)
    requires GoodLineage(s) && i < |s.tasks| && GoodEffect(s, e)
    ensures GoodLineage(Replace(s, i, e))
  {
    var z := Replace(s, i, e);
    forall j | 0 <= j < |z.tasks| ensures GoodTask(z.log, z.created, z.tasks[j]) {
      if i <= j < i + |e.next| {
        assert z.tasks[j] == e.next[j - i];
      } else {
        var t := s.tasks[if j < i then j else j - |e.next| + 1];
        assert z.tasks[j] == t;
        GoodTaskGrows(s.log, z.log, s.created, z.created, t);
      }
    }
  }

  lemma EmitGood(s: Sys, e: Event)
    requires GoodLineage(s)
    ensures GoodLineage(s.(log := Logged(s, e, Outside), tasks := s.tasks + Heard(s, e)))
  {
    var z := s.(log := Logged(s, e, Outside), tasks := s.tasks + Heard(s, e));
    LoggedGood(s, e, Outside);
    forall j | 0 <= j < |z.tasks| ensures GoodTask(z.log, z.created, z.tasks[j]) {
      if j < |s.tasks| {
        GoodTaskGrows(s.log, z.log, s.created, z.created, s.tasks[j]);
      }
    }
    forall k | 0 <= k < |s.created| ensures GoodCreation(z.log, s.created[k], k) {
      GoodCreationGrows(s.log, z.log, s.created[k], k);
    }
  }

  lemma SettleGood(s: Sys, id: string, status: Status, topic: Topic)
    requires GoodLineage(s)
    ensures GoodLineage(Settle(s, id, status, topic))
  {
    if id in s.store {
      var z := Settle(s, id, status, topic);
      assert GoodTracked(s.created, WithStatus(s.store[id], status));
      forall j | 0 <= j < |z.tasks| ensures GoodTask(z.log, z.created, z.tasks[j]) {
        if j < |s.tasks| { assert z.tasks[j] == s.tasks[j]; }
      }
    }
  }

  lemma StepGood(setup: Setup, s: Sys, l: Label)
    requires GoodLineage(s) && Enabled(setup, s, l)
    ensures GoodLineage(Apply(setup, s, l))
  {
    match l {
      case Work(i, c) =>
        AdvanceGood(setup, s, s.tasks[i], c);
        ReplaceGood(s, i, Advance(setup, s, s.tasks[i], c));
      case Emit(e) => EmitGood(s, e);
      case Ask(_, _, _) =>
      case Approve(id) => SettleGood(s, id, Allowed, OnApprove);
      case Deny(id) => SettleGood(s, id, Denied, OnDeny);
      case Reload(_) =>
      case Track(_) =>
    }
  }

  /** The lineage of every action, event and execution is in order in every run of a process. */
  lemma {:induction false} RunGood(setup: Setup, s: Sys, labels: seq<Label>)
    requires GoodLineage(s) && CanRun(setup, s, labels)
    ensures GoodLineage(Run(setup, s, labels))
    decreases labels
  {
    if labels != [] {
      StepGood(setup, s, labels[0]);
      RunGood(setup, Apply(setup, s, labels[0]), labels[1..]);
    }
  }

  /** A fresh process starts in order. */
  lemma InitGood(s: Sys)
    requires Init(s)
    ensures GoodLineage(s)
  {
  }

  // ---- Chains ----

  /** Creation `k` answers the end of an execution of creation `j`. */
  ghost predicate Follows(s: Sys, j: nat, k: nat) {
    && k < |s.created| && s.created[k].parent < |s.log|
    && s.log[s.created[k].parent].cause.ExecutionOf?
    && s.log[s.created[k].parent].cause.who.origin == Made(j)
  }

  /** A chain of creations starting with one for the event logged at `root`. */
  ghost predicate Chain(s: Sys, root: nat, ks: seq<nat>) {
    && ks != [] && ks[0] < |s.created| && s.created[ks[0]].parent == root
    && forall i :: 0 < i < |ks| ==> Follows(s, ks[i - 1], ks[i])
  }

  /** Depth and trace of one generation come from the one before. */
  lemma FollowsInherits(s: Sys, j: nat, k: nat)
    requires GoodLineage(s) && Follows(s, j, k)
    ensures j < k
    ensures s.created[k].action.depth == s.created[j].action.depth + 1
    ensures s.created[k].action.sessionId == s.created[j].action.sessionId
    ensures s.created[j].action.traceId != "" ==> s.created[k].action.traceId == s.created[j].action.traceId
  {
    var e := s.log[s.created[k].parent];
    assert GoodCreation(s.log, s.created[k], k) && GoodEntry(s.created, e);
    var end, now :| e.event == ExecutedEvent(e.cause.who.action, end, now);
  }

  lemma TraceNotEmpty(e: Event)
    requires ValidEvent(e)
    ensures TraceOf(e) != ""
  {
  }

  /** The i-th action of a chain has the root's depth plus i, the root's trace (its id when it has
      no trace) and the root's session. */
  lemma {:induction false} ChainFromRoot(s: Sys, root: nat, ks: seq<nat>, i: nat)
    requires GoodLineage(s) && Chain(s, root, ks) && i < |ks|
    ensures root < |s.log| && ks[i] < |s.created|
    ensures var a, e := s.created[ks[i]].action, s.log[root].event;
            a.depth == e.depth + i + 1 && a.traceId == TraceOf(e) && a.sessionId == e.sessionId && a.traceId != ""
  {
    assert GoodCreation(s.log, s.created[ks[0]], ks[0]);
    assert GoodEntry(s.created, s.log[root]);
    TraceNotEmpty(s.log[root].event);
    if i > 0 {
      ChainFromRoot(s, root, ks, i - 1);
      FollowsInherits(s, ks[i - 1], ks[i]);
    }
  }

  /** Every action the engine creates ends a chain whose root no created action caused. */
  lemma {:induction false} RootOf(s: Sys, k: nat) returns (root: nat, ks: seq<nat>)
    requires GoodLineage(s) && k < |s.created|
    ensures Chain(s, root, ks) && ks[|ks| - 1] == k && root < |s.log|
    ensures !(s.log[root].cause.ExecutionOf? && s.log[root].cause.who.origin.Made?)
    decreases k
  {
    assert GoodCreation(s.log, s.created[k], k);
    root, ks := s.created[k].parent, [k];
    var cause := s.log[root].cause;
    if cause.ExecutionOf? && cause.who.origin.Made? {
      var j := cause.who.origin.index;
      assert Follows(s, j, k);
      root, ks := RootOf(s, j);
      ks := ks + [k];
    }
  }

  // ---- Over whole runs ----

  /** The action is met: stored, on its way to the gate, announced, executing, or reported. */
  ghost predicate Met(s: Sys, t: Tracked) {
    || (exists id :: id in s.store && s.store[id] == t)
    || (exists i :: 0 <= i < |s.tasks| && Carries(s.tasks[i], t))
    || exists i :: 0 <= i < |s.log| && s.log[i].cause == ExecutionOf(t)
  }

  predicate Carries(task: Task, t: Tracked) {
    match task
    case Handling(_, _) => false
    case Working(job) => t in job.queue
    case Announcing(_, who, job) => t == who || t in job.queue
    case Launching(who, job) => t == who || t in job.queue
    case Executing(who) => t == who
    case Reporting(who, _) => t == who
  }

  lemma MetIsGood(s: Sys, t: Tracked)
    requires GoodLineage(s) && Met(s, t)
    ensures GoodTracked(s.created, t)
  {
    hide GoodTracked;
    if i :| 0 <= i < |s.tasks| && Carries(s.tasks[i], t) {
      assert GoodTask(s.log, s.created, s.tasks[i]);
    } else if i :| 0 <= i < |s.log| && s.log[i].cause == ExecutionOf(t) {
      assert GoodEntry(s.created, s.log[i]);
    }
  }

  lemma RunFromInit(setup: Setup, s: Sys, labels: seq<Label>)
    requires Init(s) && CanRun(setup, s, labels)
    ensures GoodLineage(Run(setup, s, labels))
  {
    InitGood(s);
    RunGood(setup, s, labels);
  }

  /** Wherever an action is met in a run of a process, it is, but for its status, what it was when it
      came into being: as the engine created it, a plugin asked for it, or it was restored. */
  lemma ActionsNeverChange(setup: Setup, s: Sys, labels: seq<Label>, t: Tracked)
    requires Init(s) && CanRun(setup, s, labels) && Met(Run(setup, s, labels), t)
    ensures GoodTracked(Run(setup, s, labels).created, t)
  {
    RunFromInit(setup, s, labels);
    MetIsGood(Run(setup, s, labels), t);
  }

  /** In every run of a process, the i-th action of a chain has the root's depth plus i, the root's trace
      (its id when it has no trace) and the root's session, as created and wherever it is met again:
      stored, approved later, executing or reported. */
  lemma ChainInherits(setup: Setup, s: Sys, labels: seq<Label>, root: nat, ks: seq<nat>, i: nat)
    requires Init(s) && CanRun(setup, s, labels) && Chain(Run(setup, s, labels), root, ks) && i < |ks|
    ensures var z := Run(setup, s, labels);
            && root < |z.log| && ks[i] < |z.created|
            && var e := z.log[root].event;
               && InheritsAt(z.created[ks[i]].action, e, i + 1)
               && forall t: Tracked :: t.origin == Made(ks[i]) && Met(z, t) ==> InheritsAt(t.action, e, i + 1)
  {
    hide Met, Chain;
    var z := Run(setup, s, labels);
    RunFromInit(setup, s, labels);
    ChainFromRoot(z, root, ks, i);
    forall t: Tracked | t.origin == Made(ks[i]) && Met(z, t) ensures InheritsAt(t.action, z.log[root].event, i + 1) {
      MetIsGood(z, t);
    }
  }

  /** The action is `n` generations after the event. */
  predicate InheritsAt(a: Action, e: Event, n: nat) {
    a.depth == e.depth + n && a.traceId == TraceOf(e) && a.traceId != "" && a.sessionId == e.sessionId
  }

  /** In every run of a process no action the engine creates is deeper than 21, so no chain is longer
      than its root allows. */
  lemma ChainLength(setup: Setup, s: Sys, labels: seq<Label>, root: nat, ks: seq<nat>)
    requires Init(s) && CanRun(setup, s, labels) && Chain(Run(setup, s, labels), root, ks)
    ensures var z := Run(setup, s, labels);
            && root < |z.log| && |ks| <= MAX_DEPTH + 1 - z.log[root].event.depth
            && forall k :: 0 <= k < |z.created| ==> z.created[k].action.depth <= MAX_DEPTH + 1
  {
    hide Run, CanRun;
    var z := Run(setup, s, labels);
    RunFromInit(setup, s, labels);
    forall k | 0 <= k < |z.created| ensures z.created[k].action.depth <= MAX_DEPTH + 1 {
      assert GoodCreation(z.log, z.created[k], k);
      assert GoodEntry(z.created, z.log[z.created[k].parent]);
    }
    ChainFromRoot(z, root, ks, |ks| - 1);
  }

  /** In every run of a process every action the engine creates ends a chain whose root no created
      action caused. */
  lemma EveryCreationHasARoot(setup: Setup, s: Sys, labels: seq<Label>, k: nat)
    requires Init(s) && CanRun(setup, s, labels) && k < |Run(setup, s, labels).created|
    ensures exists root, ks :: Rooted(Run(setup, s, labels), root, ks, k)
  {
    hide Run, CanRun, Chain;
    RunFromInit(setup, s, labels);
    var root, ks := RootOf(Run(setup, s, labels), k);
    assert Rooted(Run(setup, s, labels), root, ks, k);
  }

  /** A chain from a root that no created action caused to creation `k`. */
  ghost predicate Rooted(s: Sys, root: nat, ks: seq<nat>, k: nat) {
    && Chain(s, root, ks) && ks[|ks| - 1] == k && root < |s.log|
    && !(s.log[root].cause.ExecutionOf? && s.log[root].cause.who.origin.Made?)
  }

  // ---- Ids ----

  predicate HasId(id: string, ruleId: string, seqNo: nat) {
    id == ActionId(ruleId, seqNo)
  }

  /** The id was made with this number, for some rule. */
  ghost predicate Draws(id: string, seqNo: nat) {
    exists r :: HasId(id, r, seqNo)
  }

  /** The k-th creation carries the k-th number drawn. */
  ghost predicate Numbered(base: nat, s: Sys) {
    && s.seqNo == base + |s.created|
    && forall k :: 0 <= k < |s.created| ==> Draws(s.created[k].action.id, base + k + 1)
  }

  lemma ScanNumbered(setup: Setup, s: Sys, scan: Scan, c: Choice, base: nat)
    requires Numbered(base, s) && scan.Scan? && scan.rules != []
    ensures Numbered(base, ScanStep(setup, s, scan, c).sys)
  {
    hide Matches, ActionId;
    var z, r := ScanStep(setup, s, scan, c).sys, scan.rules[0];
    forall k | 0 <= k < |z.created| ensures Draws(z.created[k].action.id, base + k + 1) {
      if k < |s.created| {
        assert z.created[k] == s.created[k];
      } else {
        var made := MadeActions(r, scan.event, s.seqNo, c);
        assert z.created[k] == Creations(made, scan.entry)[k - |s.created|];
        assert HasId(z.created[k].action.id, r.id, base + k + 1);
      }
    }
  }

  lemma StepNumbered(setup: Setup, s: Sys, l: Label, base: nat)
    requires Numbered(base, s) && Enabled(setup, s, l)
    ensures Numbered(base, Apply(setup, s, l))
  {
    hide ScanStep, Numbered, Decide, StatusEvent, ExecutedEvent;
    if Scans(s, l) {
      ScanNumbered(setup, s, s.tasks[l.i].job.scan, l.choice, base);
      var e := ScanStep(setup, s, s.tasks[l.i].job.scan, l.choice);
      SameNumbers(base, e.sys, Replace(s, l.i, e));
    } else {
      OnlyScansCreate(setup, s, l);
      SameNumbers(base, s, Apply(setup, s, l));
    }
  }

  lemma SameNumbers(base: nat, s: Sys, z: Sys)
    requires Numbered(base, s) && z.seqNo == s.seqNo && z.created == s.created
    ensures Numbered(base, z)
  {
  }

  /** The step looks at a rule. */
  predicate Scans(s: Sys, l: Label) {
    && l.Work? && l.i < |s.tasks| && s.tasks[l.i].Working?
    && s.tasks[l.i].job.queue == [] && s.tasks[l.i].job.scan.Scan? && s.tasks[l.i].job.scan.rules != []
  }

  lemma OnlyScansCreate(setup: Setup, s: Sys, l: Label)
    requires Enabled(setup, s, l) && !Scans(s, l)
    ensures Apply(setup, s, l).seqNo == s.seqNo && Apply(setup, s, l).created == s.created
  {
    hide ScanStep, Decide, StatusEvent, ExecutedEvent, Accepts;
  }

  lemma {:induction false} RunNumbered(setup: Setup, s: Sys, labels: seq<Label>, base: nat)
    requires Numbered(base, s) && CanRun(setup, s, labels)
    ensures Numbered(base, Run(setup, s, labels))
    decreases labels
  {
    hide Numbered, Apply, Enabled;
    if labels != [] {
      StepNumbered(setup, s, labels[0], base);
      RunNumbered(setup, Apply(setup, s, labels[0]), labels[1..], base);
    }
  }

  /** In every run of a process, across all events, handlers and rules, no two actions the engine creates
      share an id, unless 2^64 numbers lie between them. */
  lemma CreatedIdsDistinct(setup: Setup, s: Sys, labels: seq<Label>, j: nat, k: nat)
    requires Init(s) && CanRun(setup, s, labels) && j < k < |Run(setup, s, labels).created| && k - j < TWO64
    ensures Run(setup, s, labels).created[j].action.id != Run(setup, s, labels).created[k].action.id
  {
    hide CanRun, Run, ActionId;
    RunNumbered(setup, s, labels, s.seqNo);
    var z := Run(setup, s, labels);
    assert Draws(z.created[j].action.id, s.seqNo + j + 1) && Draws(z.created[k].action.id, s.seqNo + k + 1);
    var q :| HasId(z.created[j].action.id, q, s.seqNo + j + 1);
    var r :| HasId(z.created[k].action.id, r, s.seqNo + k + 1);
    ActionIdsDistinct(q, s.seqNo + j + 1, r, s.seqNo + k + 1);
  }
}
