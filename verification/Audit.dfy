/** What every run of the cascade keeps: executions are backed by grants, and the published
    events account for every execution. Each law holds for every predicate on actions, so it
    holds per id, per risk, per exact action, and in total. */
module Audit {
  import opened Prelude
  import opened Types
  import opened Workflow
  import opened Execution
  import opened Actions
  import opened Cascade
  import opened EventBus

  type Pick = Action -> bool

  function One(b: bool): nat {
    if b then 1 else 0
  }

  // ---- Counters ----

  /** Gate decisions of allowed, and approvals. */
  function Grants(p: Pick): Mark -> nat {
    (m: Mark) => One((m.Granted? || (m.Decided? && m.action.status == Allowed)) && p(m.action))
  }

  function Approvals(p: Pick): Mark -> nat {
    (m: Mark) => One(m.Granted? && p(m.action))
  }

  function Launches(p: Pick): Mark -> nat {
    (m: Mark) => One(m.Launched? && p(m.action))
  }

  /** Executions whose final event the bus refused. */
  function Drops(p: Pick): Mark -> nat {
    (m: Mark) => One(m.Dropped? && p(m.action))
  }

  predicate Awaits(t: Task, p: Pick) {
    match t
    case Announcing(topic, who, _) => Proceeds(topic, who.action) && p(who.action)
    case Launching(who, _) => p(who.action)
    case _ => false
  }

  predicate Flies(t: Task, p: Pick) {
    match t
    case Launching(who, _) => p(who.action)
    case Executing(who) => p(who.action)
    case Reporting(who, _) => p(who.action)
    case _ => false
  }

  /** Granted but not started yet. */
  function AwaitLaunch(p: Pick): Task -> nat {
    (t: Task) => One(Awaits(t, p))
  }

  /** Announced as going ahead, and not finished yet. */
  function InFlight(p: Pick): Task -> nat {
    (t: Task) => One(Flies(t, p))
  }

  /** Published go-aheads: action.requested with status allowed, and action.approved. */
  function GoAheads(p: Pick): Entry -> nat {
    (e: Entry) => One(e.cause.StatusOf? && Proceeds(e.cause.topic, e.cause.subject) && p(e.cause.subject))
  }

  /** Published action.executed events of the runtime. */
  function Executions(p: Pick): Entry -> nat {
    (e: Entry) => One(e.cause.ExecutionOf? && p(e.cause.who.action))
  }

  // ---- Provenance ----

  ghost predicate Provenance(s: Sys, p: Pick) {
    Total(Grants(p), s.trail) == Total(Launches(p), s.trail) + Total(AwaitLaunch(p), s.tasks)
  }

  /** At no moment had more executions been launched than granted. */
  ghost predicate LaunchesBacked(trail: seq<Mark>, p: Pick) {
    forall n :: 0 <= n <= |trail| ==> Total(Launches(p), trail[..n]) <= Total(Grants(p), trail[..n])
  }

  lemma TotalNone<T>(f: T -> nat)
    ensures Total(f, []) == 0
  {
  }

  lemma TotalOne<T>(f: T -> nat, x: T)
    ensures Total(f, [x]) == f(x)
  {
    assert [x][1..] == [];
  }

  lemma TotalTwo<T>(f: T -> nat, x: T, y: T)
    ensures Total(f, [x, y]) == f(x) + f(y)
  {
    assert [x, y] == [x] + [y];
    TotalConcat(f, [x], [y]);
    TotalOne(f, x);
    TotalOne(f, y);
  }

  lemma HeardCounts(f: Task -> nat, s: Sys, e: Event)
    requires forall n, x :: f(Handling(n, x)) == 0
    ensures Total(f, Heard(s, e)) == 0
  {
    if Accepts(e) { TotalOne(f, Handling(|s.log|, e)); }
  }

  /** A task's step moves every count it touches by matching amounts. */
  ghost predicate Moves(s: Sys, t: Task, e: Effect, p: Pick) {
    Total(Grants(p), e.sys.trail) + Total(Launches(p), s.trail) + AwaitLaunch(p)(t)
      == Total(Grants(p), s.trail) + Total(Launches(p), e.sys.trail) + Total(AwaitLaunch(p), e.next)
  }

  lemma RequestMoves(setup: Setup, s: Sys, job: Job, p: Pick)
    requires job.queue != []
    ensures Moves(s, Working(job), RequestStep(setup, s, job), p)
  {
    var rest := job.(queue := job.queue[1..]);
    var d := Decide(setup.mode, job.queue[0].action);
    if d.Verdict? {
      var t := WithStatus(job.queue[0], d.status);
      TotalOne(AwaitLaunch(p), Announcing(RequestTopic(job), t, rest));
      TotalMark(s.trail, s.trail + [Decided(t.action)], p);
    }
  }

  lemma WorkingMoves(setup: Setup, s: Sys, job: Job, c: Choice, p: Pick)
    ensures Moves(s, Working(job), Advance(setup, s, Working(job), c), p)
  {
    hide Total, Matches, MadeActions, Decide;
    var e := Advance(setup, s, Working(job), c);
    TotalNone(AwaitLaunch(p));
    if job.queue != [] {
      RequestMoves(setup, s, job, p);
    } else if |e.next| > 0 {
      TotalOne(AwaitLaunch(p), e.next[0]);
    }
  }

  lemma AnnouncingMoves(setup: Setup, s: Sys, topic: Topic, who: Tracked, job: Job, c: Choice, p: Pick)
    ensures Moves(s, Announcing(topic, who, job), Advance(setup, s, Announcing(topic, who, job), c), p)
  {
    AnnouncingNext(AwaitLaunch(p), s, topic, who, job, c);
  }

  lemma LaunchingMoves(setup: Setup, s: Sys, who: Tracked, job: Job, c: Choice, p: Pick)
    ensures Moves(s, Launching(who, job), Advance(setup, s, Launching(who, job), c), p)
  {
    hide Total;
    TotalTwo(AwaitLaunch(p), Executing(who), Working(job));
    TotalMark(s.trail, s.trail + [Launched(who.action)], p);
  }

  lemma ReportingMoves(setup: Setup, s: Sys, who: Tracked, end: End, c: Choice, p: Pick)
    ensures Moves(s, Reporting(who, end), Advance(setup, s, Reporting(who, end), c), p)
  {
    hide Total, Accepts, ExecutedEvent;
    HeardCounts(AwaitLaunch(p), s, ExecutedEvent(who.action, end, c.now));
    TotalMark(s.trail, s.trail + [Dropped(who.action)], p);
  }

  lemma AdvanceProvenance(setup: Setup, s: Sys, t: Task, c: Choice, p: Pick)
    ensures Moves(s, t, Advance(setup, s, t, c), p)
  {
    match t {
      case Handling(_, _) => TotalOne(AwaitLaunch(p), Advance(setup, s, t, c).next[0]);
      case Working(job) => WorkingMoves(setup, s, job, c, p);
      case Announcing(topic, who, job) => AnnouncingMoves(setup, s, topic, who, job, c, p);
      case Launching(who, job) => LaunchingMoves(setup, s, who, job, c, p);
      case Executing(who) => TotalOne(AwaitLaunch(p), Reporting(who, c.end));
      case Reporting(who, end) => ReportingMoves(setup, s, who, end, c, p);
    }
  }

  lemma TotalMark(was: seq<Mark>, now: seq<Mark>, p: Pick)
    requires |now| == |was| + 1 && was == now[..|was|]
    ensures Total(Grants(p), now) == Total(Grants(p), was) + Grants(p)(now[|was|])
    ensures Total(Launches(p), now) == Total(Launches(p), was) + Launches(p)(now[|was|])
    ensures Total(Drops(p), now) == Total(Drops(p), was) + Drops(p)(now[|was|])
  {
    assert now == was + [now[|was|]];
    TotalPush(Grants(p), was, now[|was|]);
    TotalPush(Launches(p), was, now[|was|]);
    TotalPush(Drops(p), was, now[|was|]);
  }

  lemma TotalEntry(was: seq<Entry>, now: seq<Entry>, p: Pick)
    requires |now| == |was| + 1 && was == now[..|was|]
    ensures Total(GoAheads(p), now) == Total(GoAheads(p), was) + GoAheads(p)(now[|was|])
    ensures Total(Executions(p), now) == Total(Executions(p), was) + Executions(p)(now[|was|])
  {
    assert now == was + [now[|was|]];
    TotalPush(GoAheads(p), was, now[|was|]);
    TotalPush(Executions(p), was, now[|was|]);
  }

  /** What announcing leaves behind, as far as a counter that ignores handlers is concerned. */
  lemma AnnouncingNext(f: Task -> nat, s: Sys, topic: Topic, who: Tracked, job: Job, c: Choice)
    requires forall n, x :: f(Handling(n, x)) == 0
    ensures Total(f, (if Proceeds(topic, who.action) then [Launching(who, job)] else [Working(job)])
                     + Heard(s, StatusEvent(topic, who.action, c.now)))
         == if Proceeds(topic, who.action) then f(Launching(who, job)) else f(Working(job))
  {
    var next := if Proceeds(topic, who.action) then [Launching(who, job)] else [Working(job)];
    HeardCounts(f, s, StatusEvent(topic, who.action, c.now));
    TotalConcat(f, next, Heard(s, StatusEvent(topic, who.action, c.now)));
    TotalOne(f, next[0]);
  }

  lemma StepProvenance(setup: Setup, s: Sys, l: Label, p: Pick)
    requires Enabled(setup, s, l) && Provenance(s, p)
    ensures Provenance(Apply(setup, s, l), p)
  {
    hide Total, Accepts, Advance, Allows, Trackable;
    var f := AwaitLaunch(p);
    match l {
      case Work(i, c) =>
        AdvanceProvenance(setup, s, s.tasks[i], c, p);
        TotalReplace(f, s.tasks, i, Advance(setup, s, s.tasks[i], c).next);
      case Emit(e) =>
        HeardCounts(f, s, e);
        TotalConcat(f, s.tasks, Heard(s, e));
      case Ask(plugin, a, now) =>
        TotalPush(f, s.tasks, Working(Job(NoScan, [Asked(plugin, a, now)])));
      case Approve(id) =>
        if id in s.store {
          var t := WithStatus(s.store[id], Allowed);
          TotalPush(f, s.tasks, Announcing(OnApprove, t, NO_JOB));
          TotalPush(Grants(p), s.trail, Granted(t.action));
          TotalPush(Launches(p), s.trail, Granted(t.action));
        }
      case Deny(id) =>
        if id in s.store { TotalPush(f, s.tasks, Announcing(OnDeny, WithStatus(s.store[id], Denied), NO_JOB)); }
      case Reload(_) =>
      case Track(_) =>
    }
  }

  /** A trail only grows, by at most one mark a step. */
  lemma TrailGrows(setup: Setup, s: Sys, l: Label)
    requires Enabled(setup, s, l)
    ensures |Apply(setup, s, l).trail| <= |s.trail| + 1 && s.trail <= Apply(setup, s, l).trail
  {
    hide Allows, Accepts, Matches, Decide, StatusEvent, ExecutedEvent, MadeActions, Trackable;
  }

  lemma StepLaunchesBacked(setup: Setup, s: Sys, l: Label, p: Pick)
    requires Enabled(setup, s, l) && Provenance(s, p) && LaunchesBacked(s.trail, p)
    ensures LaunchesBacked(Apply(setup, s, l).trail, p)
  {
    var z := Apply(setup, s, l).trail;
    TrailGrows(setup, s, l);
    StepProvenance(setup, s, l, p);
    forall n | 0 <= n <= |z| ensures Total(Launches(p), z[..n]) <= Total(Grants(p), z[..n]) {
      if n <= |s.trail| {
        assert z[..n] == s.trail[..n];
      } else {
        assert z[..n] == z;
      }
    }
  }

  /** Over every run, the executions started and those granted but not yet started are as many as
      the grants: gate decisions of allowed, and approvals. */
  lemma {:induction false} RunProvenance(setup: Setup, s: Sys, labels: seq<Label>, p: Pick)
    requires Provenance(s, p) && CanRun(setup, s, labels)
    ensures Provenance(Run(setup, s, labels), p)
    decreases labels
  {
    if labels != [] {
      StepProvenance(setup, s, labels[0], p);
      RunProvenance(setup, Apply(setup, s, labels[0]), labels[1..], p);
    }
  }

  /** And at no moment of a run had more executions started than were granted by then. */
  lemma {:induction false} RunLaunchesBacked(setup: Setup, s: Sys, labels: seq<Label>, p: Pick)
    requires Provenance(s, p) && LaunchesBacked(s.trail, p) && CanRun(setup, s, labels)
    ensures LaunchesBacked(Run(setup, s, labels).trail, p)
    decreases labels
  {
    if labels != [] {
      StepProvenance(setup, s, labels[0], p);
      StepLaunchesBacked(setup, s, labels[0], p);
      RunLaunchesBacked(setup, Apply(setup, s, labels[0]), labels[1..], p);
    }
  }

  // ---- Modes ----

  /** What the gate can have decided in a mode. */
  ghost predicate GateObeyed(mode: Mode, trail: seq<Mark>) {
    forall m :: m in trail && m.Decided? && m.action.status == Allowed ==>
      mode == Dev || (mode == Local && m.action.risk == Low)
  }

  lemma {:induction false} RunGateObeyed(setup: Setup, s: Sys, labels: seq<Label>)
    requires GateObeyed(setup.mode, s.trail) && CanRun(setup, s, labels)
    ensures GateObeyed(setup.mode, Run(setup, s, labels).trail)
    decreases labels
  {
    hide Allows, Trackable, StatusEvent, ExecutedEvent, MadeActions, Matches;
    if labels != [] {
      var z := Apply(setup, s, labels[0]);
      TrailGrows(setup, s, labels[0]);
      forall m | m in z.trail && m.Decided? && m.action.status == Allowed
        ensures setup.mode == Dev || (setup.mode == Local && m.action.risk == Low)
      {
        if m !in s.trail { assert m == z.trail[|s.trail|]; }
      }
      RunGateObeyed(setup, z, labels[1..]);
    }
  }

  lemma FreshIsBacked(setup: Setup, s: Sys, p: Pick)
    requires Init(s)
    ensures Provenance(s, p) && LaunchesBacked(s.trail, p) && GateObeyed(setup.mode, s.trail)
  {
  }

  lemma OnlyApproved(setup: Setup, trail: seq<Mark>, p: Pick, n: nat)
    requires GateObeyed(setup.mode, trail) && n <= |trail|
    requires setup.mode == Strict || (setup.mode == Local && forall a :: p(a) ==> a.risk != Low)
    ensures Total(Grants(p), trail[..n]) <= Total(Approvals(p), trail[..n])
  {
    forall m | m in trail[..n] ensures Grants(p)(m) <= Approvals(p)(m) {
      assert m in trail;
    }
    TotalMonotone(Grants(p), Approvals(p), trail[..n]);
  }

  lemma BackedAt(trail: seq<Mark>, p: Pick, n: nat)
    requires LaunchesBacked(trail, p) && n <= |trail|
    ensures Total(Launches(p), trail[..n]) <= Total(Grants(p), trail[..n])
  {
  }

  /** In strict mode nothing executes without an approval of its own; in local mode only low-risk
      actions do. This holds at every moment of every run of a process. */
  lemma ApprovalRequired(setup: Setup, s: Sys, labels: seq<Label>, p: Pick, n: nat)
    requires Init(s) && CanRun(setup, s, labels) && n <= |Run(setup, s, labels).trail|
    requires setup.mode == Strict || (setup.mode == Local && forall a :: p(a) ==> a.risk != Low)
    ensures Total(Launches(p), Run(setup, s, labels).trail[..n])
         <= Total(Approvals(p), Run(setup, s, labels).trail[..n])
  {
    hide Run, CanRun, GateObeyed, LaunchesBacked;
    var trail := Run(setup, s, labels).trail;
    FreshIsBacked(setup, s, p);
    RunLaunchesBacked(setup, s, labels, p);
    RunGateObeyed(setup, s, labels);
    OnlyApproved(setup, trail, p, n);
    BackedAt(trail, p, n);
  }

  // ---- The audit trail ----

  ghost predicate Accounted(s: Sys, p: Pick) {
    Total(GoAheads(p), s.log)
      == Total(Executions(p), s.log) + Total(Drops(p), s.trail) + Total(InFlight(p), s.tasks)
  }

  ghost predicate ExecutionsAnnounced(log: seq<Entry>, p: Pick) {
    forall n :: 0 <= n <= |log| ==> Total(Executions(p), log[..n]) <= Total(GoAheads(p), log[..n])
  }

  ghost predicate Balances(s: Sys, t: Task, e: Effect, p: Pick) {
    Total(GoAheads(p), e.sys.log) + Total(Executions(p), s.log) + Total(Drops(p), s.trail) + InFlight(p)(t)
      == Total(GoAheads(p), s.log) + Total(Executions(p), e.sys.log) + Total(Drops(p), e.sys.trail)
         + Total(InFlight(p), e.next)
  }

  lemma WorkingBalances(setup: Setup, s: Sys, job: Job, c: Choice, p: Pick)
    ensures Balances(s, Working(job), Advance(setup, s, Working(job), c), p)
  {
    hide Total, Matches, MadeActions, Decide;
    TotalNone(InFlight(p));
    var e := Advance(setup, s, Working(job), c);
    if |e.next| > 0 { TotalOne(InFlight(p), e.next[0]); }
    if job.queue != [] && e.next != [] { TotalMark(s.trail, e.sys.trail, p); }
  }

  lemma AnnouncingBalances(setup: Setup, s: Sys, topic: Topic, who: Tracked, job: Job, c: Choice, p: Pick)
    requires c.now != 0
    ensures Balances(s, Announcing(topic, who, job), Advance(setup, s, Announcing(topic, who, job), c), p)
  {
    hide Total, Accepts, StatusEvent;
    StatusAccepted(topic, who.action, c.now);
    AnnouncingNext(InFlight(p), s, topic, who, job, c);
    TotalEntry(s.log, s.log + [Entry(StatusEvent(topic, who.action, c.now), StatusOf(topic, who.action))], p);
  }

  lemma LaunchingBalances(setup: Setup, s: Sys, who: Tracked, job: Job, c: Choice, p: Pick)
    ensures Balances(s, Launching(who, job), Advance(setup, s, Launching(who, job), c), p)
  {
    TotalTwo(InFlight(p), Executing(who), Working(job));
    TotalMark(s.trail, s.trail + [Launched(who.action)], p);
  }

  lemma ReportingBalances(setup: Setup, s: Sys, who: Tracked, end: End, c: Choice, p: Pick)
    ensures Balances(s, Reporting(who, end), Advance(setup, s, Reporting(who, end), c), p)
  {
    hide Total, Accepts, ExecutedEvent;
    var ev := ExecutedEvent(who.action, end, c.now);
    HeardCounts(InFlight(p), s, ev);
    TotalMark(s.trail, s.trail + [Dropped(who.action)], p);
    TotalEntry(s.log, s.log + [Entry(ev, ExecutionOf(who))], p);
  }

  lemma AdvanceAccounted(setup: Setup, s: Sys, t: Task, c: Choice, p: Pick)
    requires c.now != 0
    ensures Balances(s, t, Advance(setup, s, t, c), p)
  {
    match t {
      case Handling(_, _) => TotalOne(InFlight(p), Advance(setup, s, t, c).next[0]);
      case Working(job) => WorkingBalances(setup, s, job, c, p);
      case Announcing(topic, who, job) => AnnouncingBalances(setup, s, topic, who, job, c, p);
      case Launching(who, job) => LaunchingBalances(setup, s, who, job, c, p);
      case Executing(who) => TotalOne(InFlight(p), Reporting(who, c.end));
      case Reporting(who, end) => ReportingBalances(setup, s, who, end, c, p);
    }
  }

  lemma StepAccounted(setup: Setup, s: Sys, l: Label, p: Pick)
    requires Enabled(setup, s, l) && Accounted(s, p)
    ensures Accounted(Apply(setup, s, l), p)
  {
    hide Total, Accepts, Advance, Allows, Trackable;
    var f := InFlight(p);
    match l {
      case Work(i, c) =>
        AdvanceAccounted(setup, s, s.tasks[i], c, p);
        TotalReplace(f, s.tasks, i, Advance(setup, s, s.tasks[i], c).next);
      case Emit(e) =>
        HeardCounts(f, s, e);
        TotalConcat(f, s.tasks, Heard(s, e));
        TotalPush(GoAheads(p), s.log, Entry(e, Outside));
        TotalPush(Executions(p), s.log, Entry(e, Outside));
      case Ask(plugin, a, now) =>
        TotalPush(f, s.tasks, Working(Job(NoScan, [Asked(plugin, a, now)])));
      case Approve(id) =>
        if id in s.store {
          var t := WithStatus(s.store[id], Allowed);
          TotalPush(f, s.tasks, Announcing(OnApprove, t, NO_JOB));
          TotalPush(Drops(p), s.trail, Granted(t.action));
        }
      case Deny(id) =>
        if id in s.store { TotalPush(f, s.tasks, Announcing(OnDeny, WithStatus(s.store[id], Denied), NO_JOB)); }
      case Reload(_) =>
      case Track(_) =>
    }
  }

  /** A log only grows, by at most one entry a step. */
  lemma LogGrows(setup: Setup, s: Sys, l: Label)
    requires Enabled(setup, s, l)
    ensures |Apply(setup, s, l).log| <= |s.log| + 1 && s.log <= Apply(setup, s, l).log
  {
    hide Allows, Accepts, Matches, Decide, StatusEvent, ExecutedEvent, MadeActions, Trackable;
  }

  lemma StepAnnounced(setup: Setup, s: Sys, l: Label, p: Pick)
    requires Enabled(setup, s, l) && Accounted(s, p) && ExecutionsAnnounced(s.log, p)
    ensures ExecutionsAnnounced(Apply(setup, s, l).log, p)
  {
    var z := Apply(setup, s, l).log;
    LogGrows(setup, s, l);
    StepAccounted(setup, s, l, p);
    forall n | 0 <= n <= |z| ensures Total(Executions(p), z[..n]) <= Total(GoAheads(p), z[..n]) {
      if n <= |s.log| {
        assert z[..n] == s.log[..n];
      } else {
        assert z[..n] == z;
      }
    }
  }

  /** Over every run and in every prefix of the log, published executions never outnumber the
      published go-aheads before them; and the go-aheads in excess are exactly the executions in
      flight and those whose final event was too deep for the bus. */
  lemma {:induction false} RunAccounted(setup: Setup, s: Sys, labels: seq<Label>, p: Pick)
    requires Accounted(s, p) && ExecutionsAnnounced(s.log, p) && CanRun(setup, s, labels)
    ensures Accounted(Run(setup, s, labels), p) && ExecutionsAnnounced(Run(setup, s, labels).log, p)
    decreases labels
  {
    if labels != [] {
      StepAccounted(setup, s, labels[0], p);
      StepAnnounced(setup, s, labels[0], p);
      RunAccounted(setup, Apply(setup, s, labels[0]), labels[1..], p);
    }
  }

  /** Only executions deeper than the bus admits are missing from the log. */
  ghost predicate OnlyDeepDropped(trail: seq<Mark>) {
    forall m :: m in trail && m.Dropped? ==> m.action.depth > MAX_DEPTH
  }

  lemma {:induction false} RunOnlyDeepDropped(setup: Setup, s: Sys, labels: seq<Label>)
    requires OnlyDeepDropped(s.trail) && CanRun(setup, s, labels)
    ensures OnlyDeepDropped(Run(setup, s, labels).trail)
    decreases labels
  {
    if labels != [] {
      var l, z := labels[0], Apply(setup, s, labels[0]);
      TrailGrows(setup, s, l);
      forall m | m in z.trail && m.Dropped? ensures m.action.depth > MAX_DEPTH {
        if m !in s.trail {
          assert m == z.trail[|s.trail|];
          assert l.Work? && s.tasks[l.i].Reporting?;
          ExecutedAccepted(s.tasks[l.i].who.action, s.tasks[l.i].end, l.choice.now);
        }
      }
      RunOnlyDeepDropped(setup, z, labels[1..]);
    }
  }

  lemma NoneCounted<T>(f: T -> nat, xs: seq<T>)
    requires forall x :: x in xs ==> f(x) == 0
    ensures Total(f, xs) == 0
  {
    if xs != [] { NoneCounted(f, xs[1..]); }
  }

  /** A process that has come to rest published exactly one action.executed for every go-ahead,
      except for the executions deeper than 20, of which it published none. */
  lemma AuditAtRest(setup: Setup, s: Sys, labels: seq<Label>, p: Pick)
    requires Init(s) && CanRun(setup, s, labels)
    requires forall t :: t in Run(setup, s, labels).tasks ==> InFlight(p)(t) == 0
    ensures var z := Run(setup, s, labels);
            && Total(GoAheads(p), z.log) == Total(Executions(p), z.log) + Total(Drops(p), z.trail)
            && OnlyDeepDropped(z.trail)
    ensures (forall a :: p(a) ==> a.depth <= MAX_DEPTH) ==>
              Total(GoAheads(p), Run(setup, s, labels).log) == Total(Executions(p), Run(setup, s, labels).log)
  {
    var z := Run(setup, s, labels);
    RunAccounted(setup, s, labels, p);
    RunOnlyDeepDropped(setup, s, labels);
    NoneCounted(InFlight(p), z.tasks);
    if forall a :: p(a) ==> a.depth <= MAX_DEPTH {
      NoDrops(z.trail, p);
    }
  }

  lemma NoDrops(trail: seq<Mark>, p: Pick)
    requires OnlyDeepDropped(trail) && forall a :: p(a) ==> a.depth <= MAX_DEPTH
    ensures Total(Drops(p), trail) == 0
  {
    forall m | m in trail ensures Drops(p)(m) == 0 {
      assert !(m.Dropped? && p(m.action));
      assert One(m.Dropped? && p(m.action)) == 0;
      assert Drops(p)(m) == One(m.Dropped? && p(m.action));
    }
    NoneCounted(Drops(p), trail);
  }
}
