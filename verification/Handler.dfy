/** The engine and the cascade agree: whatever `HandleEvent` of internal/workflows/engine.go may
    return for an event, a handler of the cascade, left alone, creates and requests exactly that. */
module Handler {
  import opened Types
  import opened Workflow
  import opened Engine
  import opened Actions
  import opened Cascade
  import opened Runtime

  /** The actions the gate has passed a verdict on, in order. */
  function Judged(trail: seq<Mark>): seq<Action> {
    if trail == [] then []
    else Judged(trail[..|trail| - 1]) + match trail[|trail| - 1] case Decided(a) => [a] case _ => []
  }

  lemma JudgedPush(trail: seq<Mark>, m: Mark)
    ensures Judged(trail + [m]) == Judged(trail) + if m.Decided? then [m.action] else []
  {
    assert (trail + [m])[..|trail|] == trail;
  }

  /** Actions as the gate passes them on. */
  function Verdicts(mode: Mode, actions: seq<Action>): seq<Action>
    requires forall a :: a in actions ==> Decide(mode, a).Verdict?
  {
    if actions == [] then []
    else [actions[0].(status := Decide(mode, actions[0]).status)] + Verdicts(mode, actions[1..])
  }

  lemma VerdictOne(mode: Mode, a: Action)
    requires Decide(mode, a).Verdict?
    ensures Verdicts(mode, [a]) == [a.(status := Decide(mode, a).status)]
  {
    assert [a][1..] == [];
  }

  lemma {:induction false} VerdictsConcat(mode: Mode, xs: seq<Action>, ys: seq<Action>)
    requires forall a :: a in xs + ys ==> Decide(mode, a).Verdict?
    ensures (forall a :: a in xs ==> a in xs + ys) && (forall a :: a in ys ==> a in xs + ys)
    ensures Verdicts(mode, xs + ys) == Verdicts(mode, xs) + Verdicts(mode, ys)
  {
    if xs == [] {
      assert xs + ys == ys;
    } else {
      assert (xs + ys)[1..] == xs[1..] + ys;
      VerdictsConcat(mode, xs[1..], ys);
    }
  }

  /** A queue of judgeable actions. */
  predicate Judgeable(mode: Mode, actions: seq<Action>) {
    forall a :: a in actions ==> Decide(mode, a).Verdict?
  }

  function ActionsIn(queue: seq<Tracked>): (actions: seq<Action>)
    ensures |actions| == |queue|
  {
    if queue == [] then [] else [queue[0].action] + ActionsIn(queue[1..])
  }

  /** The handler at `at` has come to `job`, and these creations and verdicts have been added. */
  ghost predicate Reached(s: Sys, z: Sys, at: nat, job: Job, cs: seq<Creation>, verdicts: seq<Action>) {
    && at < |z.tasks| && z.tasks[at] == Working(job)
    && z.rules == s.rules && z.sessions == s.sessions && z.seqNo == s.seqNo + |cs|
    && z.created == s.created + cs
    && Judged(z.trail) == Judged(s.trail) + verdicts
  }

  /** Requesting one action: the verdict is recorded, the action announced, the announcement there to
      be handled, and, if it is allowed, the execution under way; the handler goes on with the rest. */
  lemma RequestOne(setup: Setup, s: Sys, at: nat, job: Job) returns (labels: seq<Label>, next: nat)
    requires at < |s.tasks| && s.tasks[at] == Working(job) && job.scan.Scan? && job.queue != []
    requires Decide(setup.mode, job.queue[0].action).Verdict?
    ensures Internal(labels) && CanRun(setup, s, labels)
    ensures Reached(s, Run(setup, s, labels), next, job.(queue := job.queue[1..]), [],
                    Verdicts(setup.mode, [job.queue[0].action]))
    ensures var z, t := Run(setup, s, labels), WithStatus(job.queue[0], Decide(setup.mode, job.queue[0].action).status);
            var e, allowed := StatusEvent(OnRequest, t.action, 1), t.action.status == Allowed;
            && z.log == s.log + [Entry(e, StatusOf(OnRequest, t.action))]
            && z.trail == s.trail + [Decided(t.action)] + (if allowed then [Launched(t.action)] else [])
            && at <= next && next + 1 < |z.tasks| && z.tasks[next + 1] == Handling(|s.log|, e)
            && (allowed ==> z.tasks[at] == Executing(t))
  {
    hide CanRun, Run, Judged, StatusEvent, Verdicts, Decide;
    var a := job.queue[0].action;
    VerdictOne(setup.mode, a);
    labels := SubmitSchedule(setup, s, at, 1);
    var t := WithStatus(job.queue[0], Decide(setup.mode, a).status);
    var allowed, rest := t.action.status == Allowed, job.(queue := job.queue[1..]);
    next := if allowed then at + 1 else at;
    JudgedPush(s.trail, Decided(t.action));
    JudgedPush(s.trail + [Decided(t.action)], Launched(t.action));
    assert s.trail + [Decided(t.action)] + [] == s.trail + [Decided(t.action)];
    AtNext(s.tasks[..at], if allowed then [Executing(t)] else [], Working(rest),
           Handling(|s.log|, StatusEvent(OnRequest, t.action, 1)), s.tasks[at + 1..]);
    assert s.created + [] == s.created;
  }

  lemma AtNext(head: seq<Task>, started: seq<Task>, t: Task, u: Task, tail: seq<Task>)
    ensures var all := head + started + [t, u] + tail;
            && all[|head| + |started|] == t && all[|head| + |started| + 1] == u
            && (started != [] ==> all[|head|] == started[0])
  {
  }

  lemma Compose(setup: Setup, s: Sys, ls: seq<Label>, ms: seq<Label>, at: nat, job: Job, next: nat, last: Job,
                cs: seq<Creation>, vs: seq<Action>, ds: seq<Creation>, ws: seq<Action>)
    requires Internal(ls) && CanRun(setup, s, ls) && Reached(s, Run(setup, s, ls), at, job, cs, vs)
    requires Internal(ms) && CanRun(setup, Run(setup, s, ls), ms)
    requires Reached(Run(setup, s, ls), Run(setup, Run(setup, s, ls), ms), next, last, ds, ws)
    ensures Internal(ls + ms) && CanRun(setup, s, ls + ms)
    ensures Reached(s, Run(setup, s, ls + ms), next, last, cs + ds, vs + ws)
  {
    hide CanRun, Run, Enabled, Apply, Judged;
    RunConcat(setup, s, ls, ms);
    var z := Run(setup, Run(setup, s, ls), ms);
    assert z.created == s.created + (cs + ds);
    assert Judged(z.trail) == Judged(s.trail) + (vs + ws);
  }

  /** A handler requests the first `n` actions of its queue in order. */
  lemma {:induction false} DrainSome(setup: Setup, s: Sys, at: nat, job: Job, n: nat)
    returns (labels: seq<Label>, next: nat)
    requires at < |s.tasks| && s.tasks[at] == Working(job) && job.scan.Scan? && n <= |job.queue|
    requires Judgeable(setup.mode, ActionsIn(job.queue[..n]))
    ensures Internal(labels) && CanRun(setup, s, labels)
    ensures Reached(s, Run(setup, s, labels), next, job.(queue := job.queue[n..]), [],
                    Verdicts(setup.mode, ActionsIn(job.queue[..n])))
    decreases n
  {
    hide Apply, Judged;
    if n == 0 {
      labels, next := [], at;
      assert job.(queue := job.queue[0..]) == job;
    } else {
      var first, rest := job.queue[0].action, job.(queue := job.queue[1..]);
      assert job.queue[..n][1..] == rest.queue[..n - 1];
      assert ActionsIn(job.queue[..n]) == [first] + ActionsIn(rest.queue[..n - 1]);
      var ls, mid := RequestOne(setup, s, at, job);
      var ms;
      ms, next := DrainSome(setup, Run(setup, s, ls), mid, rest, n - 1);
      VerdictsConcat(setup.mode, [first], ActionsIn(rest.queue[..n - 1]));
      assert rest.queue[n - 1..] == job.queue[n..];
      Compose(setup, s, ls, ms, mid, rest, next, job.(queue := job.queue[n..]), [], Verdicts(setup.mode, [first]),
              [], Verdicts(setup.mode, ActionsIn(rest.queue[..n - 1])));
      labels := ls + ms;
    }
  }

  /** The payloads of some actions, to be chosen by a step. */
  function ChoiceOf(actions: seq<Action>, now: nat): Choice {
    Pick(now).(payloads := seq(|actions|, j requires 0 <= j < |actions| => actions[j].payload))
  }

  /** What the engine may build for a rule, a step of the machine may choose. */
  lemma MadeAre(actions: seq<Action>, r: Rule, e: Event, seqNo: nat, session: Session, sprint: Value -> string,
                now: nat)
    requires ActionsFor(actions, ItemsOf(r), e, seqNo, session, sprint, now)
    ensures MadeActions(r, e, seqNo, ChoiceOf(actions, now)) == actions
    ensures PayloadsFor(ChoiceOf(actions, now).payloads, r, e, session, sprint)
  {
    hide PayloadFor, ActionId;
    var made, payloads := MadeActions(r, e, seqNo, ChoiceOf(actions, now)), ChoiceOf(actions, now).payloads;
    forall j | 0 <= j < |payloads|
      ensures PayloadFor(payloads[j], Item(r, GetActions(r)[j]), e, session, sprint)
    {
      assert ActionFor(actions[j], ItemsOf(r)[j], e, seqNo + j + 1, session, sprint, now);
    }
    forall j | 0 <= j < |actions| ensures made[j] == actions[j] {
      assert ActionFor(actions[j], ItemsOf(r)[j], e, seqNo + j + 1, session, sprint, now);
    }
  }

  lemma ActionsInQueue(made: seq<Action>, first: nat)
    ensures ActionsIn(Queue(made, first)) == made
    decreases made
  {
    if made != [] {
      assert Queue(made, first)[1..] == Queue(made[1..], first + 1);
      ActionsInQueue(made[1..], first + 1);
    }
  }

  lemma ActionsForSplit(actions: seq<Action>, items: seq<Item>, more: seq<Item>, e: Event, seqNo: nat, session: Session,
                        sprint: Value -> string, now: nat)
    requires ActionsFor(actions, items + more, e, seqNo, session, sprint, now)
    ensures |items| <= |actions|
    ensures ActionsFor(actions[..|items|], items, e, seqNo, session, sprint, now)
    ensures ActionsFor(actions[|items|..], more, e, seqNo + |items|, session, sprint, now)
  {
    hide ActionFor;
    var n := |items|;
    forall i | 0 <= i < n ensures ActionFor(actions[..n][i], items[i], e, seqNo + i + 1, session, sprint, now) {
      assert (items + more)[i] == items[i];
    }
    forall i | 0 <= i < |more| ensures ActionFor(actions[n..][i], more[i], e, seqNo + n + i + 1, session, sprint, now) {
      assert (items + more)[n + i] == more[i];
      assert seqNo + (n + i) + 1 == seqNo + n + i + 1;
    }
  }

  lemma ValidIsJudgeable(setup: Setup, made: seq<Action>)
    requires !setup.mode.UnknownMode? && forall a :: a in made ==> ValidAction(a)
    ensures Judgeable(setup.mode, made)
  {
  }

  /** The step by which a matching rule yields its actions, all at once. */
  lemma CreateAtOnce(setup: Setup, s: Sys, at: nat, scan: Scan, made: seq<Action>, now: nat) returns (l: Label)
    requires at < |s.tasks| && s.tasks[at] == Working(Job(scan, [])) && scan.Scan? && scan.rules != []
    requires !setup.mode.UnknownMode? && now != 0 && ValidRule(scan.rules[0])
    requires scan.session == Found(s.sessions, scan.event.sessionId)
    requires Matches(scan.rules[0], scan.event, scan.session, setup.sprint)
    requires ActionsFor(made, ItemsOf(scan.rules[0]), scan.event, s.seqNo, scan.session, setup.sprint, now)
    ensures l.Work? && CanRun(setup, s, [l]) && Judgeable(setup.mode, made)
    ensures var queue := Queue(made, |s.created|);
            && ActionsIn(queue) == made
            && Reached(s, Run(setup, s, [l]), at, Job(scan.(rules := scan.rules[1..]), queue),
                       Creations(made, scan.entry), [])
  {
    hide ActionsFor, Matches, MadeActions, Judged, Decide, ValidRule, PayloadsFor;
    var c := ChoiceOf(made, now);
    l := Work(at, c);
    ReplacedAt(s, at, ScanStep(setup, s, scan, c), 0);
    MadeAre(made, scan.rules[0], scan.event, s.seqNo, scan.session, setup.sprint, now);
    RunOne(setup, s, l);
    DraftsValid(made, scan.rules[0], scan.event, s.seqNo, scan.session, setup.sprint, now);
    ValidIsJudgeable(setup, made);
    ActionsInQueue(made, |s.created|);
  }

  /** One rule's share: created at once, then requested in order. */
  lemma ScanOne(setup: Setup, s: Sys, at: nat, scan: Scan, made: seq<Action>, now: nat)
    returns (labels: seq<Label>, next: nat)
    requires at < |s.tasks| && s.tasks[at] == Working(Job(scan, [])) && scan.Scan? && scan.rules != []
    requires !setup.mode.UnknownMode? && now != 0 && ValidRule(scan.rules[0])
    requires scan.session == Found(s.sessions, scan.event.sessionId)
    requires ActionsFor(made, ItemsIfMatching(scan.rules[0], scan.event, scan.session, setup.sprint), scan.event,
                        s.seqNo, scan.session, setup.sprint, now)
    ensures Internal(labels) && CanRun(setup, s, labels) && Judgeable(setup.mode, made)
    ensures Reached(s, Run(setup, s, labels), next, Job(scan.(rules := scan.rules[1..]), []),
                    Creations(made, scan.entry), Verdicts(setup.mode, made))
  {
    hide ActionsFor, Matches, Judged, Decide, ValidRule, Run, CanRun;
    var rest := Job(scan.(rules := scan.rules[1..]), []);
    if Matches(scan.rules[0], scan.event, scan.session, setup.sprint) {
      var l := CreateAtOnce(setup, s, at, scan, made, now);
      var queue := Queue(made, |s.created|);
      var job := rest.(queue := queue);
      assert queue[..|queue|] == queue && queue[|queue|..] == [];
      var ms;
      ms, next := DrainSome(setup, Run(setup, s, [l]), at, job, |queue|);
      Compose(setup, s, [l], ms, at, job, next, rest, Creations(made, scan.entry), [], [], Verdicts(setup.mode, made));
      labels := [l] + ms;
      assert Creations(made, scan.entry) + [] == Creations(made, scan.entry);
      assert [] + Verdicts(setup.mode, made) == Verdicts(setup.mode, made);
    } else {
      NoActionsFor(made, scan.event, s.seqNo, scan.session, setup.sprint, now);
      PassOver(setup, s, at, scan, now);
      labels, next := [Work(at, Pick(now))], at;
      Nothing(setup.mode, scan.entry);
    }
  }

  lemma PassOver(setup: Setup, s: Sys, at: nat, scan: Scan, now: nat)
    requires at < |s.tasks| && s.tasks[at] == Working(Job(scan, [])) && scan.Scan? && scan.rules != [] && now != 0
    requires !Matches(scan.rules[0], scan.event, scan.session, setup.sprint)
    ensures CanRun(setup, s, [Work(at, Pick(now))])
    ensures Reached(s, Run(setup, s, [Work(at, Pick(now))]), at, Job(scan.(rules := scan.rules[1..]), []), [], [])
  {
    hide Matches, Judged;
    ReplacedAt(s, at, ScanStep(setup, s, scan, Pick(now)), 0);
    RunOne(setup, s, Work(at, Pick(now)));
    assert s.created + [] == s.created && Judged(s.trail) + [] == Judged(s.trail);
  }

  lemma NoActionsFor(made: seq<Action>, e: Event, seqNo: nat, session: Session, sprint: Value -> string, now: nat)
    requires ActionsFor(made, [], e, seqNo, session, sprint, now)
    ensures made == []
  {
  }

  lemma CreationsConcat(xs: seq<Action>, ys: seq<Action>, parent: nat)
    ensures Creations(xs, parent) + Creations(ys, parent) == Creations(xs + ys, parent)
  {
  }

  lemma PlanHead(rules: seq<Rule>, n: nat, e: Event, session: Session, sprint: Value -> string)
    requires n <= |rules|
    ensures n == 0 ==> Plan(rules[..n], e, session, sprint) == []
    ensures n > 0 ==> Plan(rules[..n], e, session, sprint)
                      == ItemsIfMatching(rules[0], e, session, sprint) + Plan(rules[1..][..n - 1], e, session, sprint)
  {
    if n > 0 { assert rules[..n][1..] == rules[1..][..n - 1]; }
  }

  /** The first `n` rules, in order. */
  lemma {:induction false} ScanSome(setup: Setup, s: Sys, at: nat, scan: Scan, n: nat, actions: seq<Action>, now: nat)
    returns (labels: seq<Label>, next: nat)
    requires at < |s.tasks| && s.tasks[at] == Working(Job(scan, [])) && scan.Scan? && n <= |scan.rules|
    requires !setup.mode.UnknownMode? && now != 0 && ValidRules(scan.rules)
    requires scan.session == Found(s.sessions, scan.event.sessionId)
    requires ActionsFor(actions, Plan(scan.rules[..n], scan.event, scan.session, setup.sprint), scan.event, s.seqNo,
                        scan.session, setup.sprint, now)
    ensures Internal(labels) && CanRun(setup, s, labels) && Judgeable(setup.mode, actions)
    ensures Reached(s, Run(setup, s, labels), next, Job(scan.(rules := scan.rules[n..]), []),
                    Creations(actions, scan.entry), Verdicts(setup.mode, actions))
    decreases n
  {
    hide ActionsFor, Judged, Decide, ValidRule, Creations, Verdicts, ItemsIfMatching, Plan, Run, CanRun, Matches;
    var e, session := scan.event, scan.session;
    PlanHead(scan.rules, n, e, session, setup.sprint);
    if n == 0 {
      NothingRun(setup, s);
      NoActionsFor(actions, e, s.seqNo, session, setup.sprint, now);
      labels, next := [], at;
      Nothing(setup.mode, scan.entry);
      assert scan.(rules := scan.rules[0..]) == scan;
    } else {
      var items, rest := ItemsIfMatching(scan.rules[0], e, session, setup.sprint), scan.(rules := scan.rules[1..]);
      assert rest.rules[n - 1..] == scan.rules[n..];
      ActionsForSplit(actions, items, Plan(rest.rules[..n - 1], e, session, setup.sprint), e, s.seqNo, session,
                      setup.sprint, now);
      var mine, others := actions[..|items|], actions[|items|..];
      assert actions == mine + others;
      var ls, mid := ScanOne(setup, s, at, scan, mine, now);
      var ms;
      ms, next := ScanSome(setup, Run(setup, s, ls), mid, rest, n - 1, others, now);
      VerdictsConcat(setup.mode, mine, others);
      CreationsConcat(mine, others, scan.entry);
      Compose(setup, s, ls, ms, mid, Job(rest, []), next, Job(scan.(rules := scan.rules[n..]), []),
              Creations(mine, scan.entry), Verdicts(setup.mode, mine),
              Creations(others, scan.entry), Verdicts(setup.mode, others));
      labels := ls + ms;
    }
  }

  lemma Nothing(mode: Mode, entry: nat)
    ensures Creations([], entry) == [] && Verdicts(mode, []) == []
  {
  }

  /** This schedule creates exactly these actions for the entry, and passes them to the gate in order. */
  ghost predicate Requests(setup: Setup, s: Sys, labels: seq<Label>, entry: nat, actions: seq<Action>)
    requires Judgeable(setup.mode, actions)
  {
    && Internal(labels) && CanRun(setup, s, labels)
    && var z := Run(setup, s, labels);
       && z.created == s.created + Creations(actions, entry)
       && z.seqNo == s.seqNo + |actions|
       && Judged(z.trail) == Judged(s.trail) + Verdicts(setup.mode, actions)
  }

  /** Whatever the engine may return for an event, under a mode the gate knows, the event's handler,
      left alone, creates, and hands to the gate in the same order, exactly that. */
  lemma HandlerRequestsWhatTheEngineReturns(setup: Setup, s: Sys, at: nat, entry: nat, e: Event, session: Session,
                                            actions: seq<Action>, now: nat)
    requires session == Found(s.sessions, e.sessionId)
    requires at < |s.tasks| && s.tasks[at] == Handling(entry, e) && ValidRules(s.rules)
    requires !setup.mode.UnknownMode? && now != 0
    requires ActionsFor(actions, Plan(s.rules, e, session, setup.sprint), e, s.seqNo, session, setup.sprint, now)
    ensures Judgeable(setup.mode, actions) && exists labels :: Requests(setup, s, labels, entry, actions)
  {
    hide ActionsFor, Plan, Judged, Decide, ValidRules, Creations, Verdicts, Matches, Run, CanRun;
    var scan, l, n := Scan(entry, e, session, s.rules), Work(at, Pick(now)), |s.rules|;
    BeginScan(setup, s, at, entry, e, now);
    assert s.rules[..n] == s.rules && s.rules[n..] == [];
    var ms, next := ScanSome(setup, Run(setup, s, [l]), at, scan, n, actions, now);
    Compose(setup, s, [l], ms, at, Job(scan, []), next, Job(scan.(rules := []), []), [], [],
            Creations(actions, entry), Verdicts(setup.mode, actions));
    assert [] + Creations(actions, entry) == Creations(actions, entry);
    assert [] + Verdicts(setup.mode, actions) == Verdicts(setup.mode, actions);
    assert Requests(setup, s, [l] + ms, entry, actions);
  }

  /** A handler starts on the installed rules. */
  lemma BeginScan(setup: Setup, s: Sys, at: nat, entry: nat, e: Event, now: nat)
    requires at < |s.tasks| && s.tasks[at] == Handling(entry, e) && now != 0
    ensures var l := Work(at, Pick(now));
            && CanRun(setup, s, [l])
            && Reached(s, Run(setup, s, [l]), at, Job(Scan(entry, e, Found(s.sessions, e.sessionId), s.rules), []), [],
                       [])
  {
    hide Judged;
    var l := Work(at, Pick(now));
    ReplacedAt(s, at, Advance(setup, s, s.tasks[at], l.choice), 0);
    RunOne(setup, s, l);
    assert s.created + [] == s.created && Judged(s.trail) + [] == Judged(s.trail);
  }
}
