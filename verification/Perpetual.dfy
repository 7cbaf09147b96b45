/** Cascades that never end: a cycle of actions that are sure to be answered keeps a cascade going for
    ever. For rules that cannot tell the engine's ids apart this is the only way. */
module Perpetual {
  import opened Prelude
  import opened Types
  import opened Workflow
  import opened Engine
  import opened Actions
  import opened Execution
  import opened Cascade
  import opened Ranks
  import opened CascadeEnds
  import opened Handler
  import opened EventBus

  // ---- Sure answers ----

  /** What the gate says of valid actions of a risk. */
  function StatusOn(mode: Mode, risk: Risk): Option<Status> {
    match mode
    case Dev => Some(Allowed)
    case Local => Some(DecideLocal(risk))
    case Strict => Some(DecideStrict(risk))
    case UnknownMode(_) => None
  }

  lemma VerdictByRisk(mode: Mode, a: Action)
    requires ValidAction(a)
    ensures Decide(mode, a) == match StatusOn(mode, a.risk) case None => Refused case Some(status) => Verdict(status)
  {
  }

  lemma VerdictMeansValid(mode: Mode, a: Action)
    requires Decide(mode, a).Verdict?
    ensures ValidAction(a) && StatusOn(mode, a.risk) == Some(Decide(mode, a).status)
  {
  }

  /** In this session the item answers the announcement of every action of this profile. */
  ghost predicate SureOnRequest(setup: Setup, p: Profile, x: Item, session: Session) {
    && StatusOn(setup.mode, p.risk).Some?
    && forall a, topic, now :: ProfileOf(a) == p && Decide(setup.mode, a).Verdict? && IsRequest(topic) ==>
         Matches(x.rule, StatusEvent(topic, Passed(setup.mode, a), now), session, setup.sprint)
  }

  /** In this session the execution of every action of this profile may end like this, and the item
      answers the end. */
  ghost predicate SureOnEnd(setup: Setup, p: Profile, x: Item, session: Session, end: End) {
    && StatusOn(setup.mode, p.risk) == Some(Allowed) && p.depth <= MAX_DEPTH
    && (forall a :: ProfileOf(a) == p && ValidAction(a) ==> CanEnd(setup.capabilities, a, end))
    && forall a, now :: ProfileOf(a) == p && ValidAction(a) ==>
         Matches(x.rule, ExecutedEvent(a, end, now), session, setup.sprint)
  }

  ghost predicate SurelyLeadsTo(setup: Setup, rules: seq<Rule>, session: Session, p: Profile, x: Item, d: int) {
    && x in ItemsFrom(rules)
    && ((d == 0 && SureOnRequest(setup, p, x, session))
        || (d == p.depth && exists end :: SureOnEnd(setup, p, x, session, end)))
  }

  ghost predicate SureEdge(setup: Setup, rules: seq<Rule>, session: Session, p: Profile, q: Profile) {
    exists x, d :: SurelyLeadsTo(setup, rules, session, p, x, d) && q == DraftedAt(x, p.sessionId, d)
  }

  /** A cycle of sure edges, all in one session. */
  ghost predicate SureCycle(setup: Setup, rules: seq<Rule>, session: Session, ps: seq<Profile>) {
    && |ps| >= 2 && ps[0] == ps[|ps| - 1]
    && forall i :: 0 <= i < |ps| - 1 ==> SureEdge(setup, rules, session, ps[i], ps[i + 1])
  }

  // ---- One round ----

  /** Task `at` handles an event of this session that item `x` answers with an action of profile `q`. */
  ghost predicate Ready(setup: Setup, s: Sys, at: nat, x: Item, session: Session, q: Profile) {
    && at < |s.tasks| && s.tasks[at].Handling? && ValidRules(s.rules)
    && Found(s.sessions, s.tasks[at].event.sessionId) == session
    && Answers(setup, s.rules, s.tasks[at].event, x, session)
    && Drafted(x, s.tasks[at].event) == q
  }

  /** The engine could have built this action for some event it matches. */
  ghost predicate Genuine(setup: Setup, rules: seq<Rule>, a: Action) {
    exists x, e, seqNo, session, now :: BuiltFor(setup, rules, a, x, e, seqNo, session, now)
  }

  ghost predicate BuiltFor(setup: Setup, rules: seq<Rule>, a: Action, x: Item, e: Event, seqNo: nat, session: Session,
                           now: nat) {
    Answers(setup, rules, e, x, session) && ActionFor(a, x, e, seqNo, session, setup.sprint, now)
  }

  /** Only genuine actions have been added, and the rules and sessions are the same. */
  ghost predicate Grown(setup: Setup, s: Sys, z: Sys) {
    && s.rules == z.rules && s.sessions == z.sessions && |s.created| <= |z.created|
    && forall k :: |s.created| <= k < |z.created| ==> Genuine(setup, s.rules, z.created[k].action)
  }

  /** A schedule that leads from a ready handler to the action it is ready for, waiting in its queue. */
  ghost predicate Queued(setup: Setup, s: Sys, labels: seq<Label>, at: nat, job: Job, q: Profile) {
    && Internal(labels) && CanRun(setup, s, labels)
    && var z := Run(setup, s, labels);
       && Grown(setup, s, z) && |z.created| > |s.created|
       && at < |z.tasks| && z.tasks[at] == Working(job) && job.scan.Scan? && job.queue != []
       && ValidAction(job.queue[0].action) && ProfileOf(job.queue[0].action) == q
  }

  lemma PlannedIsGenuine(setup: Setup, rules: seq<Rule>, part: seq<Rule>, made: seq<Action>, e: Event, seqNo: nat,
                         session: Session, now: nat)
    requires ActionsFor(made, Plan(part, e, session, setup.sprint), e, seqNo, session, setup.sprint, now)
    requires Among(part, rules)
    ensures forall a :: a in made ==> Genuine(setup, rules, a)
  {
    hide Matches, ActionFor;
    var items := Plan(part, e, session, setup.sprint);
    PlanSound(part, e, session, setup.sprint);
    forall i | 0 <= i < |made| ensures Genuine(setup, rules, made[i]) {
      ItemsFromHas(rules, items[i]);
      assert BuiltFor(setup, rules, made[i], items[i], e, seqNo + i + 1, session, now);
    }
  }

  lemma ReachedIsGrown(setup: Setup, s: Sys, z: Sys, at: nat, job: Job, made: seq<Action>, entry: nat, vs: seq<Action>)
    requires Reached(s, z, at, job, Creations(made, entry), vs)
    requires forall a :: a in made ==> Genuine(setup, s.rules, a)
    ensures Grown(setup, s, z) && |z.created| == |s.created| + |made|
  {
    hide Genuine;
    forall k | |s.created| <= k < |z.created| ensures Genuine(setup, s.rules, z.created[k].action) {
      assert z.created[k] == Creations(made, entry)[k - |s.created|];
      assert z.created[k].action in made;
    }
  }

  lemma GrownTwice(setup: Setup, s: Sys, y: Sys, z: Sys)
    requires Grown(setup, s, y) && Grown(setup, y, z) && y.created <= z.created
    ensures Grown(setup, s, z)
  {
    hide Genuine;
    forall k | |s.created| <= k < |z.created| ensures Genuine(setup, s.rules, z.created[k].action) {
      if k < |y.created| { assert z.created[k] == y.created[k]; }
    }
  }

  lemma RuleAt(rules: seq<Rule>, x: Item) returns (i: nat, j: nat)
    requires x in ItemsFrom(rules)
    ensures i < |rules| && rules[i] == x.rule && j < |GetActions(x.rule)| && GetActions(x.rule)[j] == x.spec
  {
    ItemsFromHas(rules, x);
    i :| 0 <= i < |rules| && rules[i] == x.rule;
    j :| 0 <= j < |GetActions(x.rule)| && GetActions(x.rule)[j] == x.spec;
  }

  /** The handler scans up to the item's rule. */
  lemma ToTheRule(setup: Setup, s: Sys, at: nat, x: Item, session: Session, q: Profile, i: nat)
    returns (labels: seq<Label>, next: nat, scan: Scan)
    requires Ready(setup, s, at, x, session, q) && !setup.mode.UnknownMode? && i < |s.rules|
    ensures Internal(labels) && CanRun(setup, s, labels)
    ensures var z := Run(setup, s, labels);
            && Grown(setup, s, z) && s.created <= z.created
            && next < |z.tasks| && z.tasks[next] == Working(Job(scan, []))
            && scan == Scan(s.tasks[at].entry, s.tasks[at].event, session, s.rules[i..])
  {
    hide Matches, Judged, Plan, ActionsFor, Run, CanRun, Genuine, Verdicts;
    var e, entry := s.tasks[at].event, s.tasks[at].entry;
    var l := Work(at, Pick(1));
    BeginScan(setup, s, at, entry, e, 1);
    var start := Scan(entry, e, session, s.rules);
    var s1 := Run(setup, s, [l]);
    var made := SomeActions(Plan(s.rules[..i], e, session, setup.sprint), e, s1.seqNo, session, setup.sprint, 1);
    PlannedIsGenuine(setup, s.rules, s.rules[..i], made, e, s1.seqNo, session, 1);
    var ms;
    ms, next := ScanSome(setup, s1, at, start, i, made, 1);
    scan := start.(rules := s.rules[i..]);
    Compose(setup, s, [l], ms, at, Job(start, []), next, Job(scan, []), [], [], Creations(made, entry),
            Verdicts(setup.mode, made));
    labels := [l] + ms;
    assert [] + Creations(made, entry) == Creations(made, entry);
    ReachedIsGrown(setup, s, Run(setup, s, labels), next, Job(scan, []), made, entry, [] + Verdicts(setup.mode, made));
  }

  lemma QueueAt(made: seq<Action>, first: nat, j: nat)
    requires j < |made|
    ensures Queue(made, first)[j..] != [] && Queue(made, first)[j..][0].action == made[j]
    ensures ActionsIn(Queue(made, first)[..j]) == made[..j]
  {
    ActionsInQueue(made[..j], first);
    assert Queue(made, first)[..j] == Queue(made[..j], first);
  }

  /** And brings the item's action to the front of its queue. */
  lemma ToTheAction(setup: Setup, s: Sys, at: nat, x: Item, scan: Scan, j: nat)
    returns (labels: seq<Label>, next: nat, job: Job)
    requires at < |s.tasks| && s.tasks[at] == Working(Job(scan, [])) && scan.Scan? && scan.rules != []
    requires scan.rules[0] == x.rule && j < |GetActions(x.rule)| && GetActions(x.rule)[j] == x.spec
    requires scan.session == Found(s.sessions, scan.event.sessionId)
    requires ValidRule(x.rule) && !setup.mode.UnknownMode? && Answers(setup, s.rules, scan.event, x, scan.session)
    ensures Queued(setup, s, labels, next, job, Drafted(x, scan.event)) && s.created <= Run(setup, s, labels).created
  {
    hide Matches, Judged, ActionsFor, Run, CanRun, Genuine, ValidRule, Verdicts, ValidAction, Decide;
    var e, session, r := scan.event, scan.session, x.rule;
    var made := SomeActions(ItemsOf(r), e, s.seqNo, session, setup.sprint, 1);
    var l := CreateAtOnce(setup, s, at, scan, made, 1);
    MadeGenuine(setup, s.rules, made, x, j, e, s.seqNo, session);
    var queue := Queue(made, |s.created|);
    var full := Job(scan.(rules := scan.rules[1..]), queue);
    QueueAt(made, |s.created|, j);
    var ms;
    ms, next := DrainSome(setup, Run(setup, s, [l]), at, full, j);
    job := full.(queue := queue[j..]);
    Compose(setup, s, [l], ms, at, full, next, job, Creations(made, scan.entry), [], [],
            Verdicts(setup.mode, ActionsIn(queue[..j])));
    labels := [l] + ms;
    assert Creations(made, scan.entry) + [] == Creations(made, scan.entry);
    ReachedIsGrown(setup, s, Run(setup, s, labels), next, job, made, scan.entry,
                   [] + Verdicts(setup.mode, ActionsIn(queue[..j])));
  }

  lemma MadeGenuine(setup: Setup, rules: seq<Rule>, made: seq<Action>, x: Item, j: nat, e: Event, seqNo: nat,
                    session: Session)
    requires ActionsFor(made, ItemsOf(x.rule), e, seqNo, session, setup.sprint, 1) && ValidRule(x.rule)
    requires j < |GetActions(x.rule)| && GetActions(x.rule)[j] == x.spec && Answers(setup, rules, e, x, session)
    ensures |made| == |GetActions(x.rule)| && ValidAction(made[j]) && ProfileOf(made[j]) == Drafted(x, e)
    ensures forall a :: a in made ==> Genuine(setup, rules, a)
  {
    hide Matches, ValidRule, ValidAction, PayloadFor, ActionId;
    DraftsValid(made, x.rule, e, seqNo, session, setup.sprint, 1);
    assert ActionFor(made[j], ItemsOf(x.rule)[j], e, seqNo + j + 1, session, setup.sprint, 1);
    ItemsFromHas(rules, x);
    forall i | 0 <= i < |made| ensures Genuine(setup, rules, made[i]) {
      ItemsFromHas(rules, ItemsOf(x.rule)[i]);
      assert BuiltFor(setup, rules, made[i], ItemsOf(x.rule)[i], e, seqNo + i + 1, session, 1);
    }
  }

  /** From a ready handler to the queued action. */
  lemma ReadyToQueued(setup: Setup, s: Sys, at: nat, x: Item, session: Session, q: Profile)
    returns (labels: seq<Label>, next: nat, job: Job)
    requires Ready(setup, s, at, x, session, q) && !setup.mode.UnknownMode?
    ensures Queued(setup, s, labels, next, job, q)
  {
    hide Run, CanRun, Genuine, Matches, ValidRule;
    var i, j := RuleAt(s.rules, x);
    var ls, mid, scan := ToTheRule(setup, s, at, x, session, q, i);
    var s1 := Run(setup, s, ls);
    assert scan.rules[0] == x.rule;
    var ms;
    ms, next, job := ToTheAction(setup, s1, mid, x, scan, j);
    RunConcat(setup, s, ls, ms);
    GrownTwice(setup, s, s1, Run(setup, s1, ms));
    labels := ls + ms;
  }

  /** A schedule that leads to a handler ready for the next profile. */
  ghost predicate Onward(setup: Setup, s: Sys, labels: seq<Label>, at: nat, x: Item, session: Session, r: Profile) {
    && Internal(labels) && CanRun(setup, s, labels)
    && Grown(setup, s, Run(setup, s, labels)) && Ready(setup, Run(setup, s, labels), at, x, session, r)
  }

  /** A queued action whose announcement is surely answered: it is announced, and a handler is ready. */
  lemma OnRequestEdge(setup: Setup, s: Sys, at: nat, job: Job, q: Profile, x: Item, session: Session)
    returns (labels: seq<Label>, next: nat)
    requires at < |s.tasks| && s.tasks[at] == Working(job) && job.scan.Scan? && job.queue != [] && ValidRules(s.rules)
    requires ValidAction(job.queue[0].action) && ProfileOf(job.queue[0].action) == q && x in ItemsFrom(s.rules)
    requires SureOnRequest(setup, q, x, session) && Found(s.sessions, q.sessionId) == session
    ensures Onward(setup, s, labels, next, x, session, DraftedAt(x, q.sessionId, 0))
    ensures Run(setup, s, labels).created == s.created
  {
    hide Run, CanRun, Genuine, Matches, Decide, ValidAction, ValidRules, Judged;
    var a := job.queue[0].action;
    VerdictByRisk(setup.mode, a);
    var first;
    labels, first := RequestOne(setup, s, at, job);
    next := first + 1;
    assert Passed(setup.mode, a) == WithStatus(job.queue[0], Decide(setup.mode, a).status).action;
    assert s.created + [] == s.created;
  }

  /** A queued action whose end is surely answered: it is executed, ends as the answer needs it, is
      reported, and a handler is ready. */
  lemma OnEndEdge(setup: Setup, s: Sys, at: nat, job: Job, q: Profile, x: Item, session: Session, end: End)
    returns (labels: seq<Label>)
    requires at < |s.tasks| && s.tasks[at] == Working(job) && job.scan.Scan? && job.queue != [] && ValidRules(s.rules)
    requires ValidAction(job.queue[0].action) && ProfileOf(job.queue[0].action) == q && x in ItemsFrom(s.rules)
    requires SureOnEnd(setup, q, x, session, end) && Found(s.sessions, q.sessionId) == session
    ensures Onward(setup, s, labels, at, x, session, DraftedAt(x, q.sessionId, q.depth))
    ensures Run(setup, s, labels).created == s.created
  {
    hide Run, CanRun, Genuine, Matches, Decide, ValidAction, ValidRules, Judged, StatusEvent, CanEnd;
    var a := job.queue[0].action;
    VerdictByRisk(setup.mode, a);
    PassedEnds(setup, a);
    var ls, next := RequestOne(setup, s, at, job);
    var t := WithStatus(job.queue[0], Allowed);
    assert Matches(x.rule, ExecutedEvent(a, end, 1), session, setup.sprint) && t.action == Passed(setup.mode, a);
    EndsAndIsHeard(setup, Run(setup, s, ls), at, t, end);
    var l := Work(at, Pick(1).(end := end));
    labels := ls + [l, l];
    RunConcat(setup, s, ls, [l, l]);
    assert ExecutedEvent(t.action, end, 1) == ExecutedEvent(a, end, 1);
    assert s.created + [] == s.created;
  }

  lemma EndsAndIsHeard(setup: Setup, s: Sys, at: nat, t: Tracked, end: End)
    requires at < |s.tasks| && s.tasks[at] == Executing(t) && t.action.depth <= MAX_DEPTH
    requires CanEnd(setup.capabilities, t.action, end)
    ensures var l := Work(at, Pick(1).(end := end));
            && CanRun(setup, s, [l, l])
            && var z := Run(setup, s, [l, l]);
               && z.rules == s.rules && z.sessions == s.sessions && z.created == s.created
               && at < |z.tasks| && z.tasks[at] == Handling(|s.log|, ExecutedEvent(t.action, end, 1))
  {
    hide CanRun, Run, Accepts, ExecutedEvent, CanEnd;
    var l := Work(at, Pick(1).(end := end));
    var s1 := Apply(setup, s, l);
    ReplacedAt(s, at, Advance(setup, s, s.tasks[at], l.choice), 0);
    assert s1.tasks[at] == Reporting(t, end);
    ExecutedAccepted(t.action, end, 1);
    ReplacedAt(s1, at, Advance(setup, s1, s1.tasks[at], l.choice), 0);
    RunOne(setup, s, l);
    RunOne(setup, s1, l);
    RunConcat(setup, s, [l], [l]);
    assert [l] + [l] == [l, l];
  }

  /** One round: a handler ready for `q`, left alone, creates such an action and more, and along a sure
      edge from `q` to `r` in its session another handler becomes ready for `r`. */
  lemma OneRound(setup: Setup, s: Sys, at: nat, x: Item, session: Session, q: Profile, r: Profile)
    returns (labels: seq<Label>, next: nat, y: Item)
    requires Ready(setup, s, at, x, session, q) && SureEdge(setup, s.rules, session, q, r)
    ensures Onward(setup, s, labels, next, y, session, r) && |Run(setup, s, labels).created| > |s.created|
  {
    hide Run, CanRun, Genuine, Matches, Ready, SureOnRequest, SureOnEnd, ValidAction;
    var d;
    y, d :| SurelyLeadsTo(setup, s.rules, session, q, y, d) && r == DraftedAt(y, q.sessionId, d);
    SureMeansKnown(setup, s.rules, session, q, y, d);
    var ls, mid, job := ReadyToQueued(setup, s, at, x, session, q);
    var s1 := Run(setup, s, ls);
    ReadyRules(setup, s, at, x, session, q);
    var ms;
    if d == 0 && SureOnRequest(setup, q, y, session) {
      ms, next := OnRequestEdge(setup, s1, mid, job, q, y, session);
    } else {
      var end :| SureOnEnd(setup, q, y, session, end);
      ms := OnEndEdge(setup, s1, mid, job, q, y, session, end);
      next := mid;
    }
    RunConcat(setup, s, ls, ms);
    GrownTwice(setup, s, s1, Run(setup, s1, ms));
    labels := ls + ms;
  }

  lemma SureMeansKnown(setup: Setup, rules: seq<Rule>, session: Session, p: Profile, x: Item, d: int)
    requires SurelyLeadsTo(setup, rules, session, p, x, d)
    ensures !setup.mode.UnknownMode?
  {
    hide Matches, Decide, CanEnd;
    if !(d == 0 && SureOnRequest(setup, p, x, session)) { var end :| SureOnEnd(setup, p, x, session, end); }
  }

  lemma ReadyRules(setup: Setup, s: Sys, at: nat, x: Item, session: Session, q: Profile)
    requires Ready(setup, s, at, x, session, q)
    ensures ValidRules(s.rules) && Found(s.sessions, q.sessionId) == session
  {
  }

  // ---- For ever ----

  /** Without outside help, at least `n` more actions can be created, all as the engine builds them. */
  ghost predicate CanCreate(setup: Setup, s: Sys, n: nat) {
    exists labels :: Creates(setup, s, labels, n)
  }

  ghost predicate Creates(setup: Setup, s: Sys, labels: seq<Label>, n: nat) {
    && |labels| >= n && Internal(labels) && CanRun(setup, s, labels)
    && Grown(setup, s, Run(setup, s, labels)) && |Run(setup, s, labels).created| >= |s.created| + n
  }

  /** A round is at least one step. */
  lemma RoundIsLonger(setup: Setup, s: Sys, labels: seq<Label>)
    requires CanRun(setup, s, labels) && Run(setup, s, labels).created != s.created
    ensures labels != []
  {
  }

  /** Round and round a sure cycle. */
  lemma {:induction false} RoundAndRound(setup: Setup, s: Sys, at: nat, x: Item, session: Session, ps: seq<Profile>,
                                         i: nat, n: nat)
    returns (labels: seq<Label>)
    requires SureCycle(setup, s.rules, session, ps) && i < |ps| - 1 && Ready(setup, s, at, x, session, ps[i])
    ensures Creates(setup, s, labels, n)
    decreases n
  {
    hide Genuine, Ready, SureEdge, Run, CanRun;
    if n == 0 {
      labels := [];
      NothingRun(setup, s);
    } else {
      var round, next, y := OneRound(setup, s, at, x, session, ps[i], ps[i + 1]);
      var s1 := Run(setup, s, round);
      RoundIsLonger(setup, s, round);
      var more := RoundAndRound(setup, s1, next, y, session, ps, if i + 1 == |ps| - 1 then 0 else i + 1, n - 1);
      RunConcat(setup, s, round, more);
      CreatedGrows(setup, s1, more);
      GrownTwice(setup, s, s1, Run(setup, s1, more));
      labels := round + more;
    }
  }

  lemma {:induction false} CreatedGrows(setup: Setup, s: Sys, labels: seq<Label>)
    requires CanRun(setup, s, labels)
    ensures s.created <= Run(setup, s, labels).created
    decreases labels
  {
    if labels != [] {
      CreatedGrowsOnce(setup, s, labels[0]);
      hide Apply, Enabled;
      CreatedGrows(setup, Apply(setup, s, labels[0]), labels[1..]);
    }
  }

  lemma CreatedGrowsOnce(setup: Setup, s: Sys, l: Label)
    requires Enabled(setup, s, l)
    ensures s.created <= Apply(setup, s, l).created
  {
    hide Allows, Accepts, Matches, Decide, StatusEvent, ExecutedEvent, MadeActions, Trackable;
  }

  /** From a handler that is ready to enter a sure cycle, any number of actions follows without any
      outside help. */
  lemma CascadeUnbounded(setup: Setup, s: Sys, at: nat, x: Item, session: Session, ps: seq<Profile>, i: nat, n: nat)
    requires SureCycle(setup, s.rules, session, ps) && i < |ps| - 1 && Ready(setup, s, at, x, session, ps[i])
    ensures CanCreate(setup, s, n)
  {
    hide SureCycle, Ready, Creates;
    var labels := RoundAndRound(setup, s, at, x, session, ps, i, n);
  }

  lemma UnboundedNeverEnds(setup: Setup, s: Sys)
    requires forall n: nat :: CanCreate(setup, s, n)
    ensures !Ends(setup, s)
  {
    hide CanRun, Grown;
    forall n: nat ensures !NeverLonger(setup, s, n) {
      assert CanCreate(setup, s, n + 1);
      var labels :| Creates(setup, s, labels, n + 1);
      assert CanRun(setup, s, labels) && Internal(labels) && |labels| > n;
    }
  }
}
