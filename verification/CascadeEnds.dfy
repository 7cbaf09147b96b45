/** Cascades end, under every schedule, when actions can be ranked: a ranking that falls along every
    announcement and never rises along an execution bounds the steps and the actions to come. */
module CascadeEnds {
  import opened Prelude
  import opened Types
  import opened Workflow
  import opened Engine
  import opened Actions
  import opened Execution
  import opened Cascade
  import opened Ranks
  import opened EventBus

  /** One potential serves two bounds: the steps left, and the actions still to be created. */
  datatype Meter = Steps | Births

  function Cost(m: Meter, n: nat): nat {
    if m == Steps then n else 0
  }

  function Birth(m: Meter): nat {
    if m == Births then 1 else 0
  }

  /** How many generations an event or action of this depth can still have. */
  function Levels(depth: int): nat {
    if depth > MAX_DEPTH then 0 else MAX_DEPTH + 1 - depth
  }

  /** How many actions a list of rules can yield at most for one event. */
  function Fanout(rules: seq<Rule>): nat {
    if rules == [] then 0 else |GetActions(rules[0])| + Fanout(rules[1..])
  }

  function ScanOf(t: Task): Scan {
    match t
    case Working(job) => job.scan
    case Announcing(_, _, job) => job.scan
    case Launching(_, job) => job.scan
    case _ => NoScan
  }

  ghost predicate Among(rules: seq<Rule>, all: seq<Rule>) {
    forall r :: r in rules ==> r in all
  }

  /** The rules a handler is still working through are all in the law, and a reported end is possible. */
  ghost predicate Obeys(law: Law, t: Task) {
    && (ScanOf(t).Scan? ==> Among(ScanOf(t).rules, law.rules))
    && (t.Reporting? ==> CanEnd(law.setup.capabilities, t.who.action, t.end))
  }

  ghost predicate SessionsMet(law: Law, sessions: Sessions) {
    forall id :: law.meets(id, Found(sessions, id))
  }

  /** The law covers the installed rules, the sessions there are, and the tasks. */
  ghost predicate Governs(law: Law, s: Sys) {
    && Among(s.rules, law.rules) && SessionsMet(law, s.sessions)
    && forall i :: 0 <= i < |s.tasks| ==> Obeys(law, s.tasks[i])
  }

  /** Bounds on the rules: `b` actions, `r` rules. */
  datatype Size = Size(b: nat, r: nat)

  ghost predicate Fits(s: Sys, z: Size) {
    Fanout(s.rules) <= z.b && |s.rules| <= z.r
  }

  function SizeOf(rules: seq<Rule>): Size {
    Size(Fanout(rules), |rules|)
  }

  // ---- The potential ----

  function Times(n: nat, x: nat): nat {
    n * x
  }

  /** What an action of rank `r` with `k` generations left is worth before it is requested: the actions
      its announcement may lead to, all of lower rank, and those its execution may lead to, none of
      higher rank and one generation on. */
  function Whole(m: Meter, z: Size, r: nat, k: nat): nat
    decreases r, k, 0
  {
    Cost(m, 5) + EventWorth(m, z, r, MAX_DEPTH) + if k == 0 then 0 else EventWorth(m, z, r + 1, k - 1)
  }

  /** What an event with this ceiling is worth, `k` being the generations left to what it leads to. */
  function EventWorth(m: Meter, z: Size, ceiling: nat, k: nat): nat
    decreases ceiling - 1, k, 2
  {
    Cost(m, z.r + 2) + if ceiling == 0 then 0 else Yield(m, z, z.b, ceiling - 1, k)
  }

  /** What `n` actions are worth before they are even created. */
  function Yield(m: Meter, z: Size, n: nat, r: nat, k: nat): nat
    decreases r, k, 1
  {
    Times(n, Birth(m) + Whole(m, z, r, k))
  }

  ghost function EndWorth(m: Meter, z: Size, law: Law, a: Action): nat {
    if a.depth > MAX_DEPTH then 0 else EventWorth(m, z, EndCeiling(law, a), Levels(a.depth + 1))
  }

  ghost function StatusWorth(m: Meter, z: Size, law: Law, topic: Topic, a: Action): nat {
    EventWorth(m, z, StatusCeiling(law, topic, a), MAX_DEPTH) + if Proceeds(topic, a) then EndWorth(m, z, law, a) else 0
  }

  ghost function AskWorth(m: Meter, z: Size, law: Law, topic: Topic, a: Action): nat {
    if Decide(law.setup.mode, a).Refused? then 0
    else Cost(m, 5) + StatusWorth(m, z, law, topic, Passed(law.setup.mode, a))
  }

  ghost function QueueWorth(m: Meter, z: Size, law: Law, topic: Topic, queue: seq<Tracked>): nat {
    if queue == [] then 0
    else AskWorth(m, z, law, topic, queue[0].action) + QueueWorth(m, z, law, topic, queue[1..])
  }

  ghost function AnswersIn(law: Law, e: Event, session: Session): Item -> bool {
    (x: Item) => Answers(law.setup, law.rules, e, x, session)
  }

  /** A handler at work has met its session. */
  ghost function MeetingCeiling(law: Law, e: Event, session: Session): nat {
    Highest(law.rank, AnswersIn(law, e, session), e.sessionId, e.depth, ItemsFrom(law.rules))
  }

  ghost function ScanWorth(m: Meter, z: Size, law: Law, scan: Scan): nat {
    if scan.NoScan? then 0
    else
      var c := MeetingCeiling(law, scan.event, scan.session);
      Cost(m, |scan.rules|) + if c == 0 then 0 else Yield(m, z, Fanout(scan.rules), c - 1, Levels(scan.event.depth + 1))
  }

  ghost function JobWorth(m: Meter, z: Size, law: Law, job: Job): nat {
    Cost(m, 1) + QueueWorth(m, z, law, RequestTopic(job), job.queue) + ScanWorth(m, z, law, job.scan)
  }

  ghost function Worth(m: Meter, z: Size, law: Law, t: Task): nat {
    match t
    case Handling(_, e) => EventWorth(m, z, EventCeiling(law, e), Levels(e.depth + 1))
    case Working(job) => JobWorth(m, z, law, job)
    case Announcing(topic, who, job) =>
      Cost(m, 4) + StatusWorth(m, z, law, topic, who.action) + JobWorth(m, z, law, job)
    case Launching(who, job) => Cost(m, 3) + EndWorth(m, z, law, who.action) + JobWorth(m, z, law, job)
    case Executing(who) => Cost(m, 2) + EndWorth(m, z, law, who.action)
    case Reporting(who, _) => Cost(m, 1) + EndWorth(m, z, law, who.action)
  }

  ghost function Price(m: Meter, z: Size, law: Law): Task -> nat {
    (t: Task) => Worth(m, z, law, t)
  }

  ghost function Potential(m: Meter, z: Size, law: Law, s: Sys): nat {
    Total(Price(m, z, law), s.tasks)
  }

  /** What a step uses up: one step, or the actions it creates. */
  function Spent(m: Meter, before: Sys, after: Sys): int {
    if m == Steps then 1 else |after.created| - |before.created|
  }

  // ---- The potential grows with the rank ----

  lemma TimesMonotone(n: nat, x: nat, y: nat)
    requires x <= y
    ensures Times(n, x) <= Times(n, y)
  {
  }

  lemma {:induction false} WholeGrows(m: Meter, z: Size, r: nat, k: nat)
    ensures Whole(m, z, r, k) <= Whole(m, z, r + 1, k)
    decreases r, k, 0
  {
    hide EventWorth, Yield;
    EventWorthGrows(m, z, r, MAX_DEPTH);
    if k > 0 { EventWorthGrows(m, z, r + 1, k - 1); }
  }

  lemma {:induction false} EventWorthGrows(m: Meter, z: Size, c: nat, k: nat)
    ensures EventWorth(m, z, c, k) <= EventWorth(m, z, c + 1, k)
    decreases c - 1, k, 1
  {
    hide Whole, Times;
    if c > 0 {
      WholeGrows(m, z, c - 1, k);
      TimesMonotone(z.b, Birth(m) + Whole(m, z, c - 1, k), Birth(m) + Whole(m, z, c, k));
    }
  }

  lemma {:induction false} WholeMonotone(m: Meter, z: Size, r: nat, q: nat, k: nat)
    requires r <= q
    ensures Whole(m, z, r, k) <= Whole(m, z, q, k)
    decreases q - r
  {
    if r < q {
      WholeGrows(m, z, r, k);
      WholeMonotone(m, z, r + 1, q, k);
    }
  }

  lemma EventWorthMonotone(m: Meter, z: Size, c: nat, d: nat, k: nat)
    requires c <= d
    ensures EventWorth(m, z, c, k) <= EventWorth(m, z, d, k)
  {
    hide Whole, Times;
    if c > 0 {
      WholeMonotone(m, z, c - 1, d - 1, k);
      TimesMonotone(z.b, Birth(m) + Whole(m, z, c - 1, k), Birth(m) + Whole(m, z, d - 1, k));
    }
  }

  /** In a ranked law an action is worth no more than its rank and depth say. */
  lemma AskWorthByRank(m: Meter, z: Size, law: Law, topic: Topic, a: Action)
    requires Ranked(law) && IsRequest(topic)
    ensures AskWorth(m, z, law, topic, a) <= Whole(m, z, law.rank(ProfileOf(a)), Levels(a.depth))
  {
    hide Ranked, StatusCeiling, EndCeiling, Decide, Yield, EventWorth;
    var r := law.rank(ProfileOf(a));
    if Decide(law.setup.mode, a).Verdict? {
      var b := Passed(law.setup.mode, a);
      RequestFalls(law, topic, a);
      EventWorthMonotone(m, z, StatusCeiling(law, topic, b), r, MAX_DEPTH);
      if b.status == Allowed && a.depth <= MAX_DEPTH {
        EndNeverRises(law, a);
        EventWorthMonotone(m, z, EndCeiling(law, b), r + 1, Levels(a.depth + 1));
      }
    }
  }

  // ---- One step ----

  lemma PriceOne(m: Meter, z: Size, law: Law, t: Task)
    ensures Total(Price(m, z, law), [t]) == Worth(m, z, law, t)
  {
    assert [t][1..] == [];
    assert Price(m, z, law)(t) == Worth(m, z, law, t);
  }

  lemma PriceTwo(m: Meter, z: Size, law: Law, t: Task, u: Task)
    ensures Total(Price(m, z, law), [t, u]) == Worth(m, z, law, t) + Worth(m, z, law, u)
  {
    assert [t, u] == [t] + [u];
    TotalConcat(Price(m, z, law), [t], [u]);
    PriceOne(m, z, law, t);
    PriceOne(m, z, law, u);
  }

  lemma HeardWorth(m: Meter, z: Size, law: Law, s: Sys, e: Event)
    ensures Total(Price(m, z, law), Heard(s, e))
         <= if e.depth <= MAX_DEPTH then EventWorth(m, z, EventCeiling(law, e), Levels(e.depth + 1)) else 0
  {
    hide EventWorth, EventCeiling;
    if Accepts(e) { PriceOne(m, z, law, Handling(|s.log|, e)); }
  }

  lemma YieldAdds(m: Meter, z: Size, n: nat, c: nat, r: nat, k: nat)
    ensures Yield(m, z, n + c, r, k) == Yield(m, z, n, r, k) + Yield(m, z, c, r, k)
  {
  }

  lemma YieldMonotone(m: Meter, z: Size, c: nat, b: nat, r: nat, k: nat)
    requires c <= b
    ensures Yield(m, z, c, r, k) <= Yield(m, z, b, r, k)
  {
  }

  /** Actions that answer an event are worth, in the queue, what the event's ceiling sets aside. */
  lemma {:induction false} QueueWorthBelow(m: Meter, z: Size, law: Law, topic: Topic, queue: seq<Tracked>, r: nat,
                                           k: nat)
    requires Ranked(law) && IsRequest(topic)
    requires forall i :: 0 <= i < |queue| ==>
               law.rank(ProfileOf(queue[i].action)) <= r && Levels(queue[i].action.depth) == k
    ensures QueueWorth(m, z, law, topic, queue) + |queue| * Birth(m) <= Yield(m, z, |queue|, r, k)
  {
    hide Ranked, AskWorth, Whole;
    if queue != [] {
      var a := queue[0].action;
      AskWorthByRank(m, z, law, topic, a);
      WholeMonotone(m, z, law.rank(ProfileOf(a)), r, k);
      QueueWorthBelow(m, z, law, topic, queue[1..], r, k);
      YieldAdds(m, z, 1, |queue| - 1, r, k);
      assert Yield(m, z, 1, r, k) == Birth(m) + Whole(m, z, r, k);
      assert |queue| * Birth(m) == Birth(m) + |queue[1..]| * Birth(m);
    }
  }

  lemma BeginPays(m: Meter, z: Size, law: Law, s: Sys, entry: nat, e: Event, session: Session)
    requires Fits(s, z) && law.meets(e.sessionId, session)
    ensures Worth(m, z, law, Working(Job(Scan(entry, e, session, s.rules), []))) + Cost(m, 1)
         <= Worth(m, z, law, Handling(entry, e))
  {
    hide EventCeiling, MeetingCeiling, Yield;
    var scan := Scan(entry, e, session, s.rules);
    var c, k := MeetingCeiling(law, e, session), Levels(e.depth + 1);
    if c > 0 { YieldMonotone(m, z, Fanout(s.rules), z.b, c - 1, k); }
    MeetingWithinEvent(law, e, session);
    EventWorthMonotone(m, z, c, EventCeiling(law, e), k);
  }

  lemma MeetingWithinEvent(law: Law, e: Event, session: Session)
    requires law.meets(e.sessionId, session)
    ensures MeetingCeiling(law, e, session) <= EventCeiling(law, e)
  {
    hide Answers, Highest;
    forall x | x in ItemsFrom(law.rules) && AnswersIn(law, e, session)(x)
      ensures law.rank(DraftedAt(x, e.sessionId, e.depth)) < EventCeiling(law, e)
    {
      CeilingCovers(law, CanAnswer(law, e), e.sessionId, e.depth, x);
    }
    HighestLeast(law.rank, AnswersIn(law, e, session), e.sessionId, e.depth, ItemsFrom(law.rules),
                 EventCeiling(law, e));
  }

  lemma RequestPays(m: Meter, z: Size, law: Law, s: Sys, job: Job)
    requires job.queue != []
    ensures Total(Price(m, z, law), RequestStep(law.setup, s, job).next) + Cost(m, 1) <= JobWorth(m, z, law, job)
  {
    hide StatusWorth, ScanWorth, Decide, Total;
    var d, rest := Decide(law.setup.mode, job.queue[0].action), job.(queue := job.queue[1..]);
    if d.Verdict? {
      PriceOne(m, z, law, Announcing(RequestTopic(job), WithStatus(job.queue[0], d.status), rest));
    } else {
      PriceNone(m, z, law);
    }
  }

  lemma PriceNone(m: Meter, z: Size, law: Law)
    ensures Total(Price(m, z, law), []) == 0
  {
  }

  /** What a matching rule yields ranks below the ceiling of the handler. */
  lemma MadeBelow(law: Law, scan: Scan, s: Sys, c: Choice)
    requires scan.Scan? && scan.rules != [] && Among(scan.rules, law.rules)
    requires Matches(scan.rules[0], scan.event, scan.session, law.setup.sprint)
    ensures var queue := Queue(MadeActions(scan.rules[0], scan.event, s.seqNo, c), |s.created|);
            forall i :: 0 <= i < |queue| ==>
              && law.rank(ProfileOf(queue[i].action)) < MeetingCeiling(law, scan.event, scan.session)
              && queue[i].action.depth == scan.event.depth + 1
  {
    hide Highest, Matches, ProfileOf, ActionId;
    var r, e := scan.rules[0], scan.event;
    var queue := Queue(MadeActions(r, e, s.seqNo, c), |s.created|);
    forall i | 0 <= i < |queue|
      ensures law.rank(ProfileOf(queue[i].action)) < MeetingCeiling(law, e, scan.session)
           && queue[i].action.depth == e.depth + 1
    {
      var x := Item(r, GetActions(r)[i]);
      ItemsFromHas(law.rules, x);
      HighestCovers(law.rank, AnswersIn(law, e, scan.session), e.sessionId, e.depth, ItemsFrom(law.rules), x);
      DraftProfile(x, e, s.seqNo + i + 1, queue[i].action.payload, c.now);
    }
  }

  lemma ScanPays(m: Meter, z: Size, law: Law, s: Sys, scan: Scan, c: Choice)
    requires scan.Scan? && scan.rules != [] && Ranked(law) && Among(scan.rules, law.rules)
    ensures var e := ScanStep(law.setup, s, scan, c);
            Total(Price(m, z, law), e.next) + Spent(m, s, e.sys) <= JobWorth(m, z, law, Job(scan, []))
  {
    hide Total, Matches, MeetingCeiling, Yield, Ranked, MadeActions, QueueWorth;
    var e, rest := ScanStep(law.setup, s, scan, c), scan.(rules := scan.rules[1..]);
    PriceOne(m, z, law, e.next[0]);
    var ceiling, k := MeetingCeiling(law, scan.event, scan.session), Levels(scan.event.depth + 1);
    var n := |GetActions(scan.rules[0])|;
    assert Fanout(scan.rules) == n + Fanout(rest.rules);
    QueueWorthNone(m, z, law, OnRequest);
    if ceiling > 0 { YieldAdds(m, z, n, Fanout(rest.rules), ceiling - 1, k); }
    if Matches(scan.rules[0], scan.event, scan.session, law.setup.sprint) {
      var made := MadeActions(scan.rules[0], scan.event, s.seqNo, c);
      var queue := Queue(made, |s.created|);
      MadeBelow(law, scan, s, c);
      if n > 0 {
        assert law.rank(ProfileOf(queue[0].action)) < ceiling;
        QueueWorthBelow(m, z, law, OnRequest, queue, ceiling - 1, k);
      }
    }
  }

  lemma QueueWorthNone(m: Meter, z: Size, law: Law, topic: Topic)
    ensures QueueWorth(m, z, law, topic, []) == 0
  {
  }

  lemma AnnouncePays(m: Meter, z: Size, law: Law, s: Sys, topic: Topic, who: Tracked, job: Job, c: Choice)
    ensures var t := Announcing(topic, who, job);
            Total(Price(m, z, law), Advance(law.setup, s, t, c).next) + Cost(m, 1) <= Worth(m, z, law, t)
  {
    hide Total, EventCeiling, StatusCeiling, EventWorth, EndWorth, JobWorth, Accepts;
    var e := StatusEvent(topic, who.action, c.now);
    var next := if Proceeds(topic, who.action) then Launching(who, job) else Working(job);
    HeardWorth(m, z, law, s, e);
    TotalConcat(Price(m, z, law), [next], Heard(s, e));
    PriceOne(m, z, law, next);
    StatusCovers(law, topic, who.action, c.now);
    EventWorthMonotone(m, z, EventCeiling(law, e), StatusCeiling(law, topic, who.action), MAX_DEPTH);
  }

  lemma ReportPays(m: Meter, z: Size, law: Law, s: Sys, who: Tracked, end: End, c: Choice)
    requires CanEnd(law.setup.capabilities, who.action, end)
    ensures var t := Reporting(who, end);
            Total(Price(m, z, law), Advance(law.setup, s, t, c).next) + Cost(m, 1) <= Worth(m, z, law, t)
  {
    hide Total, EventCeiling, EndCeiling, EventWorth, Accepts, CanEnd;
    var e := ExecutedEvent(who.action, end, c.now);
    HeardWorth(m, z, law, s, e);
    if e.depth <= MAX_DEPTH {
      EndCovers(law, who.action, end, c.now);
      EventWorthMonotone(m, z, EventCeiling(law, e), EndCeiling(law, who.action), Levels(e.depth + 1));
    }
  }

  /** Every step of every task pays for what it does out of the task's own worth. */
  lemma AdvancePays(m: Meter, z: Size, law: Law, s: Sys, t: Task, c: Choice)
    requires Ranked(law) && Fits(s, z) && SessionsMet(law, s.sessions) && Obeys(law, t)
    ensures var e := Advance(law.setup, s, t, c);
            Total(Price(m, z, law), e.next) + Spent(m, s, e.sys) <= Worth(m, z, law, t)
  {
    hide Total, Ranked, EventWorth, EndWorth, StatusWorth, Accepts, CanEnd;
    match t {
      case Handling(entry, e) =>
        var session := Found(s.sessions, e.sessionId);
        BeginPays(m, z, law, s, entry, e, session);
        PriceOne(m, z, law, Working(Job(Scan(entry, e, session, s.rules), [])));
      case Working(job) => WorkPays(m, z, law, s, job, c);
      case Announcing(topic, who, job) => AnnouncePays(m, z, law, s, topic, who, job, c);
      case Launching(who, job) => PriceTwo(m, z, law, Executing(who), Working(job));
      case Executing(who) => PriceOne(m, z, law, Reporting(who, c.end));
      case Reporting(who, end) => ReportPays(m, z, law, s, who, end, c);
    }
  }

  lemma WorkPays(m: Meter, z: Size, law: Law, s: Sys, job: Job, c: Choice)
    requires Ranked(law) && Obeys(law, Working(job))
    ensures var e := Advance(law.setup, s, Working(job), c);
            Total(Price(m, z, law), e.next) + Spent(m, s, e.sys) <= Worth(m, z, law, Working(job))
  {
    hide Total, Ranked, EventWorth, EndWorth, StatusWorth, Decide, Matches, MadeActions;
    if job.queue != [] {
      RequestPays(m, z, law, s, job);
    } else if job.scan.Scan? && job.scan.rules != [] {
      ScanPays(m, z, law, s, job.scan, c);
      assert job == Job(job.scan, []);
    } else {
      PriceNone(m, z, law);
    }
  }

  lemma AdvanceGoverned(law: Law, s: Sys, t: Task, c: Choice)
    requires Among(s.rules, law.rules) && Obeys(law, t) && Allows(law.setup, s, t, c)
    ensures var e := Advance(law.setup, s, t, c);
            && e.sys.rules == s.rules && e.sys.sessions == s.sessions && forall u :: u in e.next ==> Obeys(law, u)
  {
    hide CanEnd, Interpolated, Matches, Decide, Accepts, StatusEvent, ExecutedEvent, MadeActions;
  }

  lemma StepGoverned(law: Law, s: Sys, i: nat, c: Choice)
    requires Enabled(law.setup, s, Work(i, c)) && Governs(law, s)
    ensures var s' := Apply(law.setup, s, Work(i, c));
            Governs(law, s') && s'.rules == s.rules && s'.sessions == s.sessions
  {
    hide Obeys, Advance, Among, SessionsMet, Allows;
    var e := Advance(law.setup, s, s.tasks[i], c);
    AdvanceGoverned(law, s, s.tasks[i], c);
    var after := Replace(s, i, e);
    forall j | 0 <= j < |after.tasks| ensures Obeys(law, after.tasks[j]) {
      if i <= j < i + |e.next| {
        assert after.tasks[j] == e.next[j - i];
      } else {
        assert after.tasks[j] == s.tasks[if j < i then j else j - |e.next| + 1];
      }
    }
  }

  lemma StepPays(m: Meter, z: Size, law: Law, s: Sys, i: nat, c: Choice)
    requires Enabled(law.setup, s, Work(i, c)) && Ranked(law) && Fits(s, z) && Governs(law, s)
    ensures var s' := Apply(law.setup, s, Work(i, c));
            Potential(m, z, law, s') + Spent(m, s, s') <= Potential(m, z, law, s)
  {
    var t := s.tasks[i];
    AdvancePays(m, z, law, s, t, c);
    hide Advance, Worth;
    TotalReplace(Price(m, z, law), s.tasks, i, Advance(law.setup, s, t, c).next);
    assert Price(m, z, law)(t) == Worth(m, z, law, t);
  }

  // ---- Sessions that appear meanwhile ----

  /** A law for each state of the sessions. */
  type Laws = Sessions -> Law

  /** The sessions have grown to these. */
  ghost predicate Later(known: Sessions, more: Sessions) {
    forall id :: if id in known then id in more && more[id] == known[id] else id in more ==> FirstSeen(id, more[id])
  }

  /** What tracking can make of an unknown session id. */
  ghost predicate FirstSeen(id: string, session: Session) {
    session == Session(id, session.channel, "active", map[]) && ValidSession(session)
  }

  /** The lower law sets no more aside for anything. */
  ghost predicate Below(lo: Law, hi: Law) {
    && lo.setup == hi.setup && lo.rules == hi.rules
    && (forall p :: lo.rank(p) <= hi.rank(p))
    && (forall e :: EventCeiling(lo, e) <= EventCeiling(hi, e))
    && (forall topic, a :: StatusCeiling(lo, topic, a) <= StatusCeiling(hi, topic, a))
    && (forall a :: EndCeiling(lo, a) <= EndCeiling(hi, a))
  }

  /** Whatever sessions appear, the law for them holds, and a new session only lowers it. */
  ghost predicate Lawful(laws: Laws, setup: Setup, rules: seq<Rule>, known: Sessions) {
    forall more :: Later(known, more) ==>
      && laws(more).setup == setup && laws(more).rules == rules
      && Ranked(laws(more)) && SessionsMet(laws(more), more)
      && forall e :: Trackable(more, e) ==> Below(laws(Noted(more, e)), laws(more))
  }

  lemma LaterKnown(known: Sessions, more: Sessions, e: Event)
    requires Later(known, more)
    ensures Later(known, Noted(more, e))
  {
  }

  /** A ranking for whatever sessions are met needs no other law. */
  lemma PlainlyLawful(law: Law, known: Sessions)
    requires Ranked(law) && MeetsAll(law.meets)
    ensures Lawful((more: Sessions) => law, law.setup, law.rules, known)
  {
    hide Ranked, EventCeiling, StatusCeiling, EndCeiling;
    assert Below(law, law);
  }

  lemma EventWorthBelow(m: Meter, z: Size, lo: Law, hi: Law, e: Event)
    requires Below(lo, hi)
    ensures EventWorth(m, z, EventCeiling(lo, e), Levels(e.depth + 1))
         <= EventWorth(m, z, EventCeiling(hi, e), Levels(e.depth + 1))
  {
    hide EventCeiling, StatusCeiling, EndCeiling, EventWorth;
    EventWorthMonotone(m, z, EventCeiling(lo, e), EventCeiling(hi, e), Levels(e.depth + 1));
  }

  lemma EndWorthBelow(m: Meter, z: Size, lo: Law, hi: Law, a: Action)
    requires Below(lo, hi)
    ensures EndWorth(m, z, lo, a) <= EndWorth(m, z, hi, a)
  {
    hide EventCeiling, StatusCeiling, EndCeiling, EventWorth;
    EventWorthMonotone(m, z, EndCeiling(lo, a), EndCeiling(hi, a), Levels(a.depth + 1));
  }

  lemma StatusWorthBelow(m: Meter, z: Size, lo: Law, hi: Law, topic: Topic, a: Action)
    requires Below(lo, hi)
    ensures StatusWorth(m, z, lo, topic, a) <= StatusWorth(m, z, hi, topic, a)
  {
    hide EventCeiling, StatusCeiling, EndCeiling, EventWorth, EndWorth;
    EventWorthMonotone(m, z, StatusCeiling(lo, topic, a), StatusCeiling(hi, topic, a), MAX_DEPTH);
    EndWorthBelow(m, z, lo, hi, a);
  }

  lemma {:induction false} QueueWorthLower(m: Meter, z: Size, lo: Law, hi: Law, topic: Topic, queue: seq<Tracked>)
    requires Below(lo, hi)
    ensures QueueWorth(m, z, lo, topic, queue) <= QueueWorth(m, z, hi, topic, queue)
  {
    hide Below, StatusWorth, Decide;
    if queue != [] {
      assert lo.setup == hi.setup by { SameSetup(lo, hi); }
      var a := queue[0].action;
      if Decide(lo.setup.mode, a).Verdict? { StatusWorthBelow(m, z, lo, hi, topic, Passed(lo.setup.mode, a)); }
      QueueWorthLower(m, z, lo, hi, topic, queue[1..]);
    }
  }

  lemma SameSetup(lo: Law, hi: Law)
    requires Below(lo, hi)
    ensures lo.setup == hi.setup && lo.rules == hi.rules && forall p :: lo.rank(p) <= hi.rank(p)
  {
  }

  lemma ScanWorthBelow(m: Meter, z: Size, lo: Law, hi: Law, scan: Scan)
    requires Below(lo, hi)
    ensures ScanWorth(m, z, lo, scan) <= ScanWorth(m, z, hi, scan)
  {
    hide Below, Yield, Highest, Answers, Fanout;
    SameSetup(lo, hi);
    if scan.Scan? {
      var e := scan.event;
      var c, d, k, n := MeetingCeiling(lo, e, scan.session), MeetingCeiling(hi, e, scan.session), Levels(e.depth + 1),
                        Fanout(scan.rules);
      forall x | x in ItemsFrom(lo.rules) && AnswersIn(lo, e, scan.session)(x)
        ensures lo.rank(DraftedAt(x, e.sessionId, e.depth)) < d
      {
        HighestCovers(hi.rank, AnswersIn(hi, e, scan.session), e.sessionId, e.depth, ItemsFrom(hi.rules), x);
      }
      HighestLeast(lo.rank, AnswersIn(lo, e, scan.session), e.sessionId, e.depth, ItemsFrom(lo.rules), d);
      if c > 0 { YieldGrows(m, z, n, c - 1, d - 1, k); }
    }
  }

  lemma YieldGrows(m: Meter, z: Size, n: nat, r: nat, q: nat, k: nat)
    requires r <= q
    ensures Yield(m, z, n, r, k) <= Yield(m, z, n, q, k)
  {
    hide Whole, Times;
    WholeMonotone(m, z, r, q, k);
    TimesMonotone(n, Birth(m) + Whole(m, z, r, k), Birth(m) + Whole(m, z, q, k));
  }

  lemma WorthBelow(m: Meter, z: Size, lo: Law, hi: Law, t: Task)
    requires Below(lo, hi)
    ensures Worth(m, z, lo, t) <= Worth(m, z, hi, t)
  {
    hide Below, EventWorth, EventCeiling, EndWorth, StatusWorth, QueueWorth, ScanWorth;
    match t {
      case Handling(_, e) => EventWorthBelow(m, z, lo, hi, e);
      case Working(job) => JobWorthBelow(m, z, lo, hi, job);
      case Announcing(topic, who, job) =>
        StatusWorthBelow(m, z, lo, hi, topic, who.action);
        JobWorthBelow(m, z, lo, hi, job);
      case Launching(who, job) =>
        EndWorthBelow(m, z, lo, hi, who.action);
        JobWorthBelow(m, z, lo, hi, job);
      case Executing(who) => EndWorthBelow(m, z, lo, hi, who.action);
      case Reporting(who, _) => EndWorthBelow(m, z, lo, hi, who.action);
    }
  }

  lemma JobWorthBelow(m: Meter, z: Size, lo: Law, hi: Law, job: Job)
    requires Below(lo, hi)
    ensures JobWorth(m, z, lo, job) <= JobWorth(m, z, hi, job)
  {
    hide Below, QueueWorth, ScanWorth;
    QueueWorthLower(m, z, lo, hi, RequestTopic(job), job.queue);
    ScanWorthBelow(m, z, lo, hi, job.scan);
  }

  lemma PotentialBelow(m: Meter, z: Size, lo: Law, hi: Law, s: Sys)
    requires Below(lo, hi)
    ensures Potential(m, z, lo, s) <= Potential(m, z, hi, s)
  {
    hide Below, Worth;
    forall t | t in s.tasks ensures Price(m, z, lo)(t) <= Price(m, z, hi)(t) { WorthBelow(m, z, lo, hi, t); }
    TotalMonotone(Price(m, z, lo), Price(m, z, hi), s.tasks);
  }

  // ---- Session ids ----

  function JobIds(job: Job): set<string> {
    (if job.scan.Scan? then {job.scan.event.sessionId} else {}) + set t | t in job.queue :: t.action.sessionId
  }

  function TaskIds(t: Task): set<string> {
    match t
    case Handling(_, e) => {e.sessionId}
    case Working(job) => JobIds(job)
    case Announcing(_, who, job) => {who.action.sessionId} + JobIds(job)
    case Launching(who, job) => {who.action.sessionId} + JobIds(job)
    case Executing(who) => {who.action.sessionId}
    case Reporting(who, _) => {who.action.sessionId}
  }

  function LogIds(log: seq<Entry>): set<string> {
    set x | x in log :: x.event.sessionId
  }

  /** The session ids still to be tracked. */
  function Unknown(s: Sys): set<string> {
    LogIds(s.log) + (set t, id | t in s.tasks && id in TaskIds(t) :: id) - s.sessions.Keys
  }

  lemma AdvanceIds(setup: Setup, s: Sys, t: Task, c: Choice)
    ensures var e := Advance(setup, s, t, c);
            LogIds(e.sys.log) <= LogIds(s.log) + TaskIds(t) && forall u :: u in e.next ==> TaskIds(u) <= TaskIds(t)
  {
    hide RequestStep, ScanStep, Accepts, Found;
    if t.Working? && t.job.queue != [] {
      RequestIds(setup, s, t.job);
    } else if t.Working? && t.job.scan.Scan? && t.job.scan.rules != [] {
      ScanIds(setup, s, t.job.scan, c);
    }
  }

  lemma RequestIds(setup: Setup, s: Sys, job: Job)
    requires job.queue != []
    ensures var e := RequestStep(setup, s, job);
            e.sys.log == s.log && forall u :: u in e.next ==> TaskIds(u) <= JobIds(job)
  {
    hide Decide;
    assert job.queue[0] in job.queue && forall t :: t in job.queue[1..] ==> t in job.queue;
  }

  lemma ScanIds(setup: Setup, s: Sys, scan: Scan, c: Choice)
    requires scan.Scan? && scan.rules != []
    ensures var e := ScanStep(setup, s, scan, c);
            e.sys.log == s.log && forall u :: u in e.next ==> TaskIds(u) <= JobIds(Job(scan, []))
  {
    hide Matches, ActionId;
  }

  lemma StepIds(setup: Setup, s: Sys, i: nat, c: Choice)
    requires Enabled(setup, s, Work(i, c))
    ensures Unknown(Apply(setup, s, Work(i, c))) <= Unknown(s)
  {
    hide Advance, TaskIds, Allows;
    var e, after := Advance(setup, s, s.tasks[i], c), Apply(setup, s, Work(i, c));
    AdvanceIds(setup, s, s.tasks[i], c);
    AdvanceSessions(setup, s, s.tasks[i], c);
    forall t | t in after.tasks ensures t in s.tasks || TaskIds(t) <= TaskIds(s.tasks[i]) {
      var j :| 0 <= j < |after.tasks| && after.tasks[j] == t;
      if i <= j < i + |e.next| {
        assert t == e.next[j - i];
      } else {
        assert t == s.tasks[if j < i then j else j - |e.next| + 1];
      }
    }
  }

  lemma AdvanceSessions(setup: Setup, s: Sys, t: Task, c: Choice)
    ensures Advance(setup, s, t, c).sys.sessions == s.sessions
  {
  }

  /** Tracking leaves one id less to be tracked, and lowers the law. */
  lemma TrackPays(laws: Laws, setup: Setup, rules: seq<Rule>, known: Sessions, s: Sys, entry: nat, z: Size)
    requires Enabled(setup, s, Track(entry)) && Lawful(laws, setup, rules, known) && Later(known, s.sessions)
    requires Governs(laws(s.sessions), s)
    ensures var s' := Apply(setup, s, Track(entry));
            && Later(known, s'.sessions) && Governs(laws(s'.sessions), s')
            && |Unknown(s')| < |Unknown(s)|
            && Potential(Steps, z, laws(s'.sessions), s') <= Potential(Steps, z, laws(s.sessions), s)
            && Potential(Births, z, laws(s'.sessions), s') <= Potential(Births, z, laws(s.sessions), s)
  {
    hide Potential, Below, Later, Noted, Ranked, Governs, SessionsMet, Unknown, Trackable;
    var e := s.log[entry].event;
    var more := Noted(s.sessions, e);
    LaterKnown(known, s.sessions, e);
    var s' := s.(sessions := more);
    assert Below(laws(more), laws(s.sessions));
    StillGoverned(laws(more), laws(s.sessions), s, more);
    PotentialBelow(Steps, z, laws(more), laws(s.sessions), s);
    PotentialBelow(Births, z, laws(more), laws(s.sessions), s);
    SameTasks(Steps, z, laws(more), s, s');
    SameTasks(Births, z, laws(more), s, s');
    NewlyKnown(s, e, s', entry);
  }

  lemma StillGoverned(lo: Law, hi: Law, s: Sys, more: Sessions)
    requires Below(lo, hi) && Governs(hi, s) && SessionsMet(lo, more)
    ensures Governs(lo, s.(sessions := more))
  {
    hide Below, SessionsMet, ScanOf, CanEnd;
    SameSetup(lo, hi);
  }

  lemma SameTasks(m: Meter, z: Size, law: Law, s: Sys, s': Sys)
    requires s.tasks == s'.tasks
    ensures Potential(m, z, law, s) == Potential(m, z, law, s')
  {
  }

  lemma NewlyKnown(s: Sys, e: Event, s': Sys, entry: nat)
    requires s' == s.(sessions := Noted(s.sessions, e)) && Trackable(s.sessions, e)
    requires entry < |s.log| && s.log[entry].event == e
    ensures |Unknown(s')| < |Unknown(s)|
  {
    assert s.log[entry] in s.log;
    assert e.sessionId in Unknown(s) && Unknown(s') == Unknown(s) - {e.sessionId};
  }

  // ---- Whole cascades ----

  /** Under every schedule, whatever sessions are created meanwhile, a governed system takes at most as
      many steps, and creates at most as many actions, as its potential, and one step more for each
      session it still has to create. */
  lemma {:induction false} CascadeBounded(laws: Laws, setup: Setup, rules: seq<Rule>, known: Sessions, s: Sys,
                                          labels: seq<Label>, z: Size)
    requires CanRun(setup, s, labels) && Internal(labels) && Fits(s, z)
    requires Lawful(laws, setup, rules, known) && Later(known, s.sessions) && Governs(laws(s.sessions), s)
    ensures |labels| <= Potential(Steps, z, laws(s.sessions), s) + |Unknown(s)|
    ensures |Run(setup, s, labels).created| <= |s.created| + Potential(Births, z, laws(s.sessions), s)
    decreases labels
  {
    hide Potential, Governs, Apply, Unknown, Enabled;
    if labels != [] {
      var s' := Apply(setup, s, labels[0]);
      StepBounded(laws, setup, rules, known, s, labels[0], z);
      assert Internal(labels[1..]);
      CascadeBounded(laws, setup, rules, known, s', labels[1..], z);
    }
  }

  lemma StepBounded(laws: Laws, setup: Setup, rules: seq<Rule>, known: Sessions, s: Sys, l: Label, z: Size)
    requires Enabled(setup, s, l) && (l.Work? || l.Track?) && Fits(s, z)
    requires Lawful(laws, setup, rules, known) && Later(known, s.sessions) && Governs(laws(s.sessions), s)
    ensures var s' := Apply(setup, s, l);
            && Fits(s', z) && Later(known, s'.sessions) && Governs(laws(s'.sessions), s')
            && Potential(Steps, z, laws(s'.sessions), s') + |Unknown(s')| + 1
                 <= Potential(Steps, z, laws(s.sessions), s) + |Unknown(s)|
            && |s'.created| + Potential(Births, z, laws(s'.sessions), s')
                 <= |s.created| + Potential(Births, z, laws(s.sessions), s)
  {
    hide Potential, Governs, Unknown, Ranked, Below, SessionsMet, Advance, Allows;
    match l {
      case Work(i, c) =>
        StepPays(Steps, z, laws(s.sessions), s, i, c);
        StepPays(Births, z, laws(s.sessions), s, i, c);
        StepGoverned(laws(s.sessions), s, i, c);
        StepIds(setup, s, i, c);
        SubsetSize(Unknown(Apply(setup, s, l)), Unknown(s));
      case Track(entry) => TrackPays(laws, setup, rules, known, s, entry, z);
      case _ =>
    }
  }

  /** And if it is left alone for long enough, it comes to rest. */
  lemma {:induction false} ComesToRest(law: Law, s: Sys, z: Size) returns (labels: seq<Label>)
    requires Ranked(law) && Governs(law, s) && Fits(s, z)
    ensures Internal(labels) && CanRun(law.setup, s, labels) && Run(law.setup, s, labels).tasks == []
    decreases Potential(Steps, z, law, s)
  {
    hide Potential, Ranked, Governs, Apply, Allows;
    if s.tasks == [] {
      labels := [];
    } else {
      var c := SomeChoice(law.setup, s, s.tasks[0]);
      var l := Work(0, c);
      StepPays(Steps, z, law, s, 0, c);
      StepGoverned(law, s, 0, c);
      var more := ComesToRest(law, Apply(law.setup, s, l), z);
      RunOne(law.setup, s, l);
      RunConcat(law.setup, s, [l], more);
      labels := [l] + more;
    }
  }

  /** The cascade of one event under ranked rules: a bound on its steps and its actions for every
      schedule and whatever sessions are met, by the event's ceiling and depth alone, but for one step
      for each session still to be created. */
  lemma RankedCascadeFromEvent(law: Law, s: Sys, entry: nat, e: Event, labels: seq<Label>)
    requires Ranked(law) && MeetsAll(law.meets) && s.rules == law.rules && s.tasks == [Handling(entry, e)]
    requires CanRun(law.setup, s, labels) && Internal(labels)
    ensures |Run(law.setup, s, labels).created| - |s.created|
         <= EventWorth(Births, SizeOf(law.rules), EventCeiling(law, e), Levels(e.depth + 1))
    ensures |labels| <= EventWorth(Steps, SizeOf(law.rules), EventCeiling(law, e), Levels(e.depth + 1)) + |Unknown(s)|
  {
    hide Ranked, EventWorth, EventCeiling, CanRun, Run, Total, Fanout, Lawful, Unknown;
    PlainlyLawful(law, s.sessions);
    CascadeBounded((more: Sessions) => law, law.setup, law.rules, s.sessions, s, labels, SizeOf(law.rules));
    PriceOne(Steps, SizeOf(law.rules), law, s.tasks[0]);
    PriceOne(Births, SizeOf(law.rules), law, s.tasks[0]);
  }

  // ---- Rules that match no announcement ----

  /** No rule matches any announcement, whatever session it is matched against. */
  ghost predicate Quiet(rules: seq<Rule>, sprint: Value -> string) {
    forall r, topic, a, now, session :: r in rules && IsRequest(topic) ==>
      !Matches(r, StatusEvent(topic, a, now), session, sprint)
  }

  function Flat(): Rank {
    (p: Profile) => 0
  }

  /** Quiet rules are the special case of a ranking with a single rank. */
  lemma QuietIsRanked(setup: Setup, rules: seq<Rule>)
    requires Quiet(rules, setup.sprint)
    ensures Ranked(Plainly(setup, rules, Flat()))
  {
    hide Matches, StatusEvent, Decide;
    var law := Plainly(setup, rules, Flat());
    forall a, x, topic, now, session | Decide(setup.mode, a).Verdict? && IsRequest(topic)
      ensures !Answers(setup, rules, StatusEvent(topic, Passed(setup.mode, a), now), x, session)
    {
      ItemsFromHas(rules, x);
    }
  }

  function Pow(b: nat, k: nat): nat {
    if k == 0 then 1 else b * Pow(b, k - 1)
  }

  /** b + b^2 + ... + b^k. */
  function PowerSum(b: nat, k: nat): nat {
    if k == 0 then 0 else PowerSum(b, k - 1) + Pow(b, k)
  }

  lemma {:induction false} PowerSumShift(b: nat, k: nat)
    ensures PowerSum(b, k + 1) == b * (1 + PowerSum(b, k))
  {
    if k == 0 {
      assert Pow(b, 1) == b * Pow(b, 0);
      assert PowerSum(b, 1) == PowerSum(b, 0) + Pow(b, 1);
    } else {
      PowerSumShift(b, k - 1);
      assert PowerSum(b, k + 1) == b * (1 + PowerSum(b, k - 1)) + b * Pow(b, k);
      assert b * (1 + PowerSum(b, k - 1)) + b * Pow(b, k) == b * (1 + PowerSum(b, k - 1) + Pow(b, k));
    }
  }

  /** An action of the lowest rank with k generations left leads to b + ... + b^k actions at most. */
  lemma {:induction false} WholeIsPowerSum(z: Size, k: nat)
    ensures Whole(Births, z, 0, k) == PowerSum(z.b, k)
    decreases k, 0
  {
    hide Yield;
    if k > 0 { OneGeneration(z, k - 1); }
  }

  lemma {:induction false} OneGeneration(z: Size, k: nat)
    ensures EventWorth(Births, z, 1, k) == PowerSum(z.b, k + 1)
    decreases k, 1
  {
    hide PowerSum, Whole;
    WholeIsPowerSum(z, k);
    PowerSumShift(z.b, k);
  }

  /** The cascade of one accepted event of depth d under quiet rules: it ends under every schedule, and
      creates at most B + B^2 + ... + B^(21-d) actions, B being the number of actions over all rules,
      whatever sessions its handlers meet. */
  lemma CascadeFromEvent(setup: Setup, s: Sys, entry: nat, e: Event, labels: seq<Label>)
    requires Quiet(s.rules, setup.sprint) && s.tasks == [Handling(entry, e)] && e.depth <= MAX_DEPTH
    requires CanRun(setup, s, labels) && Internal(labels)
    ensures |Run(setup, s, labels).created| - |s.created| <= PowerSum(Fanout(s.rules), MAX_DEPTH + 1 - e.depth)
    ensures |labels| <= EventWorth(Steps, SizeOf(s.rules), 1, MAX_DEPTH - e.depth) + |Unknown(s)|
  {
    hide Quiet, CanRun, Run, PowerSum, Fanout, EventWorth, Unknown;
    var law, z, k := Plainly(setup, s.rules, Flat()), SizeOf(s.rules), MAX_DEPTH - e.depth;
    QuietIsRanked(setup, s.rules);
    RankedCascadeFromEvent(law, s, entry, e, labels);
    CeilingLeast(law, CanAnswer(law, e), e.sessionId, e.depth, 1);
    EventWorthMonotone(Steps, z, EventCeiling(law, e), 1, k);
    EventWorthMonotone(Births, z, EventCeiling(law, e), 1, k);
    OneGeneration(z, k);
  }

  // ---- Ending ----

  /** Without outside help, some number of steps is never exceeded. */
  ghost predicate Ends(setup: Setup, s: Sys) {
    exists n: nat :: NeverLonger(setup, s, n)
  }

  ghost predicate NeverLonger(setup: Setup, s: Sys, n: nat) {
    forall labels :: CanRun(setup, s, labels) && Internal(labels) ==> |labels| <= n
  }

  /** Events the bus has accepted and logged wait to be handled, and nothing else is going on. */
  ghost predicate Fresh(s: Sys, rules: seq<Rule>) {
    && s.rules == rules && Proper(s.sessions)
    && forall i :: 0 <= i < |s.tasks| ==> Waiting(s, s.tasks[i])
  }

  predicate Waiting(s: Sys, t: Task) {
    t.Handling? && Accepts(t.event) && t.entry < |s.log| && s.log[t.entry].event == t.event
  }

  lemma LawfulEnds(laws: Laws, setup: Setup, rules: seq<Rule>, s: Sys)
    requires Lawful(laws, setup, rules, s.sessions) && Governs(laws(s.sessions), s)
    ensures Ends(setup, s)
  {
    hide Lawful, Governs, CanRun, Potential, Unknown;
    var z := SizeOf(s.rules);
    var n := Potential(Steps, z, laws(s.sessions), s) + |Unknown(s)|;
    forall labels | CanRun(setup, s, labels) && Internal(labels) ensures |labels| <= n {
      CascadeBounded(laws, setup, rules, s.sessions, s, labels, z);
    }
    assert NeverLonger(setup, s, n);
  }

  lemma RankedEnds(law: Law, s: Sys)
    requires Ranked(law) && MeetsAll(law.meets) && Governs(law, s)
    ensures Ends(law.setup, s)
  {
    hide Ranked, Lawful, Governs;
    PlainlyLawful(law, s.sessions);
    LawfulEnds((more: Sessions) => law, law.setup, law.rules, s);
  }
}
