/** Exactly when cascades end. */
module EndsExactly {
  import opened Prelude
  import opened Types
  import opened Workflow
  import opened Engine
  import opened Router
  import opened Actions
  import opened Execution
  import opened Cascade
  import opened Ranks
  import opened CascadeEnds
  import opened AnswerGraph
  import opened Perpetual
  import opened EventBus

  // ---- A sure cycle has a beginning ----

  /** An action with the profile of a node of the graph. */
  lemma NodeHasAction(setup: Setup, rules: seq<Rule>, session: Session, p: Profile, q: Profile) returns (a: Action)
    requires ValidRules(rules) && SureEdge(setup, rules, session, p, q)
    ensures ValidAction(a) && ProfileOf(a) == q
  {
    hide ProfileOf, SureOnRequest, SureOnEnd, ValidRule;
    var x, d :| SurelyLeadsTo(setup, rules, session, p, x, d) && q == DraftedAt(x, p.sessionId, d);
    ItemsFromHas(rules, x);
    var e := Event("e", "k", "s", p.sessionId, "", d, map[], 1);
    a := Draft(x, e, 1, map[], 1);
    DraftValid(x, e, 1, map[], 1);
    DraftProfile(x, e, 1, map[], 1);
  }

  /** The event a sure edge starts from, for any action of its profile. */
  lemma EdgeHasEvent(setup: Setup, rules: seq<Rule>, session: Session, p: Profile, q: Profile, a: Action)
    returns (e: Event, x: Item)
    requires SureEdge(setup, rules, session, p, q) && ValidAction(a) && ProfileOf(a) == p
    ensures Answers(setup, rules, e, x, session) && Drafted(x, e) == q && Accepts(e) && e.sessionId == p.sessionId
  {
    hide Matches, ValidAction, Decide, Accepts, CanEnd;
    var d;
    x, d :| SurelyLeadsTo(setup, rules, session, p, x, d) && q == DraftedAt(x, p.sessionId, d);
    VerdictByRisk(setup.mode, a);
    if d == 0 && SureOnRequest(setup, p, x, session) {
      e := StatusEvent(OnRequest, Passed(setup.mode, a), 1);
      StatusAccepted(OnRequest, Passed(setup.mode, a), 1);
    } else {
      var end :| SureOnEnd(setup, p, x, session, end);
      e := ExecutedEvent(a, end, 1);
      ExecutedAccepted(a, end, 1);
    }
  }

  /** An event that makes tracking create the session. */
  function FirstEvent(session: Session): Event {
    Event("e", "k", session.channel, session.id, "", 0, map[], 1)
  }

  lemma FirstEventTracks(known: Sessions, id: string, session: Session)
    requires id !in known && FirstSeen(id, session)
    ensures session.id == id && id != "" && Trackable(known, FirstEvent(session))
    ensures Noted(known, FirstEvent(session)) == known[id := session]
  {
  }

  /** If a system ends, so does what it becomes by itself. */
  lemma EndsAfter(setup: Setup, s: Sys, l: Label)
    requires Enabled(setup, s, l) && (l.Work? || l.Track?) && Ends(setup, s)
    ensures Ends(setup, Apply(setup, s, l))
  {
    hide Enabled, Apply;
    var n: nat :| NeverLonger(setup, s, n);
    var z := Apply(setup, s, l);
    forall labels | CanRun(setup, z, labels) && Internal(labels) ensures |labels| <= n {
      assert ([l] + labels)[1..] == labels;
      assert CanRun(setup, s, [l] + labels) && Internal([l] + labels);
    }
    assert NeverLonger(setup, z, n);
  }

  /** In a session that exists, or that tracking can create, a sure cycle keeps some cascade going for ever. */
  lemma SureCycleNeverEnds(setup: Setup, rules: seq<Rule>, known: Sessions, session: Session, ps: seq<Profile>)
    requires ValidRules(rules) && Proper(known) && SureCycle(setup, rules, session, ps)
    requires Meetable(known, ps[0].sessionId, session)
    ensures exists s :: Fresh(s, rules) && s.sessions == known && !Ends(setup, s)
  {
    hide SureEdge, Answers, Ends, CanCreate, ValidRules, ValidAction, Accepts, FirstSeen, Trackable, FirstEvent;
    var last, id := |ps| - 1, ps[0].sessionId;
    assert SureEdge(setup, rules, session, ps[last - 1], ps[last - 1 + 1]);
    assert SureEdge(setup, rules, session, ps[0], ps[0 + 1]);
    var a := NodeHasAction(setup, rules, session, ps[last - 1], ps[last]);
    var e, x := EdgeHasEvent(setup, rules, session, ps[0], ps[1], a);
    var first := FirstEvent(session);
    var s := Sys(rules, known, 0, map[], [Handling(1, e)], [Entry(first, Outside), Entry(e, Outside)], [], []);
    assert Fresh(s, rules);
    if session == Found(known, id) {
      RoundForEver(setup, s, x, session, ps);
    } else {
      FirstEventTracks(known, id, session);
      var z := Apply(setup, s, Track(0));
      assert z == s.(sessions := known[id := session]);
      RoundForEver(setup, z, x, session, ps);
      if Ends(setup, s) { EndsAfter(setup, s, Track(0)); }
    }
  }

  lemma RoundForEver(setup: Setup, s: Sys, x: Item, session: Session, ps: seq<Profile>)
    requires SureCycle(setup, s.rules, session, ps) && Ready(setup, s, 0, x, session, ps[1])
    ensures !Ends(setup, s)
  {
    hide SureEdge, Ready, CanCreate, Ends;
    forall n: nat ensures CanCreate(setup, s, n) {
      CascadeUnbounded(setup, s, 0, x, session, ps, if |ps| == 2 then 0 else 1, n);
    }
    UnboundedNeverEnds(setup, s);
  }

  // ---- Rules that cannot tell the engine's ids apart ----

  /** The test comes out the same for every id the engine may give an action of the rule. */
  ghost predicate SameForAll(c: Condition, ruleId: string, sprint: Value -> string) {
    forall m: nat, n: nat ::
      Compare(c.operator, sprint(Text(ActionId(ruleId, m))), c.value)
        == Compare(c.operator, sprint(Text(ActionId(ruleId, n))), c.value)
  }

  ghost predicate BlindTo(r: Rule, field: string, rules: seq<Rule>, sprint: Value -> string) {
    forall i, q :: 0 <= i < |r.trigger.conditions| && r.trigger.conditions[i].field == field && q in rules ==>
      SameForAll(r.trigger.conditions[i], q.id, sprint)
  }

  /** A rule that hears the runtime's announcements, or the ends of its executions, cannot tell apart the
      ids that the engine gives the actions of one rule, which differ in a running number. */
  ghost predicate IdBlind(r: Rule, rules: seq<Rule>, sprint: Value -> string) {
    && (Hears(r, "action.requested", CORE) ==> BlindTo(r, "payload.id", rules, sprint))
    && (Hears(r, "action.executed", CORE) ==> BlindTo(r, "payload.actionId", rules, sprint))
  }

  /** Rules that do not test ids are blind to them; */
  lemma NoTestIsBlind(r: Rule, rules: seq<Rule>, sprint: Value -> string)
    requires forall i :: 0 <= i < |r.trigger.conditions| ==>
               r.trigger.conditions[i].field != "payload.id" && r.trigger.conditions[i].field != "payload.actionId"
    ensures IdBlind(r, rules, sprint)
  {
  }

  /** and so is a test of the part before the number. */
  lemma PrefixTestIsBlind(c: Condition, ruleId: string, sprint: Value -> string)
    requires c.operator == "starts_with" && |c.value| <= |"workflow-" + ruleId + "-"|
    requires forall t :: sprint(Text(t)) == t
    ensures SameForAll(c, ruleId, sprint)
  {
    var head := "workflow-" + ruleId + "-";
    forall n: nat ensures Compare(c.operator, sprint(Text(ActionId(ruleId, n))), c.value) <==> c.value <= head {
      var id := ActionId(ruleId, n);
      assert id[..|head|] == head;
      assert id[..|c.value|] == head[..|c.value|];
    }
  }

  /** Two events that differ in nothing a rule looks at but the id of one rule's action. */
  ghost predicate LookAlike(e: Event, f: Event, key: string, ruleId: string) {
    && e.kind == f.kind && e.source == f.source && e.sessionId == f.sessionId
    && e.payload - {key} == f.payload - {key} && BearsId(e, key, ruleId) && BearsId(f, key, ruleId)
  }

  ghost predicate BearsId(e: Event, key: string, ruleId: string) {
    key in e.payload && exists n: nat :: e.payload[key] == Text(ActionId(ruleId, n))
  }

  lemma SameActual(field: string, e: Event, f: Event, key: string, ruleId: string, session: Session,
                   sprint: Value -> string)
    requires LookAlike(e, f, key, ruleId) && field != "payload." + key
    ensures Actual(field, e, session, sprint) == Actual(field, f, session, sprint)
  {
    hide ActionId;
    if HasPrefix(field, "payload.") {
      var k := field[8..];
      assert field == "payload." + k;
      assert k != key;
      assert k in e.payload <==> k in e.payload - {key};
      assert k in f.payload <==> k in f.payload - {key};
      assert k in e.payload ==> e.payload[k] == (e.payload - {key})[k];
      assert k in f.payload ==> f.payload[k] == (f.payload - {key})[k];
    }
  }

  /** A field of the payload reads what is there. */
  lemma ReadsKey(key: string, e: Event, session: Session, sprint: Value -> string)
    requires key in e.payload
    ensures Actual("payload." + key, e, session, sprint) == Some(sprint(e.payload[key]))
  {
    var field := "payload." + key;
    assert field[0] == 'p' && field[8..] == key && field[..8] == "payload.";
    assert "sessionId"[0] == 's' && "session.id"[0] == 's' && "session.channel"[0] == 's' && "session.state"[0] == 's';
    assert "session.metadata."[0] == 's';
  }

  lemma SameTest(c: Condition, e: Event, f: Event, key: string, ruleId: string, session: Session,
                 sprint: Value -> string)
    requires LookAlike(e, f, key, ruleId) && (c.field == "payload." + key ==> SameForAll(c, ruleId, sprint))
    ensures Holds(c, e, session, sprint) == Holds(c, f, session, sprint)
  {
    hide ActionId, Actual, Compare;
    if c.field == "payload." + key {
      ReadsKey(key, e, session, sprint);
      ReadsKey(key, f, session, sprint);
      var m: nat :| e.payload[key] == Text(ActionId(ruleId, m));
      var n: nat :| f.payload[key] == Text(ActionId(ruleId, n));
    } else {
      SameActual(c.field, e, f, key, ruleId, session, sprint);
    }
  }

  lemma SameMatch(r: Rule, e: Event, f: Event, key: string, q: Rule, rules: seq<Rule>, session: Session,
                  sprint: Value -> string)
    requires LookAlike(e, f, key, q.id) && q in rules && BlindTo(r, "payload." + key, rules, sprint)
    requires Matches(r, e, session, sprint)
    ensures Matches(r, f, session, sprint)
  {
    hide SameForAll, Holds;
    forall i | 0 <= i < |r.trigger.conditions| ensures Holds(r.trigger.conditions[i], f, session, sprint) {
      assert r.trigger.conditions[i].field == "payload." + key ==> SameForAll(r.trigger.conditions[i], q.id, sprint);
      SameTest(r.trigger.conditions[i], e, f, key, q.id, session, sprint);
      assert Holds(r.trigger.conditions[i], e, session, sprint);
    }
  }

  /** What the engine made for one of the rules. */
  ghost predicate Ours(p: Profile, q: Rule, rules: seq<Rule>) {
    p.numbered && q in rules && p.source == "workflow:" + q.id
  }

  lemma OurId(a: Action, q: Rule, rules: seq<Rule>) returns (n: nat)
    requires Ours(ProfileOf(a), q, rules)
    ensures a.id == ActionId(q.id, n)
  {
    hide ActionId;
    var ruleId;
    ruleId, n :| a.id == ActionId(ruleId, n) && a.source == "workflow:" + ruleId;
    assert ruleId == ("workflow:" + ruleId)[9..] == ("workflow:" + q.id)[9..] == q.id;
  }

  lemma RequestsLookAlike(a: Action, b: Action, q: Rule, rules: seq<Rule>, topic: Topic, other: Topic, now: nat,
                          later: nat)
    requires ProfileOf(a) == ProfileOf(b) && a.status == b.status && IsRequest(topic) && IsRequest(other)
    requires Ours(ProfileOf(a), q, rules)
    ensures LookAlike(StatusEvent(topic, a, now), StatusEvent(other, b, later), "id", q.id)
  {
    hide ActionId, Numbered;
    var m := OurId(a, q, rules);
    var n := OurId(b, q, rules);
    StatusRest(a, b, topic, other, now, later);
  }

  lemma EndsLookAlike(a: Action, b: Action, q: Rule, rules: seq<Rule>, end: End, now: nat, later: nat)
    requires ProfileOf(a) == ProfileOf(b) && Ours(ProfileOf(a), q, rules)
    ensures LookAlike(ExecutedEvent(a, end, now), ExecutedEvent(b, end, later), "actionId", q.id)
  {
    hide ActionId, Numbered;
    var m := OurId(a, q, rules);
    var n := OurId(b, q, rules);
    EndRest(a, b, end, now, later);
  }

  lemma StatusRest(a: Action, b: Action, topic: Topic, other: Topic, now: nat, later: nat)
    requires ProfileOf(a) == ProfileOf(b) && a.status == b.status && IsRequest(topic) && IsRequest(other)
    ensures StatusEvent(topic, a, now).payload - {"id"} == StatusEvent(other, b, later).payload - {"id"}
  {
    hide Numbered;
  }

  lemma EndRest(a: Action, b: Action, end: End, now: nat, later: nat)
    requires ProfileOf(a) == ProfileOf(b)
    ensures ExecutedEvent(a, end, now).payload - {"actionId"} == ExecutedEvent(b, end, later).payload - {"actionId"}
  {
    hide Numbered;
  }

  /** If an id-blind rule can answer the announcement of one action of ours, it answers those of all like it. */
  lemma BlindRequest(setup: Setup, rules: seq<Rule>, id: string, session: Session, p: Profile, q: Rule, x: Item)
    requires IdBlind(x.rule, rules, setup.sprint) && Ours(p, q, rules)
    requires AnswersRequest(setup, rules, Only(id, session), p, x)
    ensures SureOnRequest(setup, p, x, session)
  {
    hide Decide, ValidAction, LookAlike, StatusEvent, BlindTo, IdBlind, ProfileOf, Matches;
    var a, topic, now, met :|
      && ProfileOf(a) == p && Decide(setup.mode, a).Verdict? && IsRequest(topic) && Only(id, session)(p.sessionId, met)
      && Answers(setup, rules, StatusEvent(topic, Passed(setup.mode, a), now), x, met);
    VerdictMeansValid(setup.mode, a);
    HeardRequest(x.rule, topic, Passed(setup.mode, a), now, rules, session, setup.sprint);
    SameProfile(a, Passed(setup.mode, a));
    forall b, other, later | ProfileOf(b) == p && Decide(setup.mode, b).Verdict? && IsRequest(other)
      ensures Matches(x.rule, StatusEvent(other, Passed(setup.mode, b), later), session, setup.sprint)
    {
      VerdictMeansValid(setup.mode, b);
      SameProfile(b, Passed(setup.mode, b));
      SameRisk(a, b);
      RequestsLookAlike(Passed(setup.mode, a), Passed(setup.mode, b), q, rules, topic, other, now, later);
      SameMatch(x.rule, StatusEvent(topic, Passed(setup.mode, a), now),
                StatusEvent(other, Passed(setup.mode, b), later), "id", q, rules, session, setup.sprint);
    }
    SameRisk(a, a);
  }

  lemma SameProfile(a: Action, b: Action)
    requires b == a.(status := b.status)
    ensures ProfileOf(a) == ProfileOf(b)
  {
  }

  lemma SameRisk(a: Action, b: Action)
    requires ProfileOf(a) == ProfileOf(b)
    ensures a.risk == b.risk == ProfileOf(a).risk && a.kind == b.kind
  {
  }

  lemma HeardRequest(r: Rule, topic: Topic, a: Action, now: nat, rules: seq<Rule>, session: Session,
                     sprint: Value -> string)
    requires IdBlind(r, rules, sprint) && IsRequest(topic) && Matches(r, StatusEvent(topic, a, now), session, sprint)
    ensures BlindTo(r, "payload." + "id", rules, sprint)
  {
    hide SameForAll;
    assert "payload." + "id" == "payload.id";
  }

  lemma HeardEnd(r: Rule, a: Action, end: End, now: nat, rules: seq<Rule>, session: Session, sprint: Value -> string)
    requires IdBlind(r, rules, sprint) && Matches(r, ExecutedEvent(a, end, now), session, sprint)
    ensures BlindTo(r, "payload." + "actionId", rules, sprint)
  {
    hide SameForAll;
    assert "payload." + "actionId" == "payload.actionId";
  }

  lemma BlindEnd(setup: Setup, rules: seq<Rule>, id: string, session: Session, p: Profile, q: Rule, x: Item)
    requires IdBlind(x.rule, rules, setup.sprint) && Ours(p, q, rules)
    requires AnswersEnd(setup, rules, Only(id, session), p, x)
    ensures exists end :: SureOnEnd(setup, p, x, session, end)
  {
    hide Decide, ValidAction, LookAlike, ExecutedEvent, BlindTo, IdBlind, CanEnd, ProfileOf, Matches;
    var a, end, now, met :|
      && ProfileOf(a) == p && Decide(setup.mode, a) == Verdict(Allowed) && p.depth <= MAX_DEPTH
      && CanEnd(setup.capabilities, a, end) && Only(id, session)(p.sessionId, met)
      && Answers(setup, rules, ExecutedEvent(a, end, now), x, met);
    VerdictMeansValid(setup.mode, a);
    HeardEnd(x.rule, a, end, now, rules, session, setup.sprint);
    forall b | ProfileOf(b) == p && ValidAction(b) ensures CanEnd(setup.capabilities, b, end) {
      SameRisk(a, b);
      EndsByKind(setup.capabilities, a, b, end);
    }
    forall b, later | ProfileOf(b) == p && ValidAction(b)
      ensures Matches(x.rule, ExecutedEvent(b, end, later), session, setup.sprint)
    {
      EndsLookAlike(a, b, q, rules, end, now, later);
      SameMatch(x.rule, ExecutedEvent(a, end, now), ExecutedEvent(b, end, later), "actionId", q, rules, session,
                setup.sprint);
    }
    SameRisk(a, a);
    assert SureOnEnd(setup, p, x, session, end);
  }

  /** For id-blind rules every edge between actions the engine made is sure. */
  lemma BlindEdge(setup: Setup, rules: seq<Rule>, id: string, session: Session, o: Profile, p: Profile, r: Profile)
    requires forall rule :: rule in rules ==> IdBlind(rule, rules, setup.sprint)
    requires Edge(setup, rules, Only(id, session), o, p) && Edge(setup, rules, Only(id, session), p, r)
    ensures SureEdge(setup, rules, session, p, r)
  {
    hide AnswersRequest, AnswersEnd, SureOnRequest, SureOnEnd, IdBlind;
    var y, c :| LeadsTo(setup, rules, Only(id, session), o, y, c) && p == DraftedAt(y, o.sessionId, c);
    var x, d :| LeadsTo(setup, rules, Only(id, session), p, x, d) && r == DraftedAt(x, p.sessionId, d);
    ItemsFromHas(rules, x);
    ItemsFromHas(rules, y);
    assert Ours(p, y.rule, rules);
    if d == 0 && AnswersRequest(setup, rules, Only(id, session), p, x) {
      BlindRequest(setup, rules, id, session, p, y.rule, x);
    } else {
      BlindEnd(setup, rules, id, session, p, y.rule, x);
    }
    assert SurelyLeadsTo(setup, rules, session, p, x, d);
  }

  lemma BlindCycle(setup: Setup, rules: seq<Rule>, id: string, session: Session, ps: seq<Profile>)
    requires forall rule :: rule in rules ==> IdBlind(rule, rules, setup.sprint)
    requires Cycle(setup, rules, Only(id, session), ps)
    ensures SureCycle(setup, rules, session, ps) && ps[0].sessionId == id
  {
    hide IdBlind, SureEdge, LeadsTo, Edge;
    forall i | 0 <= i < |ps| - 1 ensures SureEdge(setup, rules, session, ps[i], ps[i + 1]) {
      var j := if i == 0 then |ps| - 2 else i - 1;
      assert Edge(setup, rules, Only(id, session), ps[j], ps[j + 1]) && ps[j + 1] == ps[i];
      assert Edge(setup, rules, Only(id, session), ps[i], ps[i + 1]);
      BlindEdge(setup, rules, id, session, ps[j], ps[i], ps[i + 1]);
    }
    assert Edge(setup, rules, Only(id, session), ps[0], ps[0 + 1]);
    EdgeAt(setup, rules, id, session, ps[0], ps[1]);
  }

  lemma EdgeAt(setup: Setup, rules: seq<Rule>, id: string, session: Session, p: Profile, q: Profile)
    requires Edge(setup, rules, Only(id, session), p, q)
    ensures p.sessionId == id
  {
    hide Decide, CanEnd, Matches, StatusEvent, ExecutedEvent;
  }

  // ---- Exactly when ----

  /** For rules that cannot tell the engine's ids apart, with whatever other conditions, and the given
      sessions: every cascade ends if and only if no session, as it is or as tracking may create it, lets
      an action lead back to one like itself through the ends its executions can have. */
  lemma CascadesEndExactlyWhenAcyclic(setup: Setup, rules: seq<Rule>, known: Sessions)
    requires ValidRules(rules) && Proper(known) && forall r :: r in rules ==> IdBlind(r, rules, setup.sprint)
    ensures (forall s :: Fresh(s, rules) && s.sessions == known ==> Ends(setup, s)) <==> !CanCycle(setup, rules, known)
  {
    hide ValidRules, IdBlind, Fresh, Ends, Proper, Meetable;
    if CanCycle(setup, rules, known) {
      var id, session :| Meetable(known, id, session) && Cyclic(setup, rules, Only(id, session));
      var ps :| Cycle(setup, rules, Only(id, session), ps);
      BlindCycle(setup, rules, id, session, ps);
      SureCycleNeverEnds(setup, rules, known, session, ps);
    } else {
      forall s | Fresh(s, rules) && s.sessions == known ensures Ends(setup, s) { FreshNoCycleEnds(setup, s, rules); }
    }
  }

  lemma FreshNoCycleEnds(setup: Setup, s: Sys, rules: seq<Rule>)
    requires Fresh(s, rules) && !CanCycle(setup, rules, s.sessions)
    ensures Ends(setup, s)
  {
    hide CanCycle, CanEnd;
    NoCycleEnds(setup, s, rules);
  }

  const COMPLETED := Condition("payload.status", "equals", "completed")

  /** Whoever waits for an execution to complete waits in vain unless the action's type can be carried out. */
  lemma CompletionNeedsAnExecutor(setup: Setup, rules: seq<Rule>, meets: Meets, p: Profile, x: Item)
    requires AnswersEnd(setup, rules, meets, p, x) && COMPLETED in x.rule.trigger.conditions
    requires forall t :: setup.sprint(Text(t)) == t
    ensures IsWorkflowActionType(p.kind) || exists plugin, body ::
              RouteOf(setup.capabilities, p.kind) == ToPlugin(Invoked(plugin)) && plugin(Replied(body))
  {
    hide Decide, CanEnd, Actual, Compare;
    var a, end, now, session :|
      && ProfileOf(a) == p && Decide(setup.mode, a) == Verdict(Allowed) && p.depth <= MAX_DEPTH
      && CanEnd(setup.capabilities, a, end) && meets(p.sessionId, session)
      && Answers(setup, rules, ExecutedEvent(a, end, now), x, session);
    var i :| 0 <= i < |x.rule.trigger.conditions| && x.rule.trigger.conditions[i] == COMPLETED;
    assert Holds(x.rule.trigger.conditions[i], ExecutedEvent(a, end, now), session, setup.sprint);
    ReadsOutcome(a, end, now, session, setup.sprint);
    SuccessHasAnExecutor(setup.capabilities, a, end);
  }

  lemma ReadsOutcome(a: Action, end: End, now: nat, session: Session, sprint: Value -> string)
    requires Holds(COMPLETED, ExecutedEvent(a, end, now), session, sprint) && forall t :: sprint(Text(t)) == t
    ensures !end.failed
  {
    ReadsKey("status", ExecutedEvent(a, end, now), session, sprint);
    assert "payload." + "status" == "payload.status" && "failed"[0] == 'f' && "completed"[0] == 'c';
  }

  // ---- Rules without conditions on announcements ----

  /** A rule whose trigger, without conditions, lets the runtime's announcements through. */
  predicate AnswersAnnouncements(r: Rule) {
    Hears(r, "action.requested", CORE) && r.trigger.conditions == []
  }

  lemma AnswersMatches(r: Rule, topic: Topic, a: Action, now: nat, session: Session, sprint: Value -> string)
    requires AnswersAnnouncements(r) && IsRequest(topic)
    ensures Matches(r, StatusEvent(topic, a, now), session, sprint)
  {
  }

  ghost predicate SomeRuleAnswers(rules: seq<Rule>) {
    exists r :: r in rules && AnswersAnnouncements(r)
  }

  /** Such a rule answers its own actions, whatever the session. */
  lemma AnsweringRuleHasCycle(setup: Setup, rules: seq<Rule>, session: Session) returns (ps: seq<Profile>)
    requires ValidRules(rules) && !setup.mode.UnknownMode? && SomeRuleAnswers(rules)
    ensures SureCycle(setup, rules, session, ps) && ps[0].sessionId == ""
  {
    hide Matches, StatusEvent, Decide, AnswersAnnouncements, ProfileOf, ItemsFrom, GetActions, StatusOn;
    var r :| r in rules && AnswersAnnouncements(r);
    assert ValidRule(r);
    var x := Item(r, GetActions(r)[0]);
    ItemsFromHas(rules, x);
    KnownModeDecides(setup.mode, x.spec.risk);
    var p := DraftedAt(x, "", 0);
    forall a, topic, now | ProfileOf(a) == p && Decide(setup.mode, a).Verdict? && IsRequest(topic)
      ensures Matches(r, StatusEvent(topic, Passed(setup.mode, a), now), session, setup.sprint)
    {
      AnswersMatches(r, topic, Passed(setup.mode, a), now, session, setup.sprint);
    }
    assert SureOnRequest(setup, p, x, session);
    assert SurelyLeadsTo(setup, rules, session, p, x, 0);
    assert SureEdge(setup, rules, session, p, p);
    ps := [p, p];
  }

  lemma KnownModeDecides(mode: Mode, risk: Risk)
    requires !mode.UnknownMode?
    ensures StatusOn(mode, risk).Some?
  {
  }

  lemma QuietUnlessAnswered(rules: seq<Rule>, sprint: Value -> string)
    requires forall r :: r in rules && Hears(r, "action.requested", CORE) ==> r.trigger.conditions == []
    ensures Quiet(rules, sprint) <==> !SomeRuleAnswers(rules)
  {
    if r :| r in rules && AnswersAnnouncements(r) {
      var a := Action("a", "b", Low, Requested, "c", "", "", 0, map[], 1);
      AnswersMatches(r, OnRequest, a, 1, NO_SESSION, sprint);
    }
  }

  /** For rules that attach no conditions to the runtime's announcements, whatever they test elsewhere:
      every cascade ends if and only if no rule's trigger lets an announcement through. */
  lemma CascadesEndExactlyWhenUnanswered(setup: Setup, rules: seq<Rule>, known: Sessions)
    requires ValidRules(rules) && Proper(known) && !setup.mode.UnknownMode?
    requires forall r :: r in rules && Hears(r, "action.requested", CORE) ==> r.trigger.conditions == []
    ensures (forall s :: Fresh(s, rules) && s.sessions == known ==> Ends(setup, s)) <==> !SomeRuleAnswers(rules)
  {
    hide ValidRules, Fresh, Ends, SomeRuleAnswers, Quiet, SureCycle, Proper;
    QuietUnlessAnswered(rules, setup.sprint);
    if SomeRuleAnswers(rules) {
      var ps := AnsweringRuleHasCycle(setup, rules, NO_SESSION);
      assert Meetable(known, "", NO_SESSION);
      SureCycleNeverEnds(setup, rules, known, NO_SESSION, ps);
    } else {
      forall s | Fresh(s, rules) && s.sessions == known ensures Ends(setup, s) { FreshQuietEnds(setup, s, rules); }
    }
  }

  lemma FreshQuietEnds(setup: Setup, s: Sys, rules: seq<Rule>)
    requires Fresh(s, rules) && Quiet(rules, setup.sprint)
    ensures Ends(setup, s)
  {
    hide Cyclic, Quiet, CanEnd;
    QuietIsAcyclic(setup, rules, Any());
    AcyclicEnds(setup, s, rules);
  }

  // ---- An example with conditions ----

  const CONFIRMED := Condition("payload.status", "equals", "confirmed")

  /** Rules that tell a user of actions waiting for confirmation: those that hear announcements ask
      for the status confirmed and yield low-risk actions, and none hears the ends of executions. */
  ghost predicate Watchers(rules: seq<Rule>) {
    forall r :: r in rules ==>
      && !Hears(r, "action.executed", CORE)
      && (Hears(r, "action.requested", CORE) ==>
            && CONFIRMED in r.trigger.conditions
            && forall i :: 0 <= i < |GetActions(r)| ==> GetActions(r)[i].risk == Low)
  }

  function WaitingFirst(): Rank {
    (p: Profile) => if p.risk == Medium then 1 else 0
  }

  lemma WatchersFall(setup: Setup, rules: seq<Rule>, a: Action, x: Item, topic: Topic, now: nat, session: Session)
    requires setup.mode == Local && Watchers(rules) && forall t :: setup.sprint(Text(t)) == t
    requires Decide(Local, a).Verdict? && IsRequest(topic)
    requires Answers(setup, rules, StatusEvent(topic, Passed(Local, a), now), x, session)
    ensures a.risk == Medium && x.spec.risk == Low
  {
    hide Actual, Compare, StatusText, StatusEvent;
    ItemsFromHas(rules, x);
    var e := StatusEvent(topic, Passed(Local, a), now);
    HeardMeans(topic, Passed(Local, a), now, x.rule);
    var i :| 0 <= i < |x.rule.trigger.conditions| && x.rule.trigger.conditions[i] == CONFIRMED;
    assert Holds(x.rule.trigger.conditions[i], e, session, setup.sprint);
    ReadsStatus(topic, Passed(Local, a), now, session, setup.sprint);
  }

  lemma HeardMeans(topic: Topic, a: Action, now: nat, r: Rule)
    requires IsRequest(topic)
    ensures Hears(r, StatusEvent(topic, a, now).kind, StatusEvent(topic, a, now).source) ==>
              Hears(r, "action.requested", CORE)
  {
  }

  /** The condition reads the status. */
  lemma ReadsStatus(topic: Topic, a: Action, now: nat, session: Session, sprint: Value -> string)
    requires Holds(CONFIRMED, StatusEvent(topic, a, now), session, sprint) && forall t :: sprint(Text(t)) == t
    ensures a.status == Confirmed || a.status == UnknownStatus("confirmed")
  {
    ReadsKey("status", StatusEvent(topic, a, now), session, sprint);
    assert "payload." + "status" == "payload.status";
    assert "requested"[0] == 'r' && "allowed"[0] == 'a' && "denied"[0] == 'd' && "executed"[0] == 'e'
        && "failed"[0] == 'f';
  }

  /** In local mode the cascades of such rules end, although the rules do listen to the runtime. */
  lemma WatchersEnd(setup: Setup, s: Sys, rules: seq<Rule>)
    requires setup.mode == Local && Watchers(rules) && Fresh(s, rules) && forall t :: setup.sprint(Text(t)) == t
    ensures Ends(setup, s)
  {
    hide Decide, StatusEvent, Watchers, Answers, Ends, CanEnd;
    var law := Plainly(setup, rules, WaitingFirst());
    assert FallsOnRequests(law) by {
      forall a, x, topic, now, session |
        && Decide(Local, a).Verdict? && IsRequest(topic)
        && Answers(setup, rules, StatusEvent(topic, Passed(Local, a), now), x, session)
        ensures law.rank(DraftedAt(x, a.sessionId, 0)) < law.rank(ProfileOf(a))
      {
        WatchersFall(setup, rules, a, x, topic, now, session);
      }
    }
    assert NeverRisesOnExecutions(law) by {
      forall a, x, end, now, session ensures !Answers(setup, rules, ExecutedEvent(a, end, now), x, session) {
        WatchersIgnoreEnds(setup, rules, a, x, end, now, session);
      }
    }
    RankedEnds(law, s);
  }

  lemma WatchersIgnoreEnds(setup: Setup, rules: seq<Rule>, a: Action, x: Item, end: End, now: nat,
                           session: Session)
    requires Watchers(rules)
    ensures !Answers(setup, rules, ExecutedEvent(a, end, now), x, session)
  {
    ItemsFromHas(rules, x);
  }
}
