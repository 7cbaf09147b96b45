/** Rankings of actions: what a rule set must respect for its cascades to end, and how high the
    actions an event can lead to may rank. */
module Ranks {
  import opened Types
  import opened Workflow
  import opened Engine
  import opened Actions
  import opened Execution
  import opened Cascade
  import opened EventBus

  /** What rules can tell about an action from the events the runtime publishes about it, apart from
      its status and its id; of the id only whether it is one the engine gives. */
  datatype Profile = Profile(kind: string, risk: Risk, source: string, sessionId: string, depth: int, numbered: bool)

  /** The action says it is a rule's, and bears an id made for that rule. */
  ghost predicate Numbered(a: Action) {
    exists ruleId, n: nat :: a.id == ActionId(ruleId, n) && a.source == "workflow:" + ruleId
  }

  ghost function ProfileOf(a: Action): Profile {
    Profile(a.kind, a.risk, a.source, a.sessionId, a.depth, Numbered(a))
  }

  /** The profile of what an item drafts for an event of this session and depth. */
  function DraftedAt(x: Item, sessionId: string, depth: int): Profile {
    Profile(x.spec.kind, x.spec.risk, "workflow:" + x.rule.id, sessionId, depth + 1, true)
  }

  function Drafted(x: Item, e: Event): Profile {
    DraftedAt(x, e.sessionId, e.depth)
  }

  lemma DraftProfile(x: Item, e: Event, seqNo: nat, payload: Payload, now: nat)
    ensures ProfileOf(Draft(x, e, seqNo, payload, now)) == Drafted(x, e)
  {
    assert Draft(x, e, seqNo, payload, now).id == ActionId(x.rule.id, seqNo);
  }

  /** All the items of a list of rules. */
  function ItemsFrom(rules: seq<Rule>): seq<Item> {
    if rules == [] then [] else ItemsOf(rules[0]) + ItemsFrom(rules[1..])
  }

  lemma {:induction false} ItemsFromHas(rules: seq<Rule>, x: Item)
    ensures x in ItemsFrom(rules) <==> x.rule in rules && x.spec in GetActions(x.rule)
  {
    if rules != [] {
      var r := rules[0];
      ItemsFromHas(rules[1..], x);
      if x.rule == r && x.spec in GetActions(r) {
        var i :| 0 <= i < |GetActions(r)| && GetActions(r)[i] == x.spec;
        assert ItemsOf(r)[i] == x;
      }
    }
  }

  type Rank = Profile -> nat

  /** Which session handlers may meet for events of a session id. */
  type Meets = (string, Session) -> bool

  function Any(): Meets {
    (id: string, session: Session) => true
  }

  ghost predicate MeetsAll(meets: Meets) {
    forall id, session :: meets(id, session)
  }

  /** What events of a session id and depth are set aside for, whatever answers them. */
  type Floor = (string, int) -> nat

  function NoFloor(): Floor {
    (id: string, depth: int) => 0
  }

  /** A mode and the rest of a setup, a set of rules, the sessions that are met, and a ranking. */
  datatype Law = Law(setup: Setup, rules: seq<Rule>, meets: Meets, rank: Rank, floor: Floor)

  /** A ranking for whatever sessions are met. */
  function Plainly(setup: Setup, rules: seq<Rule>, rank: Rank): Law {
    Law(setup, rules, Any(), rank, NoFloor())
  }

  /** Some item of the rules answers the event, in the given session. */
  ghost predicate Answers(setup: Setup, rules: seq<Rule>, e: Event, x: Item, session: Session) {
    x in ItemsFrom(rules) && Matches(x.rule, e, session, setup.sprint)
  }

  /** An action as the gate passes it on. */
  function Passed(mode: Mode, a: Action): Action
    requires Decide(mode, a).Verdict?
  {
    a.(status := Decide(mode, a).status)
  }

  /** Whatever answers the announcement of an action ranks below it. */
  ghost predicate FallsOnRequests(law: Law) {
    forall a, x, topic, now, session ::
      && Decide(law.setup.mode, a).Verdict? && IsRequest(topic) && law.meets(a.sessionId, session)
      && Answers(law.setup, law.rules, StatusEvent(topic, Passed(law.setup.mode, a), now), x, session) ==>
        law.rank(DraftedAt(x, a.sessionId, 0)) < law.rank(ProfileOf(a))
  }

  /** Whatever answers the end of the execution of an allowed action ranks no higher. */
  ghost predicate NeverRisesOnExecutions(law: Law) {
    forall a, x, end, now, session ::
      && Decide(law.setup.mode, a) == Verdict(Allowed) && a.depth <= MAX_DEPTH
      && CanEnd(law.setup.capabilities, a, end) && law.meets(a.sessionId, session)
      && Answers(law.setup, law.rules, ExecutedEvent(a, end, now), x, session) ==>
        law.rank(DraftedAt(x, a.sessionId, a.depth)) <= law.rank(ProfileOf(a))
  }

  /** The floor is no obstacle. */
  ghost predicate FloorIsLow(law: Law) {
    forall a: Action :: law.floor(a.sessionId, 0) <= law.rank(ProfileOf(a))
             && law.floor(a.sessionId, a.depth) <= law.rank(ProfileOf(a)) + 1
  }

  ghost predicate Ranked(law: Law) {
    FallsOnRequests(law) && NeverRisesOnExecutions(law) && FloorIsLow(law)
  }

  // ---- Ceilings ----

  /** One more than the highest rank of what the items that can answer draft; 0 if none can. */
  ghost function Highest(rank: Rank, can: Item -> bool, sessionId: string, depth: int, items: seq<Item>): nat {
    if items == [] then 0
    else
      var rest := Highest(rank, can, sessionId, depth, items[1..]);
      var r := rank(DraftedAt(items[0], sessionId, depth));
      if can(items[0]) && r >= rest then r + 1 else rest
  }

  lemma {:induction false} HighestCovers(rank: Rank, can: Item -> bool, sessionId: string, depth: int, items: seq<Item>,
                                         x: Item)
    requires x in items && can(x)
    ensures rank(DraftedAt(x, sessionId, depth)) < Highest(rank, can, sessionId, depth, items)
  {
    if items[0] != x { HighestCovers(rank, can, sessionId, depth, items[1..], x); }
  }

  lemma {:induction false} HighestLeast(rank: Rank, can: Item -> bool, sessionId: string, depth: int, items: seq<Item>,
                                        k: nat)
    requires forall x :: x in items && can(x) ==> rank(DraftedAt(x, sessionId, depth)) < k
    ensures Highest(rank, can, sessionId, depth, items) <= k
  {
    if items != [] { HighestLeast(rank, can, sessionId, depth, items[1..], k); }
  }

  ghost function CanAnswer(law: Law, e: Event): Item -> bool {
    (x: Item) => exists session :: law.meets(e.sessionId, session) && Answers(law.setup, law.rules, e, x, session)
  }

  ghost function CanAnswerStatus(law: Law, topic: Topic, a: Action): Item -> bool {
    (x: Item) => exists now, session ::
      law.meets(a.sessionId, session) && Answers(law.setup, law.rules, StatusEvent(topic, a, now), x, session)
  }

  ghost function CanAnswerEnd(law: Law, a: Action): Item -> bool {
    (x: Item) => exists end, now, session ::
      && CanEnd(law.setup.capabilities, a, end) && law.meets(a.sessionId, session)
      && Answers(law.setup, law.rules, ExecutedEvent(a, end, now), x, session)
  }

  ghost function Ceiling(law: Law, can: Item -> bool, sessionId: string, depth: int): nat {
    var highest := Highest(law.rank, can, sessionId, depth, ItemsFrom(law.rules));
    if law.floor(sessionId, depth) > highest then law.floor(sessionId, depth) else highest
  }

  lemma CeilingCovers(law: Law, can: Item -> bool, sessionId: string, depth: int, x: Item)
    requires x in ItemsFrom(law.rules) && can(x)
    ensures law.rank(DraftedAt(x, sessionId, depth)) < Ceiling(law, can, sessionId, depth)
  {
    HighestCovers(law.rank, can, sessionId, depth, ItemsFrom(law.rules), x);
  }

  lemma CeilingLeast(law: Law, can: Item -> bool, sessionId: string, depth: int, k: nat)
    requires law.floor(sessionId, depth) <= k
    requires forall x :: x in ItemsFrom(law.rules) && can(x) ==> law.rank(DraftedAt(x, sessionId, depth)) < k
    ensures Ceiling(law, can, sessionId, depth) <= k
  {
    HighestLeast(law.rank, can, sessionId, depth, ItemsFrom(law.rules), k);
  }

  /** Everything an event leads to ranks below its ceiling. */
  ghost function EventCeiling(law: Law, e: Event): nat {
    Ceiling(law, CanAnswer(law, e), e.sessionId, e.depth)
  }

  ghost function StatusCeiling(law: Law, topic: Topic, a: Action): nat {
    Ceiling(law, CanAnswerStatus(law, topic, a), a.sessionId, 0)
  }

  ghost function EndCeiling(law: Law, a: Action): nat {
    Ceiling(law, CanAnswerEnd(law, a), a.sessionId, a.depth)
  }

  lemma StatusCovers(law: Law, topic: Topic, a: Action, now: nat)
    ensures EventCeiling(law, StatusEvent(topic, a, now)) <= StatusCeiling(law, topic, a)
  {
    hide Highest, Answers;
    var e := StatusEvent(topic, a, now);
    forall x | x in ItemsFrom(law.rules) && CanAnswer(law, e)(x)
      ensures law.rank(DraftedAt(x, e.sessionId, e.depth)) < StatusCeiling(law, topic, a)
    {
      CeilingCovers(law, CanAnswerStatus(law, topic, a), a.sessionId, 0, x);
    }
    CeilingLeast(law, CanAnswer(law, e), e.sessionId, e.depth, StatusCeiling(law, topic, a));
  }

  lemma EndCovers(law: Law, a: Action, end: End, now: nat)
    requires CanEnd(law.setup.capabilities, a, end)
    ensures EventCeiling(law, ExecutedEvent(a, end, now)) <= EndCeiling(law, a)
  {
    hide Highest, CanEnd, Answers;
    var e := ExecutedEvent(a, end, now);
    forall x | x in ItemsFrom(law.rules) && CanAnswer(law, e)(x)
      ensures law.rank(DraftedAt(x, e.sessionId, e.depth)) < EndCeiling(law, a)
    {
      CeilingCovers(law, CanAnswerEnd(law, a), a.sessionId, a.depth, x);
    }
    CeilingLeast(law, CanAnswer(law, e), e.sessionId, e.depth, EndCeiling(law, a));
  }

  /** In a ranked law the announcement of an action leads strictly below it. */
  lemma RequestFalls(law: Law, topic: Topic, a: Action)
    requires Ranked(law) && Decide(law.setup.mode, a).Verdict? && IsRequest(topic)
    ensures StatusCeiling(law, topic, Passed(law.setup.mode, a)) <= law.rank(ProfileOf(a))
  {
    hide Highest, Decide, StatusEvent, CanEnd, Answers;
    var b := Passed(law.setup.mode, a);
    forall x | x in ItemsFrom(law.rules) && CanAnswerStatus(law, topic, b)(x)
      ensures law.rank(DraftedAt(x, b.sessionId, 0)) < law.rank(ProfileOf(a))
    {
      var now, session :|
        law.meets(b.sessionId, session) && Answers(law.setup, law.rules, StatusEvent(topic, b, now), x, session);
    }
    CeilingLeast(law, CanAnswerStatus(law, topic, b), b.sessionId, 0, law.rank(ProfileOf(a)));
  }

  /** And the end of its execution leads no higher than it. */
  lemma EndNeverRises(law: Law, a: Action)
    requires Ranked(law) && Decide(law.setup.mode, a) == Verdict(Allowed) && a.depth <= MAX_DEPTH
    ensures EndCeiling(law, Passed(law.setup.mode, a)) <= law.rank(ProfileOf(a)) + 1
  {
    hide Highest, Decide, CanEnd, Answers;
    var b := Passed(law.setup.mode, a);
    PassedEnds(law.setup, a);
    forall x | x in ItemsFrom(law.rules) && CanAnswerEnd(law, b)(x)
      ensures law.rank(DraftedAt(x, b.sessionId, b.depth)) < law.rank(ProfileOf(a)) + 1
    {
      var end, now, session :| CanEnd(law.setup.capabilities, b, end) && law.meets(b.sessionId, session)
        && Answers(law.setup, law.rules, ExecutedEvent(b, end, now), x, session);
      assert ExecutedEvent(b, end, now) == ExecutedEvent(a, end, now);
    }
    CeilingLeast(law, CanAnswerEnd(law, b), b.sessionId, b.depth, law.rank(ProfileOf(a)) + 1);
  }

  /** Passing the gate changes nothing about how an execution may end. */
  lemma PassedEnds(setup: Setup, a: Action)
    requires Decide(setup.mode, a).Verdict?
    ensures ValidAction(a) && ValidAction(Passed(setup.mode, a))
    ensures forall end :: CanEnd(setup.capabilities, a, end) <==> CanEnd(setup.capabilities, Passed(setup.mode, a), end)
  {
    forall end
      ensures CanEnd(setup.capabilities, a, end) <==> CanEnd(setup.capabilities, Passed(setup.mode, a), end)
    {
      EndsByKind(setup.capabilities, a, Passed(setup.mode, a), end);
    }
  }
}
