/** The answer graph of a rule set: which profiles an action may lead to next, by its announcement or by
    the end of its execution. Without a cycle, the longest path is a ranking, and every cascade ends. */
module AnswerGraph {
  import opened Prelude
  import opened Types
  import opened Workflow
  import opened Engine
  import opened Actions
  import opened Execution
  import opened Cascade
  import opened Ranks
  import opened CascadeEnds
  import opened EventBus

  // ---- Edges and paths ----

  /** The announcement of some action of this profile can be answered by the item. */
  ghost predicate AnswersRequest(setup: Setup, rules: seq<Rule>, meets: Meets, p: Profile, x: Item) {
    exists a, topic, now, session ::
      && ProfileOf(a) == p && Decide(setup.mode, a).Verdict? && IsRequest(topic) && meets(p.sessionId, session)
      && Answers(setup, rules, StatusEvent(topic, Passed(setup.mode, a), now), x, session)
  }

  /** The end of the execution of some allowed action of this profile can be. */
  ghost predicate AnswersEnd(setup: Setup, rules: seq<Rule>, meets: Meets, p: Profile, x: Item) {
    exists a, end, now, session ::
      && ProfileOf(a) == p && Decide(setup.mode, a) == Verdict(Allowed) && p.depth <= MAX_DEPTH
      && CanEnd(setup.capabilities, a, end) && meets(p.sessionId, session)
      && Answers(setup, rules, ExecutedEvent(a, end, now), x, session)
  }

  /** The item may answer an action of this profile, on an event of depth `d`. */
  ghost predicate LeadsTo(setup: Setup, rules: seq<Rule>, meets: Meets, p: Profile, x: Item, d: int) {
    && x in ItemsFrom(rules)
    && ((d == 0 && AnswersRequest(setup, rules, meets, p, x))
        || (d == p.depth && AnswersEnd(setup, rules, meets, p, x)))
  }

  ghost predicate Edge(setup: Setup, rules: seq<Rule>, meets: Meets, p: Profile, q: Profile) {
    exists x, d :: LeadsTo(setup, rules, meets, p, x, d) && q == DraftedAt(x, p.sessionId, d)
  }

  ghost predicate Path(setup: Setup, rules: seq<Rule>, meets: Meets, ps: seq<Profile>) {
    forall i :: 0 <= i < |ps| - 1 ==> Edge(setup, rules, meets, ps[i], ps[i + 1])
  }

  /** Some action may lead back to one like itself. */
  ghost predicate Cyclic(setup: Setup, rules: seq<Rule>, meets: Meets) {
    exists ps :: Cycle(setup, rules, meets, ps)
  }

  ghost predicate Cycle(setup: Setup, rules: seq<Rule>, meets: Meets, ps: seq<Profile>) {
    |ps| >= 2 && ps[0] == ps[|ps| - 1] && Path(setup, rules, meets, ps)
  }

  // ---- Paths without a cycle are short ----

  /** The smallest depth of an event on a path that starts at this depth. */
  function Lowest(depth: int): int {
    if depth < 0 then depth else 0
  }

  /** All the profiles such a path can come to. */
  function Nodes(rules: seq<Rule>, sessionId: string, depth: int): set<Profile> {
    set x, d | x in ItemsFrom(rules) && Lowest(depth) <= d <= MAX_DEPTH :: DraftedAt(x, sessionId, d)
  }

  lemma EdgeInNodes(setup: Setup, rules: seq<Rule>, meets: Meets, p: Profile, q: Profile, depth: int)
    requires Edge(setup, rules, meets, p, q) && Lowest(depth) <= p.depth
    ensures q in Nodes(rules, p.sessionId, depth) && q.sessionId == p.sessionId && Lowest(depth) <= q.depth
  {
    hide Decide, AnswersRequest, CanEnd;
    var x, d :| LeadsTo(setup, rules, meets, p, x, d) && q == DraftedAt(x, p.sessionId, d);
    assert x in ItemsFrom(rules) && Lowest(depth) <= d <= MAX_DEPTH;
  }

  lemma {:induction false} PathInNodes(setup: Setup, rules: seq<Rule>, meets: Meets, ps: seq<Profile>, i: nat)
    requires Path(setup, rules, meets, ps) && i < |ps|
    ensures ps[i].sessionId == ps[0].sessionId && Lowest(ps[0].depth) <= ps[i].depth
    ensures i > 0 ==> ps[i] in Nodes(rules, ps[0].sessionId, ps[0].depth)
  {
    hide Edge, Nodes;
    if i > 0 {
      PathInNodes(setup, rules, meets, ps, i - 1);
      assert Edge(setup, rules, meets, ps[i - 1], ps[i - 1 + 1]);
      EdgeInNodes(setup, rules, meets, ps[i - 1], ps[i], ps[0].depth);
    }
  }

  lemma PathSlice(setup: Setup, rules: seq<Rule>, meets: Meets, ps: seq<Profile>, i: nat, j: nat)
    requires Path(setup, rules, meets, ps) && i <= j <= |ps|
    ensures Path(setup, rules, meets, ps[i..j])
  {
    hide Edge;
    var qs := ps[i..j];
    forall k | 0 <= k < |qs| - 1 ensures Edge(setup, rules, meets, qs[k], qs[k + 1]) {
      assert Edge(setup, rules, meets, ps[i + k], ps[i + k + 1]);
    }
  }

  lemma NoReturn(setup: Setup, rules: seq<Rule>, meets: Meets, ps: seq<Profile>, i: nat, j: nat)
    requires !Cyclic(setup, rules, meets) && Path(setup, rules, meets, ps) && i < j < |ps|
    ensures ps[i] != ps[j]
  {
    hide Path;
    var part := ps[i..j + 1];
    PathSlice(setup, rules, meets, ps, i, j + 1);
    assert !Cycle(setup, rules, meets, part);
  }

  /** Without a cycle a path comes to each profile at most once. */
  lemma AcyclicPathIsShort(setup: Setup, rules: seq<Rule>, meets: Meets, ps: seq<Profile>)
    requires !Cyclic(setup, rules, meets) && Path(setup, rules, meets, ps) && ps != []
    ensures |ps| - 1 <= |Nodes(rules, ps[0].sessionId, ps[0].depth)|
  {
    hide Path, Nodes, Cyclic, Lowest;
    var later := ps[1..];
    assert Distinct(later) by {
      forall i, j | 0 <= i < j < |later| ensures later[i] != later[j] {
        NoReturn(setup, rules, meets, ps, i + 1, j + 1);
      }
    }
    forall p | p in later ensures p in Nodes(rules, ps[0].sessionId, ps[0].depth) {
      var i :| 0 <= i < |later| && later[i] == p;
      PathInNodes(setup, rules, meets, ps, i + 1);
    }
    DistinctSize(later, Nodes(rules, ps[0].sessionId, ps[0].depth));
  }

  // ---- The longest path is a ranking ----

  ghost predicate PathFrom(setup: Setup, rules: seq<Rule>, meets: Meets, p: Profile, n: nat) {
    exists ps :: |ps| == n + 1 && ps[0] == p && Path(setup, rules, meets, ps)
  }

  ghost function Longest(setup: Setup, rules: seq<Rule>, meets: Meets, p: Profile, n: nat): nat {
    if n == 0 || PathFrom(setup, rules, meets, p, n) then n else Longest(setup, rules, meets, p, n - 1)
  }

  lemma {:induction false} LongestIs(setup: Setup, rules: seq<Rule>, meets: Meets, p: Profile, n: nat)
    ensures PathFrom(setup, rules, meets, p, Longest(setup, rules, meets, p, n))
    ensures forall m: nat :: m <= n && PathFrom(setup, rules, meets, p, m) ==> m <= Longest(setup, rules, meets, p, n)
  {
    if n == 0 {
      assert |[p]| == 1 && Path(setup, rules, meets, [p]);
    } else if !PathFrom(setup, rules, meets, p, n) {
      LongestIs(setup, rules, meets, p, n - 1);
    }
  }

  /** The length of the longest path from a profile. */
  ghost function LongestPath(setup: Setup, rules: seq<Rule>, meets: Meets, p: Profile): nat {
    Longest(setup, rules, meets, p, |Nodes(rules, p.sessionId, p.depth)|)
  }

  lemma PathPrepend(setup: Setup, rules: seq<Rule>, meets: Meets, p: Profile, q: Profile, n: nat)
    requires Edge(setup, rules, meets, p, q) && PathFrom(setup, rules, meets, q, n)
    ensures PathFrom(setup, rules, meets, p, n + 1)
  {
    hide Edge;
    var ps :| |ps| == n + 1 && ps[0] == q && Path(setup, rules, meets, ps);
    var qs := [p] + ps;
    forall i | 0 <= i < |qs| - 1 ensures Edge(setup, rules, meets, qs[i], qs[i + 1]) {
      if i > 0 { assert Edge(setup, rules, meets, ps[i - 1], ps[i - 1 + 1]); }
    }
    assert |qs| == n + 2 && qs[0] == p && Path(setup, rules, meets, qs);
  }

  /** Without a cycle the longest path gets shorter along every edge. */
  lemma EdgeFalls(setup: Setup, rules: seq<Rule>, meets: Meets, p: Profile, q: Profile)
    requires !Cyclic(setup, rules, meets) && Edge(setup, rules, meets, p, q)
    ensures LongestPath(setup, rules, meets, q) < LongestPath(setup, rules, meets, p)
  {
    hide Edge, Cyclic, Nodes, Path, Longest;
    var n, m := |Nodes(rules, p.sessionId, p.depth)|, LongestPath(setup, rules, meets, q);
    LongestIs(setup, rules, meets, q, |Nodes(rules, q.sessionId, q.depth)|);
    LongestIs(setup, rules, meets, p, n);
    PathPrepend(setup, rules, meets, p, q, m);
    var ps :| |ps| == m + 2 && ps[0] == p && Path(setup, rules, meets, ps);
    AcyclicPathIsShort(setup, rules, meets, ps);
  }

  lemma {:induction false} LongestAtMost(setup: Setup, rules: seq<Rule>, meets: Meets, p: Profile, n: nat)
    ensures Longest(setup, rules, meets, p, n) <= n
  {
    if n != 0 { LongestAtMost(setup, rules, meets, p, n - 1); }
  }

  // ---- The law of a graph ----

  /** For each session id, what its handlers may meet. */
  type Atlas = string -> Meets

  /** Where sessions may still appear, room for what they may lead to is set aside. */
  ghost function Room(rules: seq<Rule>, open: bool, sessionId: string, depth: int): nat {
    if open then |Nodes(rules, sessionId, depth)| + 1 else 0
  }

  ghost function GraphRank(setup: Setup, rules: seq<Rule>, atlas: Atlas, open: string -> bool, p: Profile): nat {
    LongestPath(setup, rules, atlas(p.sessionId), p) + Room(rules, open(p.sessionId), p.sessionId, p.depth)
  }

  ghost function GraphLaw(setup: Setup, rules: seq<Rule>, atlas: Atlas, open: string -> bool): Law {
    Law(setup, rules, (id: string, session: Session) => atlas(id)(id, session),
        (p: Profile) => GraphRank(setup, rules, atlas, open, p),
        (id: string, depth: int) => Room(rules, open(id), id, depth))
  }

  /** Later nodes are fewer. */
  lemma RoomShrinks(rules: seq<Rule>, open: bool, sessionId: string, depth: int, further: int)
    requires Lowest(depth) <= Lowest(further)
    ensures Room(rules, open, sessionId, further) <= Room(rules, open, sessionId, depth)
  {
    SubsetSize(Nodes(rules, sessionId, further), Nodes(rules, sessionId, depth));
  }

  lemma GraphFalls(setup: Setup, rules: seq<Rule>, atlas: Atlas, open: string -> bool, p: Profile, x: Item, d: int)
    requires !Cyclic(setup, rules, atlas(p.sessionId)) && LeadsTo(setup, rules, atlas(p.sessionId), p, x, d)
    ensures var rank := GraphLaw(setup, rules, atlas, open).rank;
            rank(DraftedAt(x, p.sessionId, d)) < rank(p)
  {
    hide Cyclic, LongestPath, Room, AnswersRequest, AnswersEnd;
    var q := DraftedAt(x, p.sessionId, d);
    assert Edge(setup, rules, atlas(p.sessionId), p, q);
    EdgeFalls(setup, rules, atlas(p.sessionId), p, q);
    RoomShrinks(rules, open(p.sessionId), p.sessionId, p.depth, d + 1);
  }

  /** Without cycles the longest path is a ranking. */
  lemma AcyclicIsRanked(setup: Setup, rules: seq<Rule>, atlas: Atlas, open: string -> bool)
    requires forall id :: !Cyclic(setup, rules, atlas(id))
    ensures Ranked(GraphLaw(setup, rules, atlas, open))
  {
    hide Cyclic, Decide, StatusEvent, ExecutedEvent, LongestPath, Matches, Room, CanEnd;
    var law := GraphLaw(setup, rules, atlas, open);
    forall a, x, topic, now, session |
      && Decide(setup.mode, a).Verdict? && IsRequest(topic) && law.meets(a.sessionId, session)
      && Answers(setup, rules, StatusEvent(topic, Passed(setup.mode, a), now), x, session)
      ensures law.rank(DraftedAt(x, a.sessionId, 0)) < law.rank(ProfileOf(a))
    {
      assert AnswersRequest(setup, rules, atlas(a.sessionId), ProfileOf(a), x);
      GraphFalls(setup, rules, atlas, open, ProfileOf(a), x, 0);
    }
    forall a, x, end, now, session |
      && Decide(setup.mode, a) == Verdict(Allowed) && a.depth <= MAX_DEPTH
      && CanEnd(setup.capabilities, a, end) && law.meets(a.sessionId, session)
      && Answers(setup, rules, ExecutedEvent(a, end, now), x, session)
      ensures law.rank(DraftedAt(x, a.sessionId, a.depth)) <= law.rank(ProfileOf(a))
    {
      assert AnswersEnd(setup, rules, atlas(a.sessionId), ProfileOf(a), x);
      GraphFalls(setup, rules, atlas, open, ProfileOf(a), x, a.depth);
    }
    forall a: Action
      ensures law.floor(a.sessionId, 0) <= law.rank(ProfileOf(a))
      ensures law.floor(a.sessionId, a.depth) <= law.rank(ProfileOf(a)) + 1
    {
      RoomShrinks(rules, open(a.sessionId), a.sessionId, a.depth, 0);
    }
  }

  // ---- Whatever sessions are met ----

  /** Without a cycle in the answer graph every cascade ends, whatever sessions its handlers meet and
      whatever else is in flight. */
  lemma AcyclicEnds(setup: Setup, s: Sys, rules: seq<Rule>)
    requires !Cyclic(setup, rules, Any()) && Governs(Plainly(setup, rules, Flat()), s)
    ensures Ends(setup, s)
  {
    hide Cyclic, Ranked, LongestPath, CanEnd;
    var atlas, open := (id: string) => Any(), (id: string) => false;
    AcyclicIsRanked(setup, rules, atlas, open);
    RankedEnds(GraphLaw(setup, rules, atlas, open), s);
  }

  // ---- The sessions there are, and may be ----

  /** Handlers for this session id meet this session; no others are looked at. */
  function Only(id: string, session: Session): Meets {
    (other: string, met: Session) => other == id && met == session
  }

  /** What a handler for this session id may find: what there is, or what tracking makes of an unknown id. */
  ghost predicate Meetable(known: Sessions, id: string, session: Session) {
    session == Found(known, id) || (id !in known && FirstSeen(id, session))
  }

  /** With the sessions there are, or once one more is tracked, some action may lead back to one like
      itself, its whole way in one session as it is. */
  ghost predicate CanCycle(setup: Setup, rules: seq<Rule>, known: Sessions) {
    exists id, session :: Meetable(known, id, session) && Cyclic(setup, rules, Only(id, session))
  }

  function Here(sessions: Sessions): Atlas {
    (id: string) => Only(id, Found(sessions, id))
  }

  ghost function SessionLaws(setup: Setup, rules: seq<Rule>): Laws {
    (sessions: Sessions) => GraphLaw(setup, rules, Here(sessions), (id: string) => id !in sessions)
  }

  /** A session that appears leads no higher than the room set aside for it. */
  lemma CeilingsBelow(setup: Setup, rules: seq<Rule>, known: Sessions, e: Event, canLo: Item -> bool,
                      canHi: Item -> bool, id: string, depth: int)
    requires Trackable(known, e)
    requires id != e.sessionId ==> forall x :: canLo(x) ==> canHi(x)
    ensures var laws := SessionLaws(setup, rules);
            Ceiling(laws(Noted(known, e)), canLo, id, depth) <= Ceiling(laws(known), canHi, id, depth)
  {
    hide LongestPath, Room, Highest, Trackable;
    var lo, hi := SessionLaws(setup, rules)(Noted(known, e)), SessionLaws(setup, rules)(known);
    var top := Ceiling(hi, canHi, id, depth);
    SameElsewhere(setup, rules, known, e, id, depth);
    forall x | x in ItemsFrom(rules) && canLo(x) ensures lo.rank(DraftedAt(x, id, depth)) < top {
      if id == e.sessionId {
        RankInRoom(setup, rules, known, e, x, depth);
      } else {
        SameRank(setup, rules, known, e, DraftedAt(x, id, depth));
        CeilingCovers(hi, canHi, id, depth, x);
      }
    }
    CeilingLeast(lo, canLo, id, depth, top);
  }

  lemma SameElsewhere(setup: Setup, rules: seq<Rule>, known: Sessions, e: Event, id: string, depth: int)
    requires Trackable(known, e)
    ensures var laws := SessionLaws(setup, rules);
            laws(Noted(known, e)).floor(id, depth) <= laws(known).floor(id, depth)
  {
    hide Nodes, Trackable;
    var more := Noted(known, e);
    assert SessionLaws(setup, rules)(more).floor(id, depth) == Room(rules, id !in more, id, depth);
    assert SessionLaws(setup, rules)(known).floor(id, depth) == Room(rules, id !in known, id, depth);
  }

  lemma SameRank(setup: Setup, rules: seq<Rule>, known: Sessions, e: Event, p: Profile)
    requires Trackable(known, e) && p.sessionId != e.sessionId
    ensures var laws := SessionLaws(setup, rules); laws(Noted(known, e)).rank(p) == laws(known).rank(p)
  {
    hide LongestPath, Room;
    assert Here(Noted(known, e))(p.sessionId) == Here(known)(p.sessionId);
  }

  lemma RankInRoom(setup: Setup, rules: seq<Rule>, known: Sessions, e: Event, x: Item, depth: int)
    requires Trackable(known, e)
    ensures var laws := SessionLaws(setup, rules);
            laws(Noted(known, e)).rank(DraftedAt(x, e.sessionId, depth)) < laws(known).floor(e.sessionId, depth)
  {
    hide Longest, Nodes;
    var q := DraftedAt(x, e.sessionId, depth);
    LongestAtMost(setup, rules, Here(Noted(known, e))(e.sessionId), q, |Nodes(rules, e.sessionId, q.depth)|);
    RoomShrinks(rules, true, e.sessionId, depth, depth + 1);
  }

  lemma RankFalls(setup: Setup, rules: seq<Rule>, known: Sessions, e: Event, p: Profile)
    requires Trackable(known, e)
    ensures var laws := SessionLaws(setup, rules); laws(Noted(known, e)).rank(p) <= laws(known).rank(p)
  {
    hide Longest, Nodes;
    if p.sessionId == e.sessionId {
      LongestAtMost(setup, rules, Here(Noted(known, e))(p.sessionId), p, |Nodes(rules, p.sessionId, p.depth)|);
    } else {
      SameRank(setup, rules, known, e, p);
    }
  }

  lemma TrackingLowers(setup: Setup, rules: seq<Rule>, known: Sessions, e: Event)
    requires Trackable(known, e)
    ensures Below(SessionLaws(setup, rules)(Noted(known, e)), SessionLaws(setup, rules)(known))
  {
    hide LongestPath, Room, Ceiling, Answers, CanEnd, Trackable, StatusEvent, ExecutedEvent;
    var lo, hi := SessionLaws(setup, rules)(Noted(known, e)), SessionLaws(setup, rules)(known);
    forall p ensures lo.rank(p) <= hi.rank(p) { RankFalls(setup, rules, known, e, p); }
    forall id, session | id != e.sessionId ensures lo.meets(id, session) == hi.meets(id, session) {
      assert Here(Noted(known, e))(id) == Here(known)(id) by { SameHere(known, e, id); }
    }
    forall f ensures EventCeiling(lo, f) <= EventCeiling(hi, f) {
      CeilingsBelow(setup, rules, known, e, CanAnswer(lo, f), CanAnswer(hi, f), f.sessionId, f.depth);
    }
    forall topic, a ensures StatusCeiling(lo, topic, a) <= StatusCeiling(hi, topic, a) {
      CeilingsBelow(setup, rules, known, e, CanAnswerStatus(lo, topic, a), CanAnswerStatus(hi, topic, a), a.sessionId,
                    0);
    }
    forall a ensures EndCeiling(lo, a) <= EndCeiling(hi, a) {
      CeilingsBelow(setup, rules, known, e, CanAnswerEnd(lo, a), CanAnswerEnd(hi, a), a.sessionId, a.depth);
    }
  }

  lemma SameHere(known: Sessions, e: Event, id: string)
    requires id != e.sessionId
    ensures Here(Noted(known, e))(id) == Here(known)(id)
  {
  }

  lemma LaterMeetable(known: Sessions, more: Sessions, id: string)
    requires Later(known, more)
    ensures Meetable(known, id, Found(more, id))
  {
  }

  lemma SessionLawsLawful(setup: Setup, rules: seq<Rule>, known: Sessions)
    requires !CanCycle(setup, rules, known)
    ensures Lawful(SessionLaws(setup, rules), setup, rules, known)
  {
    hide Cyclic, Ranked, Below, Later, Meetable, LongestPath, Room, Trackable, Noted;
    var laws := SessionLaws(setup, rules);
    forall more | Later(known, more)
      ensures laws(more).setup == setup && laws(more).rules == rules
      ensures Ranked(laws(more)) && SessionsMet(laws(more), more)
      ensures forall e :: Trackable(more, e) ==> Below(laws(Noted(more, e)), laws(more))
    {
      forall id ensures !Cyclic(setup, rules, Here(more)(id)) { LaterMeetable(known, more, id); }
      AcyclicIsRanked(setup, rules, Here(more), (id: string) => id !in more);
      forall e | Trackable(more, e) ensures Below(laws(Noted(more, e)), laws(more)) {
        TrackingLowers(setup, rules, more, e);
      }
    }
  }

  /** If no session, as it is now or will be once it is tracked, lets an action lead back to one like
      itself, every cascade ends, although sessions may be created on the way. */
  lemma NoCycleEnds(setup: Setup, s: Sys, rules: seq<Rule>)
    requires !CanCycle(setup, rules, s.sessions) && Governs(Plainly(setup, rules, Flat()), s)
    ensures Ends(setup, s)
  {
    hide CanCycle, Lawful, LongestPath, Room, CanEnd;
    SessionLawsLawful(setup, rules, s.sessions);
    var laws := SessionLaws(setup, rules);
    LawfulEnds(laws, setup, rules, s);
  }

  // ---- What is enough to see at a glance ----

  /** An announcement edge comes back to depth 1; an execution edge goes one deeper. So a cycle needs
      an announcement that is answered. */
  lemma {:induction false} EndsOnlyDescend(setup: Setup, rules: seq<Rule>, meets: Meets, ps: seq<Profile>, i: nat)
    requires Path(setup, rules, meets, ps) && i < |ps|
    requires forall p, x :: x in ItemsFrom(rules) ==> !AnswersRequest(setup, rules, meets, p, x)
    ensures ps[i].depth == ps[0].depth + i
  {
    hide AnswersRequest, AnswersEnd;
    if i > 0 {
      EndsOnlyDescend(setup, rules, meets, ps, i - 1);
      assert Edge(setup, rules, meets, ps[i - 1], ps[i - 1 + 1]);
    }
  }

  /** Rules that match no announcement have no cycle. */
  lemma QuietIsAcyclic(setup: Setup, rules: seq<Rule>, meets: Meets)
    requires Quiet(rules, setup.sprint)
    ensures !Cyclic(setup, rules, meets)
  {
    hide Matches, StatusEvent, Decide;
    forall p, x | x in ItemsFrom(rules) ensures !AnswersRequest(setup, rules, meets, p, x) { ItemsFromHas(rules, x); }
    hide AnswersRequest, Edge;
    forall ps ensures !Cycle(setup, rules, meets, ps) {
      if |ps| >= 2 && Path(setup, rules, meets, ps) { EndsOnlyDescend(setup, rules, meets, ps, |ps| - 1); }
    }
  }
}
