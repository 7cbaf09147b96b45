/** The event bus: internal/events/bus.go. */
module EventBus {
  import opened Prelude
  import opened Types

  /** The bus refuses events deeper than this. */
  const MAX_DEPTH := 20

  predicate Accepts(e: Event) {
    e.depth <= MAX_DEPTH && ValidEvent(e)
  }

  // ---- Bounded history ----

  /** The last `n` elements, or all of them if there are fewer. */
  function Last<T>(xs: seq<T>, n: nat): seq<T> {
    if |xs| <= n then xs else xs[|xs| - n..]
  }

  /** Appending to a bounded history and trimming loses nothing more than the bound says. */
  lemma LastPush<T>(xs: seq<T>, x: T, n: nat)
    requires n > 0
    ensures Last(Last(xs, n) + [x], n) == Last(xs + [x], n)
  {
  }

  /** What happens to a history: replaced by a restored one, or extended by a published event. */
  datatype Change = Restored(events: seq<Event>) | Recorded(event: Event)

  /** The history an unbounded memory would have after some changes. */
  function FullHistory(changes: seq<Change>): seq<Event> {
    if changes == [] then []
    else
      match changes[|changes| - 1]
      case Restored(events) => events
      case Recorded(e) => FullHistory(changes[..|changes| - 1]) + [e]
  }

  /** `record`: append, then trim to the limit; nothing at all when the limit is not positive. */
  function Record(history: seq<Event>, e: Event, limit: int): seq<Event> {
    if limit <= 0 then history else Last(history + [e], limit)
  }

  function RecordAll(history: seq<Event>, es: seq<Event>, limit: int): seq<Event> {
    if es == [] then history else Record(RecordAll(history, es[..|es| - 1], limit), es[|es| - 1], limit)
  }

  /** The history the bus keeps: restoring starts from empty and records one by one. */
  function KeptHistory(changes: seq<Change>, limit: int): seq<Event> {
    if changes == [] || limit <= 0 then []
    else
      match changes[|changes| - 1]
      case Restored(events) => RecordAll([], events, limit)
      case Recorded(e) => Record(KeptHistory(changes[..|changes| - 1], limit), e, limit)
  }

  lemma {:induction false} RecordAllIsLast(es: seq<Event>, limit: int)
    requires limit > 0
    ensures RecordAll([], es, limit) == Last(es, limit)
  {
    if es != [] {
      var n := |es| - 1;
      RecordAllIsLast(es[..n], limit);
      LastPush(es[..n], es[n], limit);
      assert es[..n] + [es[n]] == es;
    }
  }

  /** Over every mix of restores and publishes the kept history is the tail of the full one. */
  lemma {:induction false} HistoryIsTail(changes: seq<Change>, limit: int)
    requires limit > 0
    ensures KeptHistory(changes, limit) == Last(FullHistory(changes), limit)
  {
    if changes != [] {
      var n := |changes| - 1;
      match changes[n] {
        case Restored(events) => RecordAllIsLast(events, limit);
        case Recorded(e) =>
          HistoryIsTail(changes[..n], limit);
          LastPush(FullHistory(changes[..n]), e, limit);
      }
    }
  }

  function Reverse<T>(xs: seq<T>): (ys: seq<T>)
    ensures |ys| == |xs|
    ensures forall i :: 0 <= i < |xs| ==> ys[i] == xs[|xs| - 1 - i]
  {
    if xs == [] then [] else Reverse(xs[1..]) + [xs[0]]
  }

  /** The two-index swap that turns the newest-first rows of the database around in place. */
  method ReverseInPlace(events: array<Event>)
    modifies events
    ensures events[..] == Reverse(old(events[..]))
  {
    hide Reverse;
    ghost var was := events[..];
    ghost var turned := Reverse(was);
    var i, j := 0, events.Length - 1;
    while i < j
      invariant 0 <= i && i + j == events.Length - 1 && i <= j + 1
      invariant forall k :: i <= k <= j ==> events[k] == was[k]
      invariant forall k :: 0 <= k < i || j < k < events.Length ==> events[k] == turned[k]
    {
      assert turned[i] == was[j] && turned[j] == was[i];
      events[i], events[j] := events[j], events[i];
      i, j := i + 1, j - 1;
    }
    assert i == j ==> turned[i] == was[i];
    assert events[..] == turned;
  }

  // ---- Subscriptions ----

  const ANY := "*"

  datatype Interest<H> = Interest(topic: string, handler: H)

  predicate Concerns<H>(s: Interest<H>, eventType: string) {
    s.topic == ANY || s.topic == eventType
  }

  type Index<H> = map<string, map<nat, H>>

  /** The two-level index files exactly the live subscriptions: wildcards apart, the others under
      their topic, and no bucket is empty. */
  ghost predicate Agrees<H>(typed: Index<H>, wild: map<nat, H>, live: map<nat, Interest<H>>, nextID: nat) {
    && Tidy(typed) && Known(live, nextID)
    && WildLive(wild, live) && TypedLive(typed, live)
    && forall id :: id in live ==> Filed(typed, wild, live[id].topic, id)
  }

  ghost predicate Tidy<H>(typed: Index<H>) {
    "" !in typed && ANY !in typed && forall t :: t in typed ==> typed[t] != map[]
  }

  ghost predicate Known<H>(live: map<nat, Interest<H>>, nextID: nat) {
    forall id :: id in live ==> 0 < id <= nextID && live[id].topic != ""
  }

  ghost predicate WildLive<H>(wild: map<nat, H>, live: map<nat, Interest<H>>) {
    forall id :: id in wild ==> id in live && live[id] == Interest(ANY, wild[id])
  }

  ghost predicate TypedLive<H>(typed: Index<H>, live: map<nat, Interest<H>>) {
    forall t, id :: t in typed && id in typed[t] ==> id in live && live[id] == Interest(t, typed[t][id])
  }

  ghost predicate Filed<H>(typed: Index<H>, wild: map<nat, H>, topic: string, id: nat) {
    if topic == ANY then id in wild else topic in typed && id in typed[topic]
  }

  lemma AddWild<H>(typed: Index<H>, wild: map<nat, H>, live: map<nat, Interest<H>>, n: nat, h: H)
    requires Agrees(typed, wild, live, n)
    ensures Agrees(typed, wild[n + 1 := h], live[n + 1 := Interest(ANY, h)], n + 1)
  {
    var more, all := wild[n + 1 := h], live[n + 1 := Interest(ANY, h)];
    assert n + 1 !in live;
    forall id | id in all ensures Filed(typed, more, all[id].topic, id) {
      if id != n + 1 { assert Filed(typed, wild, live[id].topic, id); }
    }
    assert TypedLive(typed, all) by {
      forall t, id | t in typed && id in typed[t] ensures id in all && all[id] == Interest(t, typed[t][id]) {
        assert id in live;
      }
    }
  }

  lemma AddTyped<H>(typed: Index<H>, wild: map<nat, H>, live: map<nat, Interest<H>>, n: nat, t: string, h: H)
    requires Agrees(typed, wild, live, n) && t != "" && t != ANY
    ensures var bucket: map<nat, H> := if t in typed then typed[t] else map[];
            Agrees(typed[t := bucket[n + 1 := h]], wild, live[n + 1 := Interest(t, h)], n + 1)
  {
    var bucket: map<nat, H> := if t in typed then typed[t] else map[];
    var more := typed[t := bucket[n + 1 := h]];
    var all := live[n + 1 := Interest(t, h)];
    assert n + 1 !in live;
    assert n + 1 in more[t];
    forall id | id in all ensures Filed(more, wild, all[id].topic, id) {
      if id != n + 1 { assert Filed(typed, wild, live[id].topic, id); }
    }
    assert TypedLive(more, all) by {
      forall u, id | u in more && id in more[u] ensures id in all && all[id] == Interest(u, more[u][id]) {
        if u != t || id != n + 1 { assert u in typed && id in typed[u] && id in live; }
      }
    }
    assert WildLive(wild, all) by {
      forall id | id in wild ensures id in all && all[id] == Interest(ANY, wild[id]) { assert id in live; }
    }
  }

  lemma DropWild<H>(typed: Index<H>, wild: map<nat, H>, live: map<nat, Interest<H>>, n: nat, id: nat)
    requires Agrees(typed, wild, live, n)
    ensures Agrees(typed, wild - {id}, if id in live && live[id].topic == ANY then live - {id} else live, n)
  {
    var rest := if id in live && live[id].topic == ANY then live - {id} else live;
    assert id in live ==> Filed(typed, wild, live[id].topic, id);
    forall x | x in rest ensures Filed(typed, wild - {id}, rest[x].topic, x) {
      assert Filed(typed, wild, live[x].topic, x);
    }
    assert TypedLive(typed, rest) by {
      forall u, x | u in typed && x in typed[u] ensures x in rest && rest[x] == Interest(u, typed[u][x]) {
        assert x in live && live[x].topic == u;
      }
    }
  }

  /** The index after taking `id` out of the bucket of `t`, without the bucket if that empties it. */
  function WithoutTyped<H>(typed: Index<H>, t: string, id: nat): Index<H> {
    if t !in typed then typed
    else if typed[t] - {id} == map[] then typed - {t}
    else typed[t := typed[t] - {id}]
  }

  lemma DropTyped<H>(typed: Index<H>, wild: map<nat, H>, live: map<nat, Interest<H>>, n: nat, t: string, id: nat)
    requires Agrees(typed, wild, live, n) && t != ANY
    ensures Agrees(WithoutTyped(typed, t, id), wild, if id in live && live[id].topic == t then live - {id} else live, n)
  {
    hide WithoutTyped, TypedLive;
    var less := WithoutTyped(typed, t, id);
    var rest := if id in live && live[id].topic == t then live - {id} else live;
    assert id in live ==> Filed(typed, wild, live[id].topic, id);
    WithoutTypedTidy(typed, live, t, id);
    forall x | x in rest ensures Filed(less, wild, rest[x].topic, x) {
      assert Filed(typed, wild, live[x].topic, x);
      if live[x].topic != ANY { StillFiled(typed, t, id, live[x].topic, x); }
    }
    assert WildLive(wild, rest) by {
      forall x | x in wild ensures x in rest && rest[x] == Interest(ANY, wild[x]) {
        assert x in live && live[x].topic == ANY;
      }
    }
  }

  lemma WithoutTypedTidy<H>(typed: Index<H>, live: map<nat, Interest<H>>, t: string, id: nat)
    requires Tidy(typed) && TypedLive(typed, live)
    ensures Tidy(WithoutTyped(typed, t, id))
    ensures TypedLive(WithoutTyped(typed, t, id), if id in live && live[id].topic == t then live - {id} else live)
  {
    var less := WithoutTyped(typed, t, id);
    var rest := if id in live && live[id].topic == t then live - {id} else live;
    forall u, x | u in less && x in less[u] ensures x in rest && rest[x] == Interest(u, less[u][x]) {
      assert u in typed && x in typed[u] && less[u][x] == typed[u][x] && (u == t ==> x != id);
      assert x in live && live[x].topic == u;
    }
  }

  lemma StillFiled<H>(typed: Index<H>, t: string, id: nat, u: string, x: nat)
    requires u in typed && x in typed[u] && (u == t ==> x != id)
    ensures u in WithoutTyped(typed, t, id) && x in WithoutTyped(typed, t, id)[u]
  {
    if u == t { assert x in typed[t] - {id}; }
  }

  class Bus<H> {
    const historyLimit: int
    var nextID: nat
    var subscribers: map<string, map<nat, H>>
    var wildcards: map<nat, H>
    var history: seq<Event>
    /** The subscriptions in force, by id, without the two-level index. */
    ghost var live: map<nat, Interest<H>>
    /** Everything that ever happened to the history. */
    ghost var changes: seq<Change>

    ghost predicate Valid()
      reads this
    {
      Agrees(subscribers, wildcards, live, nextID) && history == KeptHistory(changes, historyLimit)
    }

    constructor (historyLimit: int)
      ensures Valid() && live == map[] && changes == [] && this.historyLimit == historyLimit
    {
      this.historyLimit := historyLimit;
      nextID, subscribers, wildcards, history := 0, map[], map[], [];
      live, changes := map[], [];
    }

    /** A handler gets an id no subscription has had before. */
    method Subscribe(eventType: string, handler: Option<H>) returns (ok: bool, topic: string, id: nat)
      requires Valid()
      modifies this
      ensures Valid() && history == old(history) && changes == old(changes)
      ensures ok <==> handler.Some?
      ensures !ok ==> live == old(live) && nextID == old(nextID)
      ensures ok ==>
                && id == nextID == old(nextID) + 1
                && topic == (if eventType == "" then ANY else eventType)
                && id !in old(live) && live == old(live)[id := Interest(topic, handler.value)]
    {
      hide Agrees;
      if handler.None? { return false, "", 0; }
      NeverUsed(nextID + 1);
      nextID := nextID + 1;
      id := nextID;
      if eventType == "" || eventType == ANY {
        AddWild(subscribers, wildcards, live, id - 1, handler.value);
        wildcards := wildcards[id := handler.value];
        topic := ANY;
      } else {
        AddTyped(subscribers, wildcards, live, id - 1, eventType, handler.value);
        if eventType !in subscribers { subscribers := subscribers[eventType := map[]]; }
        assert subscribers[eventType] == if eventType in old(subscribers) then old(subscribers)[eventType] else map[];
        var bucket: map<nat, H> := subscribers[eventType][id := handler.value];
        assert subscribers[eventType := bucket] == old(subscribers)[eventType := bucket];
        subscribers := subscribers[eventType := bucket];
        topic := eventType;
      }
      live := live[id := Interest(topic, handler.value)];
      return true, topic, id;
    }

    lemma NeverUsed(id: nat)
      requires Valid() && id > nextID
      ensures id !in live
    {
    }

    /** Removes the subscription with that id and topic, if it is still in force, and no other;
        so doing it again has no effect. */
    method Unsubscribe(topic: string, id: nat)
      requires Valid()
      modifies this
      ensures Valid() && history == old(history) && changes == old(changes) && nextID == old(nextID)
      ensures live == if id in old(live) && old(live)[id].topic == topic then old(live) - {id} else old(live)
    {
      hide Agrees;
      if topic == ANY {
        DropWild(subscribers, wildcards, live, nextID, id);
        wildcards := wildcards - {id};
      } else {
        DropTyped(subscribers, wildcards, live, nextID, topic, id);
        ghost var was := subscribers;
        if topic in subscribers {
          subscribers := subscribers[topic := subscribers[topic] - {id}];
          if subscribers[topic] == map[] { subscribers := subscribers - {topic}; }
        }
        assert subscribers == WithoutTyped(was, topic, id);
      }
      if id in live && live[id].topic == topic { live := live - {id}; }
    }

    /** These are the handlers of each subscription concerned by the type, exactly once. */
    ghost predicate Audience(handlers: seq<H>, eventType: string)
      reads `live
    {
      exists ids: seq<nat> ::
        && |ids| == |handlers| && Distinct(ids)
        && (forall id :: id in ids <==> id in live && Concerns(live[id], eventType))
        && forall i :: 0 <= i < |ids| ==> handlers[i] == live[ids[i]].handler
    }

    method SnapshotHandlers(eventType: string) returns (handlers: seq<H>)
      requires Valid()
      ensures Audience(handlers, eventType)
    {
      hide Agrees, Audience, Distinct;
      ghost var ids, more: seq<nat>;
      var others: seq<H>;
      var bucket := if eventType in subscribers then subscribers[eventType] else map[];
      handlers, ids := Values(bucket);
      others, more := Values(wildcards);
      BothHalves(eventType, bucket, handlers, ids, others, more);
      handlers := handlers + others;
    }

    lemma BothHalves(eventType: string, bucket: map<nat, H>, hs: seq<H>, ids: seq<nat>, others: seq<H>, more: seq<nat>)
      requires Valid() && bucket == if eventType in subscribers then subscribers[eventType] else map[]
      requires |hs| == |ids| && Distinct(ids) && (forall id :: id in ids <==> id in bucket)
      requires |others| == |more| && Distinct(more) && (forall id :: id in more <==> id in wildcards)
      requires forall i :: 0 <= i < |ids| ==> hs[i] == bucket[ids[i]]
      requires forall i :: 0 <= i < |more| ==> others[i] == wildcards[more[i]]
      ensures Audience(hs + others, eventType)
    {
      SnapshotIds(eventType, ids, more);
      hide Agrees, Distinct;
      var all, handlers := ids + more, hs + others;
      forall i | 0 <= i < |all| ensures handlers[i] == live[all[i]].handler {
        if i < |ids| { assert ids[i] in ids; } else { assert more[i - |ids|] in more; }
      }
    }

    lemma SnapshotIds(eventType: string, ids: seq<nat>, more: seq<nat>)
      requires Valid() && Distinct(ids) && Distinct(more)
      requires forall id :: id in ids <==> eventType in subscribers && id in subscribers[eventType]
      requires forall id :: id in more <==> id in wildcards
      ensures Distinct(ids + more)
      ensures forall id :: id in ids + more <==> id in live && Concerns(live[id], eventType)
      ensures forall id :: id in ids ==> id in live && live[id].handler == subscribers[eventType][id]
      ensures forall id :: id in more ==> id in live && live[id].handler == wildcards[id]
    {
      forall id | id in live && Concerns(live[id], eventType) ensures id in ids + more {
        assert Filed(subscribers, wildcards, live[id].topic, id);
      }
      forall a, b | a in ids && b in more ensures a != b {
        assert live[a].topic == eventType && live[b].topic == ANY;
      }
      DistinctAppend(ids, more);
    }

    static method Values(m: map<nat, H>) returns (hs: seq<H>, ghost ids: seq<nat>)
      ensures |hs| == |ids| && Distinct(ids)
      ensures forall id :: id in ids <==> id in m
      ensures forall i :: 0 <= i < |ids| ==> hs[i] == m[ids[i]]
    {
      hs, ids := [], [];
      var left := m.Keys;
      while left != {}
        invariant |hs| == |ids| && Distinct(ids) && left <= m.Keys
        invariant forall id :: id in ids <==> id in m && id !in left
        invariant forall i :: 0 <= i < |ids| ==> hs[i] == m[ids[i]]
        decreases left
      {
        var id :| id in left;
        hs, ids, left := hs + [m[id]], ids + [id], left - {id};
      }
    }

    /** Refused events are neither recorded nor handed on; accepted ones are recorded and go to
        exactly the subscriptions they concern. */
    method Publish(e: Event) returns (ok: bool, handlers: seq<H>)
      requires Valid()
      modifies `history, `changes
      ensures Valid() && live == old(live)
      ensures ok <==> Accepts(e)
      ensures !ok ==> handlers == [] && history == old(history) && changes == old(changes)
      ensures ok ==> changes == old(changes) + [Recorded(e)] && Audience(handlers, e.kind)
    {
      hide Agrees, Audience;
      if e.depth > MAX_DEPTH { return false, []; }
      if !ValidEvent(e) { return false, []; }
      handlers := SnapshotHandlers(e.kind);
      ghost var next := changes + [Recorded(e)];
      assert next[..|next| - 1] == changes;
      changes := next;
      if historyLimit > 0 {
        history := history + [e];
        if |history| > historyLimit { history := history[|history| - historyLimit..]; }
      }
      return true, handlers;
    }

    method RestoreHistory(events: seq<Event>)
      requires Valid()
      modifies `history, `changes
      ensures Valid() && live == old(live)
      ensures changes == old(changes) + [Restored(events)]
    {
      hide Agrees;
      ghost var next := changes + [Restored(events)];
      assert next[..|next| - 1] == changes;
      changes := next;
      if historyLimit <= 0 { return; }
      history := [];
      for i := 0 to |events|
        invariant changes == next && live == old(live) && Agrees(subscribers, wildcards, live, nextID)
        invariant history == RecordAll([], events[..i], historyLimit)
      {
        assert events[..i + 1][..i] == events[..i];
        history := history + [events[i]];
        if |history| > historyLimit { history := history[|history| - historyLimit..]; }
      }
      assert events[..|events|] == events;
    }

    /** With a positive limit L, the history is exactly the last L events of what was restored and
        then published. */
    method History() returns (events: seq<Event>)
      requires Valid()
      ensures historyLimit > 0 ==> events == Last(FullHistory(changes), historyLimit)
      ensures historyLimit <= 0 ==> events == []
    {
      if historyLimit > 0 { HistoryIsTail(changes, historyLimit); }
      events := history;
    }
  }

  /** The handle a subscriber keeps. */
  class Subscription<H> {
    const bus: Bus<H>
    const topic: string
    const id: nat
    var released: bool

    /** The handle names at most its own subscription, and none once released. */
    ghost predicate Valid()
      reads this, bus
    {
      && bus.Valid() && id <= bus.nextID
      && (id in bus.live ==> bus.live[id].topic == topic)
      && (released ==> id !in bus.live)
    }

    constructor (bus: Bus<H>, topic: string, id: nat)
      requires bus.Valid() && id in bus.live && bus.live[id].topic == topic
      ensures Valid() && !released && this.bus == bus && this.topic == topic && this.id == id
    {
      this.bus, this.topic, this.id := bus, topic, id;
      released := false;
    }

    /** The first call ends the subscription; later calls find nothing to do. */
    method Unsubscribe()
      requires Valid()
      modifies this, bus
      ensures Valid() && released
      ensures bus.live == old(bus.live) - {id}
      ensures old(released) ==> bus.live == old(bus.live)
      ensures bus.history == old(bus.history) && bus.changes == old(bus.changes)
    {
      if released { return; }
      released := true;
      bus.Unsubscribe(topic, id);
    }
  }
}
