/** Interpolation of payload trees against an event and a session:
    `interpolate` and `interpolateString` of internal/workflows/engine.go. */
module Interpolation {
  import opened Prelude
  import opened Types
  import opened Templates

  // ---- What the placeholders mean ----

  const FIXED: set<string> :=
    {"event.id", "event.type", "event.source", "event.sessionId", "session.id", "session.state"}

  /** Every placeholder name an event and a session define. */
  ghost function Names(e: Event, s: Session): set<string> {
    FIXED
    + (set k | k in e.payload :: "payload." + k)
    + (set k | k in e.payload :: "event.payload." + k)
    + (set k | k in s.metadata :: "session.metadata." + k)
  }

  ghost function Meaning(name: string, e: Event, s: Session, sprint: Value -> string): string {
    if name == "event.id" then e.id
    else if name == "event.type" then e.kind
    else if name == "event.source" then e.source
    else if name == "event.sessionId" then e.sessionId
    else if name == "session.id" then s.id
    else if name == "session.state" then s.state
    else if "payload." <= name && name[8..] in e.payload then sprint(e.payload[name[8..]])
    else if "event.payload." <= name && name[14..] in e.payload then sprint(e.payload[name[14..]])
    else if "session.metadata." <= name && name[17..] in s.metadata then sprint(s.metadata[name[17..]])
    else ""
  }

  ghost function Env(e: Event, s: Session, sprint: Value -> string): map<string, string> {
    map n | n in Names(e, s) :: Meaning(n, e, s, sprint)
  }

  // ---- The order the code rewrites them in ----

  function EventBindings(e: Event): seq<Binding> {
    [Binding("event.id", e.id), Binding("event.type", e.kind),
     Binding("event.source", e.source), Binding("event.sessionId", e.sessionId)]
  }

  function PayloadBindings(keys: seq<string>, p: Payload, sprint: Value -> string): seq<Binding>
    requires forall k :: k in keys ==> k in p
  {
    if keys == [] then []
    else [Binding("payload." + keys[0], sprint(p[keys[0]])), Binding("event.payload." + keys[0], sprint(p[keys[0]]))]
         + PayloadBindings(keys[1..], p, sprint)
  }

  function SessionBindings(s: Session): seq<Binding> {
    [Binding("session.id", s.id), Binding("session.state", s.state)]
  }

  function MetadataBindings(keys: seq<string>, p: Payload, sprint: Value -> string): seq<Binding>
    requires forall k :: k in keys ==> k in p
  {
    if keys == [] then []
    else [Binding("session.metadata." + keys[0], sprint(p[keys[0]]))] + MetadataBindings(keys[1..], p, sprint)
  }

  ghost predicate Enumerates(keys: seq<string>, p: Payload) {
    Distinct(keys) && forall k :: k in keys <==> k in p
  }

  /** The rewriting sequences map iteration can produce. */
  ghost predicate Schedule(bs: seq<Binding>, e: Event, s: Session, sprint: Value -> string) {
    exists ks, ms ::
      && Enumerates(ks, e.payload) && Enumerates(ms, s.metadata)
      && bs == EventBindings(e) + PayloadBindings(ks, e.payload, sprint) + SessionBindings(s)
               + MetadataBindings(ms, s.metadata, sprint)
  }

  /** A text that interpolating `str` may return. */
  ghost predicate Outcome(str: string, out: string, e: Event, s: Session, sprint: Value -> string) {
    exists bs :: Schedule(bs, e, s, sprint) && out == Rewrite(str, bs)
  }

  lemma {:induction false} PayloadPush(keys: seq<string>, k: string, p: Payload, sprint: Value -> string)
    requires k in p && forall x :: x in keys ==> x in p
    ensures PayloadBindings(keys + [k], p, sprint) == PayloadBindings(keys, p, sprint)
              + [Binding("payload." + k, sprint(p[k])), Binding("event.payload." + k, sprint(p[k]))]
  {
    if keys == [] {
      assert [k][1..] == [];
      assert [] + [k] == [k];
    } else {
      assert (keys + [k])[1..] == keys[1..] + [k];
      PayloadPush(keys[1..], k, p, sprint);
    }
  }

  lemma {:induction false} MetadataPush(keys: seq<string>, k: string, p: Payload, sprint: Value -> string)
    requires k in p && forall x :: x in keys ==> x in p
    ensures MetadataBindings(keys + [k], p, sprint)
         == MetadataBindings(keys, p, sprint) + [Binding("session.metadata." + k, sprint(p[k]))]
  {
    if keys == [] {
      assert [k][1..] == [];
      assert [] + [k] == [k];
    } else {
      assert (keys + [k])[1..] == keys[1..] + [k];
      MetadataPush(keys[1..], k, p, sprint);
    }
  }

  lemma RewriteTwo(str: string, bs: seq<Binding>, b: Binding, c: Binding)
    ensures Rewrite(str, bs + [b, c])
         == ReplaceAll(ReplaceAll(Rewrite(str, bs), Pattern(b.name), b.text), Pattern(c.name), c.text)
  {
    RewriteOne(str, bs, b);
    RewriteOne(str, bs + [b], c);
    assert bs + [b, c] == bs + [b] + [c];
  }

  lemma RewriteOne(str: string, bs: seq<Binding>, b: Binding)
    ensures Rewrite(str, bs + [b]) == ReplaceAll(Rewrite(str, bs), Pattern(b.name), b.text)
  {
    RewriteConcat(str, bs, [b]);
    assert [b][1..] == [];
  }

  /** The payload loop: both spellings of each key, keys in any order. */
  method RewritePayload(str: string, p: Payload, sprint: Value -> string) returns (out: string)
    ensures exists ks :: Enumerates(ks, p) && out == Rewrite(str, PayloadBindings(ks, p, sprint))
  {
    ghost var ks: seq<string> := [];
    out := str;
    var left := p.Keys;
    while left != {}
      invariant Distinct(ks)
      invariant forall k :: k in p <==> k in left || k in ks
      invariant forall k :: !(k in left && k in ks)
      invariant out == Rewrite(str, PayloadBindings(ks, p, sprint))
      decreases left
    {
      var key :| key in left;
      var value := sprint(p[key]);
      PayloadPush(ks, key, p, sprint);
      RewriteTwo(str, PayloadBindings(ks, p, sprint), Binding("payload." + key, value),
                 Binding("event.payload." + key, value));
      out := ReplaceAll(out, Pattern("payload." + key), value);
      out := ReplaceAll(out, Pattern("event.payload." + key), value);
      left := left - {key};
      ks := ks + [key];
    }
  }

  method RewriteMetadata(str: string, p: Payload, sprint: Value -> string) returns (out: string)
    ensures exists ms :: Enumerates(ms, p) && out == Rewrite(str, MetadataBindings(ms, p, sprint))
  {
    ghost var ms: seq<string> := [];
    out := str;
    var left := p.Keys;
    while left != {}
      invariant Distinct(ms)
      invariant forall k :: k in p <==> k in left || k in ms
      invariant forall k :: !(k in left && k in ms)
      invariant out == Rewrite(str, MetadataBindings(ms, p, sprint))
      decreases left
    {
      var key :| key in left;
      MetadataPush(ms, key, p, sprint);
      RewriteOne(str, MetadataBindings(ms, p, sprint), Binding("session.metadata." + key, sprint(p[key])));
      out := ReplaceAll(out, Pattern("session.metadata." + key), sprint(p[key]));
      left := left - {key};
      ms := ms + [key];
    }
  }

  lemma RewriteNone(str: string)
    ensures Rewrite(str, []) == str
  {
  }

  lemma Scheduled(str: string, out: string, ks: seq<string>, ms: seq<string>, e: Event, s: Session,
                  sprint: Value -> string)
    requires Enumerates(ks, e.payload) && Enumerates(ms, s.metadata)
    requires out == Rewrite(str, EventBindings(e) + PayloadBindings(ks, e.payload, sprint) + SessionBindings(s)
                                 + MetadataBindings(ms, s.metadata, sprint))
    ensures Outcome(str, out, e, s, sprint)
  {
    assert Schedule(EventBindings(e) + PayloadBindings(ks, e.payload, sprint) + SessionBindings(s)
                    + MetadataBindings(ms, s.metadata, sprint), e, s, sprint);
  }

  method InterpolateString(str: string, e: Event, s: Session, sprint: Value -> string) returns (out: string)
    ensures Outcome(str, out, e, s, sprint)
  {
    hide ReplaceAll, Pattern, Rewrite, Outcome, Schedule, PayloadBindings, MetadataBindings;
    out := ReplaceAll(str, Pattern("event.id"), e.id);
    out := ReplaceAll(out, Pattern("event.type"), e.kind);
    out := ReplaceAll(out, Pattern("event.source"), e.source);
    out := ReplaceAll(out, Pattern("event.sessionId"), e.sessionId);
    ghost var a := EventBindings(e);
    assert out == Rewrite(str, a) by {
      RewriteNone(str);
      RewriteTwo(str, [], a[0], a[1]);
      assert [] + [a[0], a[1]] == [a[0], a[1]];
      RewriteTwo(str, [a[0], a[1]], a[2], a[3]);
      assert [a[0], a[1]] + [a[2], a[3]] == a;
    }
    ghost var first := out;
    out := RewritePayload(out, e.payload, sprint);
    ghost var ks :| Enumerates(ks, e.payload) && out == Rewrite(first, PayloadBindings(ks, e.payload, sprint));
    ghost var b := PayloadBindings(ks, e.payload, sprint);
    RewriteConcat(str, a, b);
    out := ReplaceAll(out, Pattern("session.id"), s.id);
    out := ReplaceAll(out, Pattern("session.state"), s.state);
    ghost var c := SessionBindings(s);
    RewriteTwo(str, a + b, c[0], c[1]);
    assert c == [c[0], c[1]];
    ghost var third := out;
    out := RewriteMetadata(out, s.metadata, sprint);
    ghost var ms :| Enumerates(ms, s.metadata) && out == Rewrite(third, MetadataBindings(ms, s.metadata, sprint));
    ghost var d := MetadataBindings(ms, s.metadata, sprint);
    RewriteConcat(str, a + b + c, d);
    Scheduled(str, out, ks, ms, e, s, sprint);
  }

  // ---- Every schedule denotes the same environment ----

  lemma {:induction false} PayloadNames(keys: seq<string>, p: Payload, sprint: Value -> string)
    requires forall k :: k in keys ==> k in p
    ensures forall b :: b in PayloadBindings(keys, p, sprint) <==>
              exists k :: k in keys && b.text == sprint(p[k])
                  && (b.name == "payload." + k || b.name == "event.payload." + k)
  {
    if keys != [] {
      PayloadNames(keys[1..], p, sprint);
      assert keys == [keys[0]] + keys[1..];
    }
  }

  lemma {:induction false} MetadataNames(keys: seq<string>, p: Payload, sprint: Value -> string)
    requires forall k :: k in keys ==> k in p
    ensures forall b :: b in MetadataBindings(keys, p, sprint) <==>
              exists k :: k in keys && b.text == sprint(p[k]) && b.name == "session.metadata." + k
  {
    if keys != [] {
      MetadataNames(keys[1..], p, sprint);
      assert keys == [keys[0]] + keys[1..];
    }
  }

  ghost predicate Disjoint(bs: seq<Binding>, cs: seq<Binding>) {
    forall b, c :: b in bs && c in cs ==> b.name != c.name
  }

  lemma DistinctConcat(bs: seq<Binding>, cs: seq<Binding>)
    requires DistinctNames(bs) && DistinctNames(cs) && Disjoint(bs, cs)
    ensures DistinctNames(bs + cs)
  {
  }

  /** Names of different kinds never coincide, and within a kind the key is recoverable. */
  lemma NamesApart(k: string, j: string)
    ensures "payload." + k == "payload." + j ==> k == j
    ensures "event.payload." + k == "event.payload." + j ==> k == j
    ensures "session.metadata." + k == "session.metadata." + j ==> k == j
    ensures "payload." + k != "event.payload." + j && "payload." + k != "session.metadata." + j
    ensures "event.payload." + k != "session.metadata." + j
    ensures "payload." + k !in FIXED && "event.payload." + k !in FIXED && "session.metadata." + k !in FIXED
  {
    assert ("payload." + k)[8..] == k && ("payload." + j)[8..] == j;
    assert ("event.payload." + k)[14..] == k && ("event.payload." + j)[14..] == j;
    assert ("session.metadata." + k)[17..] == k && ("session.metadata." + j)[17..] == j;
    assert ("payload." + k)[0] == 'p';
    assert ("event.payload." + k)[0] == 'e' && ("event.payload." + j)[0] == 'e' && ("event.payload." + k)[6] == 'p';
    assert ("session.metadata." + k)[0] == 's' && ("session.metadata." + j)[0] == 's'
        && ("session.metadata." + k)[8] == 'm';
    assert "event.id"[6] == 'i' && "event.type"[6] == 't' && "event.source"[6] == 's' && "event.sessionId"[6] == 's';
    assert "session.id"[8] == 'i' && "session.state"[8] == 's';
    assert "event.id"[0] == 'e' && "event.type"[0] == 'e' && "event.source"[0] == 'e' && "event.sessionId"[0] == 'e';
    assert "session.id"[0] == 's' && "session.state"[0] == 's';
  }

  lemma {:induction false} PayloadDistinct(keys: seq<string>, p: Payload, sprint: Value -> string)
    requires Distinct(keys) && forall k :: k in keys ==> k in p
    ensures DistinctNames(PayloadBindings(keys, p, sprint))
  {
    if keys != [] {
      PayloadDistinct(keys[1..], p, sprint);
      PayloadNames(keys[1..], p, sprint);
      var k := keys[0];
      var first := [Binding("payload." + k, sprint(p[k])), Binding("event.payload." + k, sprint(p[k]))];
      NamesApart(k, k);
      forall b, c | b in first && c in PayloadBindings(keys[1..], p, sprint) ensures b.name != c.name {
        var j :| j in keys[1..] && (c.name == "payload." + j || c.name == "event.payload." + j);
        NamesApart(k, j);
        NamesApart(j, k);
      }
      DistinctConcat(first, PayloadBindings(keys[1..], p, sprint));
    }
  }

  lemma {:induction false} MetadataDistinct(keys: seq<string>, p: Payload, sprint: Value -> string)
    requires Distinct(keys) && forall k :: k in keys ==> k in p
    ensures DistinctNames(MetadataBindings(keys, p, sprint))
  {
    if keys != [] {
      MetadataDistinct(keys[1..], p, sprint);
      MetadataNames(keys[1..], p, sprint);
      var first := [Binding("session.metadata." + keys[0], sprint(p[keys[0]]))];
      forall b, c | b in first && c in MetadataBindings(keys[1..], p, sprint) ensures b.name != c.name {
        var j :| j in keys[1..] && c.name == "session.metadata." + j;
        NamesApart(keys[0], j);
      }
      DistinctConcat(first, MetadataBindings(keys[1..], p, sprint));
    }
  }

  lemma {:induction false} EnvOfConsistent(bs: seq<Binding>, env: map<string, string>)
    requires forall b :: b in bs ==> b.name in env && env[b.name] == b.text
    ensures forall n :: n in EnvOf(bs) ==> n in env && EnvOf(bs)[n] == env[n]
    ensures forall b :: b in bs ==> b.name in EnvOf(bs)
  {
    if bs != [] {
      EnvOfConsistent(bs[1..], env);
      assert bs == [bs[0]] + bs[1..];
    }
  }

  lemma FixedDistinct(e: Event, s: Session)
    ensures DistinctNames(EventBindings(e)) && DistinctNames(SessionBindings(s))
        && Disjoint(EventBindings(e), SessionBindings(s))
    ensures forall b :: b in EventBindings(e) || b in SessionBindings(s) ==> b.name in FIXED
  {
    assert "event.id"[6] == 'i' && "event.type"[6] == 't' && "event.source"[7] == 'o' && "event.sessionId"[7] == 'e';
    assert "event.source"[6] == 's' && "event.sessionId"[6] == 's';
    assert "session.id"[8] == 'i' && "session.state"[8] == 's';
    assert "event.id"[0] == 'e' && "event.type"[0] == 'e' && "event.source"[0] == 'e' && "event.sessionId"[0] == 'e';
    assert "session.id"[0] == 's' && "session.state"[0] == 's';
  }

  lemma ScheduleDistinct(bs: seq<Binding>, e: Event, s: Session, sprint: Value -> string)
    requires Schedule(bs, e, s, sprint)
    ensures DistinctNames(bs)
  {
    hide PayloadBindings, MetadataBindings, EventBindings, SessionBindings, DistinctNames;
    var ks, ms :| Enumerates(ks, e.payload) && Enumerates(ms, s.metadata)
      && bs == EventBindings(e) + PayloadBindings(ks, e.payload, sprint) + SessionBindings(s)
               + MetadataBindings(ms, s.metadata, sprint);
    var a, b, c, d := EventBindings(e), PayloadBindings(ks, e.payload, sprint), SessionBindings(s),
                      MetadataBindings(ms, s.metadata, sprint);
    FixedDistinct(e, s);
    PayloadDistinct(ks, e.payload, sprint);
    MetadataDistinct(ms, s.metadata, sprint);
    PayloadNames(ks, e.payload, sprint);
    MetadataNames(ms, s.metadata, sprint);
    forall x | x in b ensures x.name !in FIXED && forall y :: y in d ==> x.name != y.name {
      var k :| k in ks && (x.name == "payload." + k || x.name == "event.payload." + k);
      NamesApart(k, k);
      forall y | y in d ensures x.name != y.name {
        var j :| j in ms && y.name == "session.metadata." + j;
        NamesApart(k, j);
      }
    }
    forall y | y in d ensures y.name !in FIXED {
      var j :| j in ms && y.name == "session.metadata." + j;
      NamesApart(j, j);
    }
    DistinctConcat(a, b);
    assert forall x :: x in a + b ==> x in a || x in b;
    DistinctConcat(a + b, c);
    assert forall x :: x in a + b + c ==> x in a || x in b || x in c;
    DistinctConcat(a + b + c, d);
  }

  lemma MeaningOfKeys(k: string, e: Event, s: Session, sprint: Value -> string)
    ensures k in e.payload ==> Meaning("payload." + k, e, s, sprint) == sprint(e.payload[k])
    ensures k in e.payload ==> Meaning("event.payload." + k, e, s, sprint) == sprint(e.payload[k])
    ensures k in s.metadata ==> Meaning("session.metadata." + k, e, s, sprint) == sprint(s.metadata[k])
  {
    NamesApart(k, k);
    var a, b, c := "payload." + k, "event.payload." + k, "session.metadata." + k;
    assert a[8..] == k && b[14..] == k && c[17..] == k;
    assert a !in FIXED && b !in FIXED && c !in FIXED;
    assert b[0] == 'e' && c[0] == 's' && "payload."[0] == 'p' && "event.payload."[0] == 'e';
  }

  lemma FixedMeaning(e: Event, s: Session, sprint: Value -> string)
    ensures forall b :: b in EventBindings(e) || b in SessionBindings(s) ==> b.text == Meaning(b.name, e, s, sprint)
    ensures forall n :: n in FIXED ==> exists b :: (b in EventBindings(e) || b in SessionBindings(s)) && b.name == n
  {
    FixedDistinct(e, s);
    var a, c := EventBindings(e), SessionBindings(s);
    assert a[0] in a && a[1] in a && a[2] in a && a[3] in a && c[0] in c && c[1] in c;
  }

  lemma PayloadEnv(b: Binding, ks: seq<string>, e: Event, s: Session, sprint: Value -> string)
    requires Enumerates(ks, e.payload) && b in PayloadBindings(ks, e.payload, sprint)
    ensures b.name in Names(e, s) && b.text == Meaning(b.name, e, s, sprint)
  {
    PayloadNames(ks, e.payload, sprint);
    var k :| k in ks && b.text == sprint(e.payload[k]) && (b.name == "payload." + k || b.name == "event.payload." + k);
    MeaningOfKeys(k, e, s, sprint);
  }

  lemma MetadataEnv(b: Binding, ms: seq<string>, e: Event, s: Session, sprint: Value -> string)
    requires Enumerates(ms, s.metadata) && b in MetadataBindings(ms, s.metadata, sprint)
    ensures b.name in Names(e, s) && b.text == Meaning(b.name, e, s, sprint)
  {
    MetadataNames(ms, s.metadata, sprint);
    var k :| k in ms && b.text == sprint(s.metadata[k]) && b.name == "session.metadata." + k;
    MeaningOfKeys(k, e, s, sprint);
  }

  lemma NameBound(n: string, ks: seq<string>, ms: seq<string>, e: Event, s: Session, sprint: Value -> string)
    returns (b: Binding)
    requires Enumerates(ks, e.payload) && Enumerates(ms, s.metadata) && n in Names(e, s)
    ensures b.name == n
    ensures b in EventBindings(e) || b in PayloadBindings(ks, e.payload, sprint)
         || b in SessionBindings(s) || b in MetadataBindings(ms, s.metadata, sprint)
  {
    hide PayloadBindings, MetadataBindings, EventBindings, SessionBindings, Meaning;
    PayloadNames(ks, e.payload, sprint);
    MetadataNames(ms, s.metadata, sprint);
    if n in FIXED {
      FixedMeaning(e, s, sprint);
      b :| (b in EventBindings(e) || b in SessionBindings(s)) && b.name == n;
    } else if k :| k in e.payload && (n == "payload." + k || n == "event.payload." + k) {
      b := Binding(n, sprint(e.payload[k]));
      assert k in ks;
    } else {
      var k :| k in s.metadata && n == "session.metadata." + k;
      b := Binding(n, sprint(s.metadata[k]));
      assert k in ms;
    }
  }

  /** Whatever the iteration order, the bindings are the environment of the event and session. */
  lemma ScheduleEnv(bs: seq<Binding>, e: Event, s: Session, sprint: Value -> string)
    requires Schedule(bs, e, s, sprint)
    ensures EnvOf(bs) == Env(e, s, sprint)
  {
    hide PayloadBindings, MetadataBindings, EventBindings, SessionBindings, Meaning, EnvOf;
    var ks, ms :| Enumerates(ks, e.payload) && Enumerates(ms, s.metadata)
      && bs == EventBindings(e) + PayloadBindings(ks, e.payload, sprint) + SessionBindings(s)
               + MetadataBindings(ms, s.metadata, sprint);
    var p, m := PayloadBindings(ks, e.payload, sprint), MetadataBindings(ms, s.metadata, sprint);
    var env := Env(e, s, sprint);
    assert forall b :: b in bs <==> b in EventBindings(e) || b in p || b in SessionBindings(s) || b in m;
    forall b | b in bs ensures b.name in env && env[b.name] == b.text {
      if b in p {
        PayloadEnv(b, ks, e, s, sprint);
      } else if b in m {
        MetadataEnv(b, ms, e, s, sprint);
      } else {
        FixedMeaning(e, s, sprint);
        FixedDistinct(e, s);
      }
    }
    EnvOfConsistent(bs, env);
    forall n | n in env ensures n in EnvOf(bs) {
      var b := NameBound(n, ks, ms, e, s, sprint);
      assert b in bs;
    }
  }

  // ---- What may be rewritten before what ----

  ghost predicate Before(bs: seq<Binding>, m: string, n: string) {
    exists i, j :: 0 <= i < j < |bs| && bs[i].name == m && bs[j].name == n
  }

  /** Some run of the code rewrites `m` before `n`. */
  ghost predicate CanPrecede(m: string, n: string, e: Event, s: Session, sprint: Value -> string) {
    exists bs :: Schedule(bs, e, s, sprint) && Before(bs, m, n)
  }

  /** The place of a placeholder in the code. Payload keys share one, and so do metadata keys. */
  function Place(name: string): nat {
    if name == "event.id" then 0
    else if name == "event.type" then 1
    else if name == "event.source" then 2
    else if name == "event.sessionId" then 3
    else if name == "session.id" then 5
    else if name == "session.state" then 6
    else if "session.metadata." <= name then 7
    else 4
  }

  lemma PlaceOfKeys(k: string)
    ensures Place("payload." + k) == 4 && Place("event.payload." + k) == 4 && Place("session.metadata." + k) == 7
  {
    NamesApart(k, k);
    assert ("payload." + k)[0] == 'p' && ("event.payload." + k)[0] == 'e' && "session.metadata."[0] == 's';
    assert "payload." + k !in FIXED && "event.payload." + k !in FIXED && "session.metadata." + k !in FIXED;
  }

  lemma PayloadPlace(keys: seq<string>, p: Payload, sprint: Value -> string)
    requires forall k :: k in keys ==> k in p
    ensures forall b :: b in PayloadBindings(keys, p, sprint) ==> Place(b.name) == 4
  {
    hide Place, PayloadBindings;
    PayloadNames(keys, p, sprint);
    forall b | b in PayloadBindings(keys, p, sprint) ensures Place(b.name) == 4 {
      var k :| k in keys && (b.name == "payload." + k || b.name == "event.payload." + k);
      PlaceOfKeys(k);
    }
  }

  lemma MetadataPlace(keys: seq<string>, p: Payload, sprint: Value -> string)
    requires forall k :: k in keys ==> k in p
    ensures forall b :: b in MetadataBindings(keys, p, sprint) ==> Place(b.name) == 7
  {
    hide Place, MetadataBindings;
    MetadataNames(keys, p, sprint);
    forall b | b in MetadataBindings(keys, p, sprint) ensures Place(b.name) == 7 {
      var k :| k in keys && b.name == "session.metadata." + k;
      PlaceOfKeys(k);
    }
  }

  ghost predicate Rising(bs: seq<Binding>) {
    forall i, j :: 0 <= i < j < |bs| ==> Place(bs[i].name) <= Place(bs[j].name)
  }

  lemma RisingConcat(bs: seq<Binding>, cs: seq<Binding>, p: nat)
    requires Rising(bs) && Rising(cs)
    requires (forall b :: b in bs ==> Place(b.name) <= p) && forall c :: c in cs ==> p <= Place(c.name)
    ensures Rising(bs + cs)
  {
    hide Place;
    var all := bs + cs;
    forall i, j | 0 <= i < j < |all| ensures Place(all[i].name) <= Place(all[j].name) {
      if i < |bs| <= j { assert all[i] in bs && all[j] in cs; }
    }
  }

  lemma RisingLevel(bs: seq<Binding>, p: nat)
    requires forall b :: b in bs ==> Place(b.name) == p
    ensures Rising(bs)
  {
    hide Place;
    forall i, j | 0 <= i < j < |bs| ensures Place(bs[i].name) <= Place(bs[j].name) {
      assert bs[i] in bs && bs[j] in bs;
    }
  }

  lemma FixedRising(e: Event, s: Session)
    ensures Rising(EventBindings(e)) && Rising(SessionBindings(s))
    ensures forall b :: b in EventBindings(e) ==> Place(b.name) <= 3
    ensures forall b :: b in SessionBindings(s) ==> 5 <= Place(b.name) <= 6
  {
    hide Place;
    FixedPlaces();
  }

  lemma FixedPlaces()
    ensures Place("event.id") == 0 && Place("event.type") == 1 && Place("event.source") == 2
    ensures Place("event.sessionId") == 3 && Place("session.id") == 5 && Place("session.state") == 6
  {
    assert |"event.id"| == 8 && |"event.type"| == 10 && |"event.source"| == 12 && |"event.sessionId"| == 15;
    assert "session.id"[0] == 's' && |"session.state"| == 13;
  }

  /** A placeholder is never rewritten before one with an earlier place: what a payload value spells of
      `event.*`, or a metadata value of anything else, is left alone. */
  lemma PrecedesByPlace(m: string, n: string, e: Event, s: Session, sprint: Value -> string)
    requires CanPrecede(m, n, e, s, sprint)
    ensures Place(m) <= Place(n)
  {
    hide PayloadBindings, MetadataBindings, EventBindings, SessionBindings, Place, Rising;
    var bs :| Schedule(bs, e, s, sprint) && Before(bs, m, n);
    var ks, ms :| Enumerates(ks, e.payload) && Enumerates(ms, s.metadata)
      && bs == EventBindings(e) + PayloadBindings(ks, e.payload, sprint) + SessionBindings(s)
               + MetadataBindings(ms, s.metadata, sprint);
    var a, b, c, d := EventBindings(e), PayloadBindings(ks, e.payload, sprint), SessionBindings(s),
                      MetadataBindings(ms, s.metadata, sprint);
    FixedRising(e, s);
    PayloadPlace(ks, e.payload, sprint);
    MetadataPlace(ms, s.metadata, sprint);
    RisingLevel(b, 4);
    RisingLevel(d, 7);
    RisingConcat(a, b, 4);
    RisingConcat(a + b, c, 5);
    RisingConcat(a + b + c, d, 7);
    RisingBefore(bs, m, n);
  }

  lemma RisingBefore(bs: seq<Binding>, m: string, n: string)
    requires Rising(bs) && Before(bs, m, n)
    ensures Place(m) <= Place(n)
  {
  }

  // ---- The law of interpolation ----

  /** No placeholder can start inside a literal, nor inside a value that some run puts in before it; one
      that stands for itself does no harm. */
  ghost predicate SafeHere(ts: seq<Token>, e: Event, s: Session, sprint: Value -> string) {
    var env := Env(e, s, sprint);
    && (forall n :: n in env ==> BraceFree(n) && (InertFor(ts, n) || env[n] == Pattern(n)))
    && forall m, n :: m in env && n in env && CanPrecede(m, n, e, s, sprint) ==>
         Inert(env[m], n) || env[n] == Pattern(n)
  }

  lemma SafeHereInOrder(ts: seq<Token>, bs: seq<Binding>, e: Event, s: Session, sprint: Value -> string)
    requires SafeHere(ts, e, s, sprint) && Schedule(bs, e, s, sprint)
    ensures DistinctNames(bs) && EnvOf(bs) == Env(e, s, sprint) && SafeInOrder(ts, bs)
  {
    hide Schedule, Env, EnvOf, InertFor, Inert, Pattern;
    ScheduleDistinct(bs, e, s, sprint);
    ScheduleEnv(bs, e, s, sprint);
    forall j | 0 <= j < |bs|
      ensures BraceFree(bs[j].name)
      ensures !Idle(bs[j]) ==> InertFor(ts, bs[j].name) && forall i :: 0 <= i < j ==> Inert(bs[i].text, bs[j].name)
    {
      EnvAt(bs, j);
      forall i | 0 <= i < j && !Idle(bs[j]) ensures Inert(bs[i].text, bs[j].name) {
        EnvAt(bs, i);
        assert Before(bs, bs[i].name, bs[j].name);
      }
    }
  }

  /** On a safe template every run of the code yields the simultaneous substitution of the known
      placeholders, and unknown ones survive. */
  lemma InterpolationIsSubstitution(ts: seq<Token>, out: string, e: Event, s: Session, sprint: Value -> string)
    requires SafeHere(ts, e, s, sprint) && Outcome(Render(ts), out, e, s, sprint)
    ensures out == Render(Fill(ts, Env(e, s, sprint)))
  {
    hide SafeHere, Env;
    var bs :| Schedule(bs, e, s, sprint) && out == Rewrite(Render(ts), bs);
    SafeHereInOrder(ts, bs, e, s, sprint);
    RewriteInOrder(ts, bs);
  }

  /** Templates that are safe in any order are. */
  lemma SafeAnywayIsSafeHere(ts: seq<Token>, e: Event, s: Session, sprint: Value -> string)
    requires Safe(ts, Env(e, s, sprint))
    ensures SafeHere(ts, e, s, sprint)
  {
    hide Schedule, Env, InertFor, Inert, Pattern;
    forall m, n | CanPrecede(m, n, e, s, sprint) ensures m != n {
      var bs :| Schedule(bs, e, s, sprint) && Before(bs, m, n);
      ScheduleDistinct(bs, e, s, sprint);
    }
  }

  // ---- Trees ----

  /** `out` is a tree of the same shape whose texts are outcomes of the texts of `v`. */
  ghost predicate Instance(v: Value, out: Value, e: Event, s: Session, sprint: Value -> string) {
    match v
    case Text(t) => out.Text? && Outcome(t, out.text, e, s, sprint)
    case Object(fields) =>
      && out.Object? && out.fields.Keys == fields.Keys
      && forall k :: k in fields ==> Instance(fields[k], out.fields[k], e, s, sprint)
    case List(items) =>
      && out.List? && |out.items| == |items|
      && forall i :: 0 <= i < |items| ==> Instance(items[i], out.items[i], e, s, sprint)
    case _ => out == v
  }

  method Interpolate(v: Value, e: Event, s: Session, sprint: Value -> string) returns (out: Value)
    ensures Instance(v, out, e, s, sprint)
    decreases v
  {
    hide Outcome;
    match v {
      case Text(t) =>
        var text := InterpolateString(t, e, s, sprint);
        out := Text(text);
      case Object(fields) =>
        var built: map<string, Value> := map[];
        var left := fields.Keys;
        while left != {}
          invariant left <= fields.Keys && built.Keys == fields.Keys - left
          invariant forall k :: k in built ==> Instance(fields[k], built[k], e, s, sprint)
          decreases left
        {
          var key :| key in left;
          var item := Interpolate(fields[key], e, s, sprint);
          built := built[key := item];
          left := left - {key};
        }
        out := Object(built);
      case List(items) =>
        var built: seq<Value> := [];
        for i := 0 to |items|
          invariant |built| == i
          invariant forall j :: 0 <= j < i ==> Instance(items[j], built[j], e, s, sprint)
        {
          var item := Interpolate(items[i], e, s, sprint);
          built := built + [item];
        }
        out := List(built);
      case _ =>
        out := v;
    }
  }

  /** Every text of the tree is a safe template. */
  ghost predicate SafeTree(v: Value, e: Event, s: Session, sprint: Value -> string) {
    match v
    case Text(t) => exists ts :: Render(ts) == t && SafeHere(ts, e, s, sprint)
    case Object(fields) => forall k :: k in fields ==> SafeTree(fields[k], e, s, sprint)
    case List(items) => forall i :: 0 <= i < |items| ==> SafeTree(items[i], e, s, sprint)
    case _ => true
  }

  /** Two runs over a safe tree, in whatever orders, return the same tree. */
  lemma {:induction false} InterpolationDeterministic(v: Value, x: Value, y: Value, e: Event, s: Session,
                                                      sprint: Value -> string)
    requires SafeTree(v, e, s, sprint)
    requires Instance(v, x, e, s, sprint) && Instance(v, y, e, s, sprint)
    ensures x == y
    decreases v
  {
    hide SafeHere, Outcome;
    match v {
      case Text(t) =>
        var ts :| Render(ts) == t && SafeHere(ts, e, s, sprint);
        InterpolationIsSubstitution(ts, x.text, e, s, sprint);
        InterpolationIsSubstitution(ts, y.text, e, s, sprint);
      case Object(fields) =>
        forall k | k in fields ensures x.fields[k] == y.fields[k] {
          InterpolationDeterministic(fields[k], x.fields[k], y.fields[k], e, s, sprint);
        }
        assert x.fields == y.fields;
      case List(items) =>
        forall i | 0 <= i < |items| ensures x.items[i] == y.items[i] {
          InterpolationDeterministic(items[i], x.items[i], y.items[i], e, s, sprint);
        }
        assert x.items == y.items;
      case _ =>
    }
  }

  /** Every text is a template that is safe in any order: a second pass rewrites all of the first's values. */
  ghost predicate SafeTwice(v: Value, env: map<string, string>) {
    match v
    case Text(t) => exists ts :: Render(ts) == t && Safe(ts, env)
    case Object(fields) => forall k :: k in fields ==> SafeTwice(fields[k], env)
    case List(items) => forall i :: 0 <= i < |items| ==> SafeTwice(items[i], env)
    case _ => true
  }

  lemma TextIdempotent(t: string, x: string, y: string, e: Event, s: Session, sprint: Value -> string)
    requires SafeTwice(Text(t), Env(e, s, sprint))
    requires forall n :: n in Env(e, s, sprint) ==> Settled(Env(e, s, sprint)[n], n)
    requires Outcome(t, x, e, s, sprint) && Outcome(x, y, e, s, sprint)
    ensures x == y
  {
    hide Env, Outcome, Settled, Safe, SafeHere, Render;
    var env := Env(e, s, sprint);
    var ts :| Render(ts) == t && Safe(ts, env);
    SafeAnywayIsSafeHere(ts, e, s, sprint);
    InterpolationIsSubstitution(ts, x, e, s, sprint);
    SettledIsFilled(ts, env);
    SettledStaysSafe(ts, env);
    SafeAnywayIsSafeHere(Settle(ts, env), e, s, sprint);
    InterpolationIsSubstitution(Settle(ts, env), y, e, s, sprint);
  }

  /** Interpolating an interpolated safe tree changes nothing, when every value may stand in its own
      place. */
  lemma {:induction false} InterpolationIdempotent(v: Value, x: Value, y: Value, e: Event, s: Session,
                                                   sprint: Value -> string)
    requires SafeTwice(v, Env(e, s, sprint))
    requires forall n :: n in Env(e, s, sprint) ==> Settled(Env(e, s, sprint)[n], n)
    requires Instance(v, x, e, s, sprint) && Instance(x, y, e, s, sprint)
    ensures x == y
    decreases v
  {
    hide Env, Outcome, Settled;
    match v {
      case Text(t) => TextIdempotent(t, x.text, y.text, e, s, sprint);
      case Object(fields) =>
        forall k | k in fields ensures x.fields[k] == y.fields[k] {
          InterpolationIdempotent(fields[k], x.fields[k], y.fields[k], e, s, sprint);
        }
        assert x.fields == y.fields;
      case List(items) =>
        forall i | 0 <= i < |items| ensures x.items[i] == y.items[i] {
          InterpolationIdempotent(items[i], x.items[i], y.items[i], e, s, sprint);
        }
        assert x.items == y.items;
      case _ =>
    }
  }

  // ---- There is always an outcome ----

  lemma {:induction false} KeysOf(keys: set<string>) returns (ks: seq<string>)
    ensures Distinct(ks) && forall k :: k in ks <==> k in keys
    decreases keys
  {
    if keys == {} {
      ks := [];
    } else {
      var k :| k in keys;
      var rest := KeysOf(keys - {k});
      ks := [k] + rest;
    }
  }

  lemma OutcomeExists(str: string, e: Event, s: Session, sprint: Value -> string)
    ensures exists out :: Outcome(str, out, e, s, sprint)
  {
    hide PayloadBindings, MetadataBindings;
    var ks := KeysOf(e.payload.Keys);
    var ms := KeysOf(s.metadata.Keys);
    var out := Rewrite(str, EventBindings(e) + PayloadBindings(ks, e.payload, sprint) + SessionBindings(s)
                            + MetadataBindings(ms, s.metadata, sprint));
    Scheduled(str, out, ks, ms, e, s, sprint);
  }

  /** Some tree the code may return. */
  ghost function AnInstance(v: Value, e: Event, s: Session, sprint: Value -> string): (out: Value)
    ensures Instance(v, out, e, s, sprint)
    decreases v
  {
    match v
    case Text(t) =>
      OutcomeExists(t, e, s, sprint);
      var out :| Outcome(t, out, e, s, sprint);
      Text(out)
    case Object(fields) => Object(map k | k in fields :: AnInstance(fields[k], e, s, sprint))
    case List(items) => List(seq(|items|, i requires 0 <= i < |items| => AnInstance(items[i], e, s, sprint)))
    case _ => v
  }

  datatype Step = Key(name: string) | Index(i: nat)

  /** The subtree at a path, if there is one. */
  function At(v: Value, path: seq<Step>): Option<Value>
    decreases path
  {
    if path == [] then Some(v)
    else if v.Object? && path[0].Key? && path[0].name in v.fields then At(v.fields[path[0].name], path[1..])
    else if v.List? && path[0].Index? && path[0].i < |v.items| then At(v.items[path[0].i], path[1..])
    else None
  }

  /** Interpolation keeps every path, and acts on the subtree at each path independently. */
  lemma {:induction false} InterpolationKeepsPaths(v: Value, x: Value, path: seq<Step>, e: Event, s: Session,
                                                   sprint: Value -> string)
    requires Instance(v, x, e, s, sprint)
    ensures At(v, path).Some? <==> At(x, path).Some?
    ensures At(v, path).Some? ==> Instance(At(v, path).value, At(x, path).value, e, s, sprint)
    decreases path
  {
    if path != [] {
      if v.Object? && path[0].Key? && path[0].name in v.fields {
        InterpolationKeepsPaths(v.fields[path[0].name], x.fields[path[0].name], path[1..], e, s, sprint);
      } else if v.List? && path[0].Index? && path[0].i < |v.items| {
        InterpolationKeepsPaths(v.items[path[0].i], x.items[path[0].i], path[1..], e, s, sprint);
      }
    }
  }
}
