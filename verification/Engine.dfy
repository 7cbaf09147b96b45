/** The workflow engine: internal/workflows/engine.go. */
module Engine {
  import opened Prelude
  import opened Decimal
  import opened Types
  import opened Workflow
  import opened Interpolation
  import opened Actions

  // ---- What an event asks for ----

  /** A rule together with one of its actions. */
  datatype Item = Item(rule: Rule, spec: ActionSpec)

  function ItemsOf(r: Rule): (items: seq<Item>)
    ensures |items| == |GetActions(r)|
  {
    seq(|GetActions(r)|, i requires 0 <= i < |GetActions(r)| => Item(r, GetActions(r)[i]))
  }

  /** The actions an event asks for: matching rules in rule order, their actions in order. */
  function Plan(rules: seq<Rule>, e: Event, session: Session, sprint: Value -> string): seq<Item> {
    if rules == [] then []
    else ItemsIfMatching(rules[0], e, session, sprint) + Plan(rules[1..], e, session, sprint)
  }

  function ItemsIfMatching(r: Rule, e: Event, session: Session, sprint: Value -> string): seq<Item> {
    if Matches(r, e, session, sprint) then ItemsOf(r) else []
  }

  /** The id of the action that drew number `seqNo`. */
  function ActionId(ruleId: string, seqNo: nat): string {
    Tag("workflow-" + ruleId, seqNo)
  }

  /** Everything of a new action except its payload. */
  function Draft(item: Item, e: Event, seqNo: nat, payload: Payload, now: nat): Action {
    Action(ActionId(item.rule.id, seqNo), item.spec.kind, item.spec.risk, Requested, "workflow:" + item.rule.id,
           e.sessionId, TraceOf(e), e.depth + 1, payload, now)
  }

  function BasePayload(r: Rule, e: Event): Payload {
    map["workflowRuleId" := Text(r.id), "eventId" := Text(e.id), "eventType" := Text(e.kind),
        "eventSource" := Text(e.source)]
  }

  /** A payload the engine may build for an item: the event's coordinates, overridden by the
      interpolated payload of the rule. */
  ghost predicate PayloadFor(p: Payload, item: Item, e: Event, session: Session, sprint: Value -> string) {
    && p.Keys == BasePayload(item.rule, e).Keys + item.spec.payload.Keys
    && (forall k :: k in item.spec.payload ==> Instance(item.spec.payload[k], p[k], e, session, sprint))
    && forall k :: k in p && k !in item.spec.payload ==> p[k] == BasePayload(item.rule, e)[k]
  }

  ghost predicate ActionFor(a: Action, item: Item, e: Event, seqNo: nat, session: Session, sprint: Value -> string,
                            now: nat) {
    && a == Draft(item, e, seqNo, a.payload, now)
    && PayloadFor(a.payload, item, e, session, sprint)
  }

  lemma DraftFor(item: Item, e: Event, seqNo: nat, p: Payload, session: Session, sprint: Value -> string, now: nat)
    requires PayloadFor(p, item, e, session, sprint)
    ensures ActionFor(Draft(item, e, seqNo, p, now), item, e, seqNo, session, sprint, now)
  {
  }

  /** Some payload the engine may build. */
  ghost function APayload(item: Item, e: Event, session: Session, sprint: Value -> string): (p: Payload)
    ensures PayloadFor(p, item, e, session, sprint)
  {
    var base, mine := BasePayload(item.rule, e), item.spec.payload;
    map k | k in base.Keys + mine.Keys :: if k in mine then AnInstance(mine[k], e, session, sprint) else base[k]
  }

  /** `actions` answer `items` one for one, numbered upwards from `seqNo + 1`. */
  ghost predicate ActionsFor(actions: seq<Action>, items: seq<Item>, e: Event, seqNo: nat, session: Session,
                             sprint: Value -> string, now: nat) {
    && |actions| == |items|
    && forall i :: 0 <= i < |items| ==> ActionFor(actions[i], items[i], e, seqNo + i + 1, session, sprint, now)
  }

  /** The engine always has something to return for its items. */
  lemma SomeActions(items: seq<Item>, e: Event, seqNo: nat, session: Session, sprint: Value -> string, now: nat)
    returns (actions: seq<Action>)
    ensures ActionsFor(actions, items, e, seqNo, session, sprint, now)
  {
    hide PayloadFor;
    actions := seq(|items|, i requires 0 <= i < |items| =>
      Draft(items[i], e, seqNo + i + 1, APayload(items[i], e, session, sprint), now));
  }

  ghost predicate ValidRules(rules: seq<Rule>) {
    forall i :: 0 <= i < |rules| ==> ValidRule(rules[i])
  }

  lemma {:induction false} PlanConcat(rs: seq<Rule>, qs: seq<Rule>, e: Event, session: Session, sprint: Value -> string)
    ensures Plan(rs + qs, e, session, sprint) == Plan(rs, e, session, sprint) + Plan(qs, e, session, sprint)
  {
    hide ItemsIfMatching;
    if rs == [] {
      assert rs + qs == qs;
    } else {
      assert (rs + qs)[1..] == rs[1..] + qs;
      PlanConcat(rs[1..], qs, e, session, sprint);
    }
  }

  lemma {:induction false} PlanSound(rules: seq<Rule>, e: Event, session: Session, sprint: Value -> string)
    ensures forall i :: 0 <= i < |Plan(rules, e, session, sprint)| ==>
              var item := Plan(rules, e, session, sprint)[i];
              item.rule in rules && Matches(item.rule, e, session, sprint) && item.spec in GetActions(item.rule)
  {
    if rules != [] {
      PlanSound(rules[1..], e, session, sprint);
    }
  }

  /** A drafted action of a valid rule is a valid action. */
  lemma DraftValid(item: Item, e: Event, seqNo: nat, payload: Payload, now: nat)
    requires ValidRule(item.rule) && item.spec in GetActions(item.rule) && now != 0
    ensures ValidAction(Draft(item, e, seqNo, payload, now))
  {
    var a := Draft(item, e, seqNo, payload, now);
    assert a.id[0] == 'w' && a.source[0] == 'w';
  }

  /** All the ids drawn from one engine are distinct, even between rules whose ids contain
      dashes and digits, as long as the 64-bit counter has not come round. */
  lemma ActionIdsDistinct(r: string, m: nat, q: string, n: nat)
    ensures m < n < m + TWO64 ==> ActionId(r, m) != ActionId(q, n)
    ensures ActionId(r, m) == ActionId(q, n) <==> r == q && m % TWO64 == n % TWO64
  {
    TagInjective("workflow-" + r, m, "workflow-" + q, n);
    if "workflow-" + r == "workflow-" + q {
      assert r == ("workflow-" + r)[9..] && q == ("workflow-" + q)[9..];
    }
    if m < n < m + TWO64 {
      TagFresh("workflow-" + r, m, "workflow-" + q, n);
    }
  }

  datatype HandleError = InvalidEvent | InvalidAction | SinkRefused

  /** The engine and, in `sent`, the requests its sink has accepted. The sink is the runtime:
      it refuses a request exactly when the gate does. */
  class Engine {
    var rules: seq<Rule>
    var idSeq: nat
    var sent: seq<Action>

    ghost predicate Valid()
      reads this
    {
      ValidRules(rules)
    }

    constructor ()
      ensures Valid() && rules == [] && idSeq == 0 && sent == []
    {
      rules, idSeq, sent := [], 0, [];
    }

    /** All or nothing: one invalid rule leaves the old rules in place. */
    method SetRules(newRules: seq<Rule>) returns (err: Option<Error>)
      requires Valid()
      modifies `rules
      ensures Valid()
      ensures err.None? <==> ValidRules(newRules)
      ensures rules == if err.None? then newRules else old(rules)
    {
      var validated: seq<Rule> := [];
      for i := 0 to |newRules|
        invariant ValidRules(newRules[..i]) && validated == newRules[..i]
        invariant rules == old(rules)
      {
        var e := ValidateRule(newRules[i]);
        if e.Some? { return e; }
        validated := validated + [newRules[i]];
      }
      rules := validated;
      return None;
    }

    method BuildPayload(item: Item, e: Event, session: Session, sprint: Value -> string) returns (p: Payload)
      ensures PayloadFor(p, item, e, session, sprint)
    {
      var base := BasePayload(item.rule, e);
      var source := item.spec.payload;
      p := base;
      var left := source.Keys;
      while left != {}
        invariant left <= source.Keys
        invariant p.Keys == base.Keys + (source.Keys - left)
        invariant forall k :: k in source.Keys - left ==> Instance(source[k], p[k], e, session, sprint)
        invariant forall k :: k in p && k !in source.Keys - left ==> p[k] == base[k]
        decreases left
      {
        var key :| key in left;
        var value := Interpolate(source[key], e, session, sprint);
        p := p[key := value];
        left := left - {key};
      }
    }

    method NewActions(r: Rule, e: Event, session: Session, sprint: Value -> string, now: nat)
      returns (requests: seq<Action>)
      modifies `idSeq
      ensures idSeq == old(idSeq) + |GetActions(r)|
      ensures ActionsFor(requests, ItemsOf(r), e, old(idSeq), session, sprint, now)
    {
      hide ActionFor, PayloadFor, Draft;
      var specs := GetActions(r);
      requests := [];
      for i := 0 to |specs|
        invariant idSeq == old(idSeq) + i
        invariant |requests| == i
        invariant forall j :: 0 <= j < i ==>
            ActionFor(requests[j], ItemsOf(r)[j], e, old(idSeq) + j + 1, session, sprint, now)
      {
        idSeq := idSeq + 1;
        var item := Item(r, specs[i]);
        var p := BuildPayload(item, e, session, sprint);
        DraftFor(item, e, idSeq, p, session, sprint, now);
        requests := requests + [Draft(item, e, idSeq, p, now)];
      }
    }

    /** Hands the requests to the sink one by one, stopping at the first one refused. */
    method Submit(requests: seq<Action>, mode: Mode) returns (accepted: seq<Action>, err: Option<HandleError>)
      modifies `sent
      ensures sent == old(sent) + accepted
      ensures accepted <= requests && forall a :: a in accepted ==> ValidAction(a) && !mode.UnknownMode?
      ensures err.None? ==> accepted == requests
      ensures err.Some? ==> |accepted| < |requests|
                            && err.value == if ValidAction(requests[|accepted|]) then SinkRefused else InvalidAction
      ensures err == Some(SinkRefused) ==> mode.UnknownMode?
    {
      accepted := [];
      for j := 0 to |requests|
        invariant sent == old(sent) + accepted
        invariant accepted == requests[..j] && forall a :: a in accepted ==> ValidAction(a)
        invariant mode.UnknownMode? ==> j == 0
      {
        if !ValidAction(requests[j]) { return accepted, Some(InvalidAction); }
        if Decide(mode, requests[j]).Refused? { return accepted, Some(SinkRefused); }
        sent := sent + [requests[j]];
        accepted := accepted + [requests[j]];
      }
      assert requests[..|requests|] == requests;
      return accepted, None;
    }

    /** One rule's share of an event. */
    method HandleRule(r: Rule, e: Event, session: Session, sprint: Value -> string, mode: Mode, now: nat)
      returns (accepted: seq<Action>, err: Option<HandleError>)
      requires ValidRule(r) && now != 0
      modifies `idSeq, `sent
      ensures sent == old(sent) + accepted
      ensures idSeq == old(idSeq) + |ItemsIfMatching(r, e, session, sprint)|
      ensures !mode.UnknownMode? ==>
                && err == None
                && ActionsFor(accepted, ItemsIfMatching(r, e, session, sprint), e, old(idSeq), session, sprint, now)
      ensures mode.UnknownMode? ==>
                && accepted == []
                && err == if ItemsIfMatching(r, e, session, sprint) == [] then None else Some(SinkRefused)
    {
      hide ValidAction, ActionFor, Matches, ValidRule;
      if !Matches(r, e, session, sprint) { return [], None; }
      var made := NewActions(r, e, session, sprint, now);
      DraftsValid(made, r, e, old(idSeq), session, sprint, now);
      accepted, err := Submit(made, mode);
      assert err.Some? ==> made[|accepted|] in made;
      assert accepted != [] ==> accepted[0] in accepted;
    }

    /** For an event that validates under a mode the gate knows, handling never fails: it returns,
        and has sent to the sink, exactly the actions of the matching rules in plan order. */
    method HandleEvent(e: Event, session: Session, sprint: Value -> string, mode: Mode, now: nat)
      returns (requested: seq<Action>, err: Option<HandleError>)
      requires Valid() && now != 0
      modifies `idSeq, `sent
      ensures Valid()
      ensures sent == old(sent) + requested
      ensures !ValidEvent(e) ==> err == Some(InvalidEvent) && requested == [] && idSeq == old(idSeq)
      ensures ValidEvent(e) && !mode.UnknownMode? ==>
                && err == None
                && idSeq == old(idSeq) + |Plan(rules, e, session, sprint)|
                && ActionsFor(requested, Plan(rules, e, session, sprint), e, old(idSeq), session, sprint, now)
      ensures ValidEvent(e) && mode.UnknownMode? ==>
                && requested == []
                && err == if Plan(rules, e, session, sprint) == [] then None else Some(SinkRefused)
    {
      hide ActionsFor, Plan;
      requested := [];
      if !ValidEvent(e) { return requested, Some(InvalidEvent); }
      PlanNone(rules, e, old(idSeq), session, sprint, now);
      ghost var start := idSeq;
      for i := 0 to |rules|
        invariant rules == old(rules) && sent == old(sent) + requested
        invariant idSeq == start + |Plan(rules[..i], e, session, sprint)|
        invariant mode.UnknownMode? ==> Plan(rules[..i], e, session, sprint) == [] && requested == []
        invariant !mode.UnknownMode? ==>
                    ActionsFor(requested, Plan(rules[..i], e, session, sprint), e, start, session, sprint, now)
      {
        PlanStep(rules, i, e, session, sprint);
        PlanSplit(rules, i + 1, e, session, sprint);
        var accepted, failed := HandleRule(rules[i], e, session, sprint, mode, now);
        if failed.Some? { return requested, failed; }
        if !mode.UnknownMode? {
          ActionsForConcat(requested, Plan(rules[..i], e, session, sprint), accepted,
                           ItemsIfMatching(rules[i], e, session, sprint), e, start, session, sprint, now);
        }
        requested := requested + accepted;
      }
      assert rules[..|rules|] == rules;
      return requested, None;
    }
  }

  lemma PlanNone(rules: seq<Rule>, e: Event, seqNo: nat, session: Session, sprint: Value -> string, now: nat)
    ensures Plan(rules[..0], e, session, sprint) == []
    ensures ActionsFor([], [], e, seqNo, session, sprint, now)
  {
  }

  lemma PlanStep(rules: seq<Rule>, i: nat, e: Event, session: Session, sprint: Value -> string)
    requires i < |rules|
    ensures Plan(rules[..i + 1], e, session, sprint) == Plan(rules[..i], e, session, sprint)
              + ItemsIfMatching(rules[i], e, session, sprint)
  {
    assert rules[..i + 1] == rules[..i] + [rules[i]];
    PlanConcat(rules[..i], [rules[i]], e, session, sprint);
    assert [rules[i]][1..] == [];
  }

  lemma PlanSplit(rules: seq<Rule>, i: nat, e: Event, session: Session, sprint: Value -> string)
    requires i <= |rules|
    ensures Plan(rules, e, session, sprint)
        == Plan(rules[..i], e, session, sprint) + Plan(rules[i..], e, session, sprint)
  {
    assert rules == rules[..i] + rules[i..];
    PlanConcat(rules[..i], rules[i..], e, session, sprint);
  }

  lemma DraftsValid(made: seq<Action>, r: Rule, e: Event, seqNo: nat, session: Session, sprint: Value -> string,
                    now: nat)
    requires ActionsFor(made, ItemsOf(r), e, seqNo, session, sprint, now) && ValidRule(r) && now != 0
    ensures made != [] && forall a :: a in made ==> ValidAction(a)
  {
    hide Blank, PayloadFor;
    forall i | 0 <= i < |made| ensures ValidAction(made[i]) {
      var item := ItemsOf(r)[i];
      assert ActionFor(made[i], item, e, seqNo + i + 1, session, sprint, now);
      DraftValid(item, e, seqNo + i + 1, made[i].payload, now);
    }
  }

  lemma ActionsForConcat(xs: seq<Action>, items: seq<Item>, ys: seq<Action>, more: seq<Item>, e: Event, seqNo: nat,
                         session: Session, sprint: Value -> string, now: nat)
    requires ActionsFor(xs, items, e, seqNo, session, sprint, now)
    requires ActionsFor(ys, more, e, seqNo + |items|, session, sprint, now)
    ensures ActionsFor(xs + ys, items + more, e, seqNo, session, sprint, now)
  {
    hide Draft, PayloadFor;
    var n := |items|;
    var zs, all := xs + ys, items + more;
    forall i | 0 <= i < |all|
      ensures ActionFor(zs[i], all[i], e, seqNo + i + 1, session, sprint, now)
    {
      if i < n {
        var a, item := xs[i], items[i];
        assert zs[i] == a && all[i] == item;
        assert ActionFor(a, item, e, seqNo + i + 1, session, sprint, now);
      } else {
        var a, item := ys[i - n], more[i - n];
        assert zs[i] == a && all[i] == item;
        assert seqNo + n + (i - n) + 1 == seqNo + i + 1;
        assert ActionFor(a, item, e, seqNo + n + (i - n) + 1, session, sprint, now);
      }
    }
  }

  lemma ActionIdAt(actions: seq<Action>, items: seq<Item>, i: nat, e: Event, seqNo: nat, session: Session,
                   sprint: Value -> string, now: nat)
    requires ActionsFor(actions, items, e, seqNo, session, sprint, now) && i < |actions|
    ensures |items| == |actions| && actions[i].id == ActionId(items[i].rule.id, seqNo + i + 1)
  {
    assert ActionFor(actions[i], items[i], e, seqNo + i + 1, session, sprint, now);
  }

  /** The ids handed out for one event differ from each other and from every id the engine drew
      before, until 2^64 numbers later the counter comes round. */
  lemma HandledIdsDistinct(actions: seq<Action>, items: seq<Item>, i: nat, e: Event, seqNo: nat, session: Session,
                           sprint: Value -> string, now: nat)
    requires ActionsFor(actions, items, e, seqNo, session, sprint, now) && i < |actions|
    ensures forall j :: 0 <= j < i && i - j < TWO64 ==> actions[j].id != actions[i].id
    ensures forall r, n :: 0 < n <= seqNo && seqNo + i + 1 < n + TWO64 ==> ActionId(r, n) != actions[i].id
  {
    hide ActionsFor, ActionId;
    ActionIdAt(actions, items, i, e, seqNo, session, sprint, now);
    forall j | 0 <= j < i && i - j < TWO64 ensures actions[j].id != actions[i].id {
      ActionIdAt(actions, items, j, e, seqNo, session, sprint, now);
      ActionIdsDistinct(items[j].rule.id, seqNo + j + 1, items[i].rule.id, seqNo + i + 1);
    }
    forall r, n | 0 < n <= seqNo && seqNo + i + 1 < n + TWO64 ensures ActionId(r, n) != actions[i].id {
      ActionIdsDistinct(r, n, items[i].rule.id, seqNo + i + 1);
    }
  }
}
