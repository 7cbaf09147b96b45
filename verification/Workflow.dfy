/** Workflow rules: pkg/types/workflow.go. */
module Workflow {
  import opened Prelude
  import opened Types

  datatype Condition = Condition(field: string, operator: string, value: string)

  datatype Trigger = Trigger(eventType: string, source: string, conditions: seq<Condition>)

  datatype ActionSpec = ActionSpec(kind: string, risk: Risk, payload: Payload)

  /** `action` is the deprecated single action, used only when `actions` is empty. */
  datatype Rule = Rule(id: string, name: string, enabled: bool, trigger: Trigger,
                       action: Option<ActionSpec>, actions: seq<ActionSpec>)

  datatype Flow = Flow(id: string, name: string, enabled: bool, rules: seq<Rule>)

  datatype Error = WorkflowIdRequired | RuleIdRequired | EventTypeRequired | ActionRequired | ActionTypeRequired
                 | RiskInvalid | RuleRequired | DuplicateRule

  function GetActions(r: Rule): seq<ActionSpec> {
    if |r.actions| > 0 then r.actions
    else if r.action.Some? then [r.action.value]
    else []
  }

  predicate ValidSpec(a: ActionSpec) {
    !Blank(a.kind) && !a.risk.UnknownRisk?
  }

  ghost predicate ValidRule(r: Rule) {
    && !Blank(r.id) && !Blank(r.trigger.eventType)
    && GetActions(r) != []
    && forall i :: 0 <= i < |GetActions(r)| ==> ValidSpec(GetActions(r)[i])
  }

  ghost predicate DistinctIds(rules: seq<Rule>) {
    forall i, j :: 0 <= i < j < |rules| ==> rules[i].id != rules[j].id
  }

  ghost predicate ValidFlow(w: Flow) {
    && !Blank(w.id) && w.rules != []
    && (forall i :: 0 <= i < |w.rules| ==> ValidRule(w.rules[i]))
    && DistinctIds(w.rules)
  }

  ghost predicate FirstBadSpec(r: Rule, i: nat) {
    && i < |GetActions(r)| && !ValidSpec(GetActions(r)[i])
    && forall j :: 0 <= j < i ==> ValidSpec(GetActions(r)[j])
  }

  /** What a reported error of a rule says: the first thing wrong with it. */
  ghost predicate RuleFault(r: Rule, e: Error) {
    match e
    case RuleIdRequired => Blank(r.id)
    case EventTypeRequired => !Blank(r.id) && Blank(r.trigger.eventType)
    case ActionRequired => !Blank(r.id) && !Blank(r.trigger.eventType) && GetActions(r) == []
    case ActionTypeRequired =>
      !Blank(r.id) && !Blank(r.trigger.eventType) && exists i: nat :: FirstBadSpec(r, i) && Blank(GetActions(r)[i].kind)
    case RiskInvalid =>
      !Blank(r.id) && !Blank(r.trigger.eventType)
      && exists i: nat :: FirstBadSpec(r, i) && !Blank(GetActions(r)[i].kind)
    case _ => false
  }

  method ValidateRule(r: Rule) returns (err: Option<Error>)
    ensures err.None? <==> ValidRule(r)
    ensures err.Some? ==> RuleFault(r, err.value)
  {
    hide Blank;
    if Blank(r.id) { return Some(RuleIdRequired); }
    if Blank(r.trigger.eventType) { return Some(EventTypeRequired); }
    var actions := GetActions(r);
    if |actions| == 0 { return Some(ActionRequired); }
    for i := 0 to |actions|
      invariant forall j :: 0 <= j < i ==> ValidSpec(actions[j])
    {
      if Blank(actions[i].kind) {
        assert FirstBadSpec(r, i);
        return Some(ActionTypeRequired);
      }
      if actions[i].risk.UnknownRisk? {
        assert FirstBadSpec(r, i);
        return Some(RiskInvalid);
      }
    }
    return None;
  }

  /** Rule `i` is the first one that is invalid or repeats the id of an earlier one. */
  ghost predicate FirstBadRule(w: Flow, i: nat) {
    && i < |w.rules| && DistinctIds(w.rules[..i])
    && (forall j :: 0 <= j < i ==> ValidRule(w.rules[j]))
    && (ValidRule(w.rules[i]) ==> exists j :: 0 <= j < i && w.rules[j].id == w.rules[i].id)
  }

  /** What a reported error of a workflow says: the first thing wrong with it. */
  ghost predicate FlowFault(w: Flow, e: Error) {
    match e
    case WorkflowIdRequired => Blank(w.id)
    case RuleRequired => !Blank(w.id) && w.rules == []
    case DuplicateRule => !Blank(w.id) && exists i: nat :: FirstBadRule(w, i) && ValidRule(w.rules[i])
    case _ => !Blank(w.id) && exists i: nat :: FirstBadRule(w, i) && RuleFault(w.rules[i], e)
  }

  /** Accepts exactly the workflows with an id and at least one rule, whose rules are valid
      and have pairwise distinct ids. */
  method ValidateFlow(w: Flow) returns (err: Option<Error>)
    ensures err.None? <==> ValidFlow(w)
    ensures err.Some? ==> FlowFault(w, err.value)
  {
    hide Blank, ValidRule, RuleFault;
    if Blank(w.id) { return Some(WorkflowIdRequired); }
    if |w.rules| == 0 { return Some(RuleRequired); }
    var seen: set<string> := {};
    for i := 0 to |w.rules|
      invariant forall j :: 0 <= j < i ==> ValidRule(w.rules[j])
      invariant DistinctIds(w.rules[..i])
      invariant seen == set j | 0 <= j < i :: w.rules[j].id
    {
      var e := ValidateRule(w.rules[i]);
      if e.Some? {
        RuleFaultKinds(w.rules[i], e.value);
        assert FirstBadRule(w, i);
        return e;
      }
      if w.rules[i].id in seen {
        assert FirstBadRule(w, i);
        return Some(DuplicateRule);
      }
      seen := seen + {w.rules[i].id};
    }
    assert w.rules[..|w.rules|] == w.rules;
    return None;
  }

  /** A rule's faults are none of a workflow's own. */
  lemma RuleFaultKinds(r: Rule, e: Error)
    requires RuleFault(r, e)
    ensures e != WorkflowIdRequired && e != RuleRequired && e != DuplicateRule && !ValidRule(r)
  {
  }

  /** The rules a workflow contributes to the engine, in order. */
  function EnabledRules(w: Flow): seq<Rule> {
    if w.enabled then Filter((r: Rule) => r.enabled, w.rules) else []
  }

  method CollectEnabled(w: Flow) returns (rules: seq<Rule>)
    ensures rules == EnabledRules(w)
  {
    hide Filter;
    assert w.rules[..0] == [];
    rules := [];
    if !w.enabled { return; }
    ghost var p := (r: Rule) => r.enabled;
    FilterOne(p, w.rules);
    for i := 0 to |w.rules|
      invariant rules == Filter(p, w.rules[..i])
    {
      assert w.rules[..i + 1] == w.rules[..i] + [w.rules[i]];
      FilterConcat(p, w.rules[..i], [w.rules[i]]);
      if w.rules[i].enabled { rules := rules + [w.rules[i]]; }
    }
    assert w.rules[..|w.rules|] == w.rules;
  }

  predicate HasPrefix(s: string, prefix: string) {
    prefix <= s
  }

  predicate HasSuffix(s: string, suffix: string) {
    |suffix| <= |s| && s[|s| - |suffix|..] == suffix
  }

  predicate Contains(s: string, part: string) {
    exists i | 0 <= i <= |s| :: HasPrefix(s[i..], part)
  }

  /** The text a condition looks at, or None for an unsupported field. A missing key reads as "". */
  function Actual(field: string, e: Event, session: Session, sprint: Value -> string): Option<string> {
    if field == "sessionId" || field == "session.id" then Some(e.sessionId)
    else if field == "session.channel" then Some(session.channel)
    else if field == "session.state" then Some(session.state)
    else if HasPrefix(field, "session.metadata.") then
      var key := field[|"session.metadata."|..];
      Some(if key in session.metadata then sprint(session.metadata[key]) else "")
    else if HasPrefix(field, "payload.") then
      var key := field[|"payload."|..];
      Some(if key in e.payload then sprint(e.payload[key]) else "")
    else None
  }

  predicate Compare(operator: string, actual: string, value: string) {
    if operator == "equals" || operator == "==" then actual == value
    else if operator == "not_equals" || operator == "!=" then actual != value
    else if operator == "contains" then Contains(actual, value)
    else if operator == "not_contains" then !Contains(actual, value)
    else if operator == "starts_with" then HasPrefix(actual, value)
    else if operator == "ends_with" then HasSuffix(actual, value)
    else false
  }

  predicate Holds(c: Condition, e: Event, session: Session, sprint: Value -> string) {
    var actual := Actual(c.field, e, session, sprint);
    actual.Some? && Compare(c.operator, actual.value, c.value)
  }

  /** The part of a trigger that looks only at the event's type and source. */
  predicate Hears(r: Rule, kind: string, source: string) {
    && r.enabled
    && (r.trigger.eventType == "*" || r.trigger.eventType == kind)
    && (r.trigger.source == "" || r.trigger.source == source)
  }

  /** `WorkflowRule.Matches`; `sprint` is `fmt.Sprint`, about which nothing is assumed. */
  predicate Matches(r: Rule, e: Event, session: Session, sprint: Value -> string) {
    && Hears(r, e.kind, e.source)
    && forall i | 0 <= i < |r.trigger.conditions| :: Holds(r.trigger.conditions[i], e, session, sprint)
  }
}
