/** The workflow registry: internal/workflows/registry.go. */
module Registry {
  import opened Workflow
  import opened Engine

  type Flows = map<string, Flow>

  /** The rules a set of workflows contributes, with multiplicity and without order. */
  ghost function RulesIn(flows: Flows): multiset<Rule> {
    if flows == map[] then multiset{}
    else
      var id :| id in flows;
      multiset(EnabledRules(flows[id])) + RulesIn(flows - {id})
  }

  lemma RulesInFirst(flows: Flows) returns (id: string)
    requires flows != map[]
    ensures id in flows && RulesIn(flows) == multiset(EnabledRules(flows[id])) + RulesIn(flows - {id})
  {
    id :| id in flows && RulesIn(flows) == multiset(EnabledRules(flows[id])) + RulesIn(flows - {id});
  }

  /** Any workflow can be taken out first. */
  lemma {:induction false} RulesInRemove(flows: Flows, id: string)
    requires id in flows
    ensures RulesIn(flows) == multiset(EnabledRules(flows[id])) + RulesIn(flows - {id})
    decreases |flows|
  {
    hide RulesIn, EnabledRules;
    var first := RulesInFirst(flows);
    if first != id {
      SmallerMap(flows, first);
      RulesInRemove(flows - {first}, id);
      SmallerMap(flows, id);
      RulesInRemove(flows - {id}, first);
      TakenTwice(flows, first, id);
    }
  }

  lemma TakenTwice(flows: Flows, a: string, b: string)
    ensures flows - {a} - {b} == flows - {b} - {a}
  {
  }

  lemma SmallerMap(flows: Flows, id: string)
    requires id in flows
    ensures |flows - {id}| < |flows|
  {
    assert (flows - {id}).Keys == flows.Keys - {id};
    assert |(flows - {id}).Keys| == |flows.Keys| - 1;
  }

  function RulesOf(ws: seq<Flow>): multiset<Rule> {
    if ws == [] then multiset{} else RulesOf(ws[..|ws| - 1]) + multiset(EnabledRules(ws[|ws| - 1]))
  }

  ghost predicate DistinctFlows(ws: seq<Flow>) {
    forall i, j :: 0 <= i < j < |ws| ==> ws[i].id != ws[j].id
  }

  /** The workflows of a list, filed under their ids. */
  function ById(ws: seq<Flow>): Flows {
    if ws == [] then map[] else ById(ws[..|ws| - 1])[ws[|ws| - 1].id := ws[|ws| - 1]]
  }

  lemma {:induction false} ByIdKeys(ws: seq<Flow>, id: string)
    ensures id in ById(ws) <==> exists i :: 0 <= i < |ws| && ws[i].id == id
    ensures id in ById(ws) ==> ById(ws)[id].id == id
  {
    if ws != [] {
      ByIdKeys(ws[..|ws| - 1], id);
      var n := |ws| - 1;
      assert forall i :: 0 <= i < n ==> ws[..n][i] == ws[i];
    }
  }

  lemma {:induction false} ByIdAt(ws: seq<Flow>, i: nat)
    requires DistinctFlows(ws) && i < |ws|
    ensures ws[i].id in ById(ws) && ById(ws)[ws[i].id] == ws[i]
  {
    var n := |ws| - 1;
    if i < n {
      assert ws[..n][i] == ws[i];
      ByIdAt(ws[..n], i);
    }
  }

  /** A list and the map it is filed into contribute the same rules. */
  lemma {:induction false} RulesOfById(ws: seq<Flow>)
    requires DistinctFlows(ws)
    ensures RulesOf(ws) == RulesIn(ById(ws))
  {
    if ws != [] {
      var n, w := |ws| - 1, ws[|ws| - 1];
      ByIdKeys(ws[..n], w.id);
      assert forall i :: 0 <= i < n ==> ws[..n][i] == ws[i];
      assert ById(ws) - {w.id} == ById(ws[..n]);
      RulesInRemove(ById(ws), w.id);
      RulesOfById(ws[..n]);
    }
  }

  lemma NothingListed(flows: Flows)
    ensures ById([]) == flows - flows.Keys
  {
  }

  /** Listing one more workflow files one more. */
  lemma OneMoreListed(flows: Flows, left: set<string>, ws: seq<Flow>, id: string)
    requires id in left && left <= flows.Keys && flows[id].id == id
    requires DistinctFlows(ws) && ById(ws) == flows - left
    ensures DistinctFlows(ws + [flows[id]]) && ById(ws + [flows[id]]) == flows - (left - {id})
  {
    var more := ws + [flows[id]];
    assert more[..|ws|] == ws;
    assert ById(more) == ById(ws)[id := flows[id]];
    assert flows - (left - {id}) == (flows - left)[id := flows[id]];
    forall i | 0 <= i < |ws| ensures ws[i].id != id {
      ByIdKeys(ws, id);
      assert id !in ById(ws);
    }
  }

  lemma EnabledRulesValid(w: Flow)
    requires ValidFlow(w)
    ensures ValidRules(EnabledRules(w))
  {
    var rules := EnabledRules(w);
    forall i | 0 <= i < |rules| ensures ValidRule(rules[i]) {
      assert rules[i] in w.rules;
    }
  }

  lemma AppendRules(rules: seq<Rule>, more: seq<Rule>)
    requires ValidRules(rules) && ValidRules(more)
    ensures ValidRules(rules + more) && multiset(rules + more) == multiset(rules) + multiset(more)
  {
  }

  class Registry {
    var flows: Flows

    ghost predicate Valid()
      reads this
    {
      forall id :: id in flows ==> flows[id].id == id && ValidFlow(flows[id])
    }

    constructor ()
      ensures Valid() && flows == map[]
    {
      flows := map[];
    }

    /** A workflow is accepted when it is valid and its id is new; otherwise nothing changes. */
    method Register(w: Flow) returns (ok: bool)
      requires Valid()
      modifies this
      ensures Valid()
      ensures ok <==> ValidFlow(w) && w.id !in old(flows)
      ensures flows == if ok then old(flows)[w.id := w] else old(flows)
    {
      var e := ValidateFlow(w);
      if e.Some? { return false; }
      if w.id in flows { return false; }
      flows := flows[w.id := w];
      return true;
    }

    /** Every workflow once, in some order. */
    method ListAll() returns (ws: seq<Flow>)
      requires Valid()
      ensures DistinctFlows(ws) && ById(ws) == flows
      ensures forall i :: 0 <= i < |ws| ==> ValidFlow(ws[i])
    {
      hide ById, ValidFlow;
      ws := [];
      var left := flows.Keys;
      NothingListed(flows);
      while left != {}
        invariant left <= flows.Keys
        invariant DistinctFlows(ws) && ById(ws) == flows - left
        invariant forall i :: 0 <= i < |ws| ==> ValidFlow(ws[i])
        decreases left
      {
        var id :| id in left;
        OneMoreListed(flows, left, ws, id);
        ws := ws + [flows[id]];
        left := left - {id};
      }
      assert flows - {} == flows;
    }

    /** The enabled rules of the enabled workflows, in some order of the workflows. */
    method CollectRules() returns (rules: seq<Rule>)
      requires Valid()
      ensures multiset(rules) == RulesIn(flows)
      ensures ValidRules(rules)
    {
      hide ValidRule, ValidFlow, EnabledRules;
      rules := [];
      var left := flows;
      while left != map[]
        invariant forall id :: id in left ==> id in flows && left[id] == flows[id]
        invariant multiset(rules) + RulesIn(left) == RulesIn(flows)
        invariant ValidRules(rules)
        decreases |left|
      {
        var id :| id in left;
        var more := CollectEnabled(left[id]);
        RulesInRemove(left, id);
        SmallerMap(left, id);
        EnabledRulesValid(left[id]);
        AppendRules(rules, more);
        rules := rules + more;
        left := left - {id};
      }
    }

    method SetEnabled(id: string, enabled: bool) returns (found: bool)
      requires Valid()
      modifies this
      ensures Valid()
      ensures found <==> id in old(flows)
      ensures flows == if found then old(flows)[id := old(flows)[id].(enabled := enabled)] else old(flows)
    {
      if id !in flows { return false; }
      flows := flows[id := flows[id].(enabled := enabled)];
      return true;
    }
  }
}
