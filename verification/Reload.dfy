/** Replacing the workflows of a running system: `ReloadWorkflows`, `EnableWorkflow` and
    `DisableWorkflow` of internal/runtime/runtime.go. */
module Reload {
  import opened Prelude
  import opened Workflow
  import opened Engine
  import opened Registry

  /** A list of workflows a registry accepts in full. */
  ghost predicate Acceptable(ws: seq<Flow>) {
    DistinctFlows(ws) && forall i :: 0 <= i < |ws| ==> ValidFlow(ws[i])
  }

  /** Changing the flag of one workflow in a list changes it in the map. */
  lemma ByIdFlip(ws: seq<Flow>, i: nat, enabled: bool)
    requires Acceptable(ws) && i < |ws|
    ensures Acceptable(ws[i := ws[i].(enabled := enabled)])
    ensures ById(ws[i := ws[i].(enabled := enabled)]) == ById(ws)[ws[i].id := ws[i].(enabled := enabled)]
  {
    var w := ws[i].(enabled := enabled);
    var us := ws[i := w];
    assert ValidFlow(ws[i]);
    var was, now := ById(ws), ById(us);
    assert forall j :: 0 <= j < |ws| ==> us[j].id == ws[j].id;
    ByIdAt(us, i);
    ByIdAt(ws, i);
    forall id ensures id in now <==> id in was {
      ByIdKeys(ws, id);
      ByIdKeys(us, id);
    }
    forall id | id in now && id != w.id ensures now[id] == was[id] {
      ByIdKeys(us, id);
      var j :| 0 <= j < |us| && us[j].id == id;
      ByIdAt(us, j);
      ByIdAt(ws, j);
    }
  }

  class WorkflowHost {
    var registry: Registry
    const engine: Engine
    /** What the database holds, when there is one. */
    const persistent: bool
    var stored: seq<Flow>

    /** The engine runs exactly the enabled rules of the registry's enabled workflows. */
    ghost predicate Valid()
      reads this, registry, engine
    {
      && registry.Valid() && engine.Valid()
      && multiset(engine.rules) == RulesIn(registry.flows)
    }

    constructor (config: seq<Flow>, persistent: bool)
      ensures Valid() && fresh(registry) && fresh(engine)
    {
      this.persistent := persistent;
      stored := [];
      registry := new Registry();
      engine := new Engine();
      new;
      for i := 0 to |config|
        invariant registry.Valid() && engine.Valid() && fresh(registry) && fresh(engine)
      {
        var _ := registry.Register(config[i]);
      }
      var rules := registry.CollectRules();
      var _ := engine.SetRules(rules);
    }

    /** Registering a list into a new registry succeeds exactly on acceptable lists. */
    static method Build(ws: seq<Flow>) returns (ok: bool, next: Registry)
      ensures fresh(next) && next.Valid()
      ensures ok <==> Acceptable(ws)
      ensures ok ==> next.flows == ById(ws)
    {
      hide ValidFlow;
      next := new Registry();
      for i := 0 to |ws|
        invariant next.Valid()
        invariant Acceptable(ws[..i]) && next.flows == ById(ws[..i])
      {
        assert ws[..i + 1][..i] == ws[..i];
        ByIdKeys(ws[..i], ws[i].id);
        var registered := next.Register(ws[i]);
        if !registered { return false, next; }
      }
      assert ws[..|ws|] == ws;
      return true, next;
    }

    /** All or nothing: either the registry, the engine and the database all move to the new
        workflows, or none of them changes. It fails only for an unacceptable list or because
        the database does; the last step, installing the rules, cannot fail. */
    method ReloadWorkflows(ws: seq<Flow>, databaseWorks: bool) returns (ok: bool)
      requires Valid()
      modifies this, engine
      ensures Valid() && (registry == old(registry) || fresh(registry))
      ensures ok <==> Acceptable(ws) && (persistent ==> databaseWorks)
      ensures ok ==> registry.flows == ById(ws) && multiset(engine.rules) == RulesOf(ws)
      ensures ok ==> stored == if persistent then ws else old(stored)
      ensures !ok ==>
                registry.flows == old(registry.flows) && engine.rules == old(engine.rules) && stored == old(stored)
      ensures engine.idSeq == old(engine.idSeq) && engine.sent == old(engine.sent)
    {
      var registered, next := Build(ws);
      if !registered { return false; }
      if persistent {
        if !databaseWorks { return false; }
        stored := ws;
      }
      registry := next;
      var rules := next.CollectRules();
      RulesOfById(ws);
      var err := engine.SetRules(rules);
      assert err == None;
      return true;
    }

    /** Listing, flipping one flag and reloading changes that flag and nothing else. */
    method SwitchWorkflow(id: string, enabled: bool, databaseWorks: bool) returns (ok: bool)
      requires Valid()
      modifies this, engine
      ensures Valid() && (registry == old(registry) || fresh(registry))
      ensures ok <==> id in old(registry.flows) && (persistent ==> databaseWorks)
      ensures registry.flows == if ok then old(registry.flows)[id := old(registry.flows)[id].(enabled := enabled)]
                                else old(registry.flows)
      ensures !ok ==> engine.rules == old(engine.rules) && stored == old(stored)
      ensures ok && persistent ==> DistinctFlows(stored) && ById(stored) == registry.flows
    {
      var ws := registry.ListAll();
      for i := 0 to |ws|
        invariant forall j :: 0 <= j < i ==> ws[j].id != id
      {
        if ws[i].id == id {
          ByIdFlip(ws, i, enabled);
          ByIdAt(ws, i);
          ok := ReloadWorkflows(ws[i := ws[i].(enabled := enabled)], databaseWorks);
          return ok;
        }
      }
      ByIdKeys(ws, id);
      return false;
    }
  }
}
