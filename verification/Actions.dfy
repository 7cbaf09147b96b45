/** The action gate and the action store: internal/actions. */
module Actions {
  import opened Prelude
  import opened Types

  datatype Mode = Dev | Local | Strict | UnknownMode(text: string)

  /** `Refused` is an error with the empty status; `Verdict` carries the status, and a denied
      verdict also carries ErrActionDenied, which its callers ignore. */
  datatype Decision = Refused | Verdict(status: Status)

  function DecideLocal(risk: Risk): Status {
    match risk
    case Low => Allowed
    case Medium => Confirmed
    case High => Denied
    case UnknownRisk(_) => Denied
  }

  function DecideStrict(risk: Risk): Status {
    match risk
    case Low => Confirmed
    case Medium => Denied
    case High => Denied
    case UnknownRisk(_) => Denied
  }

  function Decide(mode: Mode, a: Action): Decision {
    if !ValidAction(a) then Refused
    else
      match mode
      case Dev => Verdict(Allowed)
      case Local => Verdict(DecideLocal(a.risk))
      case Strict => Verdict(DecideStrict(a.risk))
      case UnknownMode(_) => Refused
  }

  /** Requested and confirmed actions are the ones a user still has to decide. */
  predicate IsPending(a: Action) {
    a.status == Requested || a.status == Confirmed
  }

  class Store {
    var actions: map<string, Action>

    /** Actions are filed under their own id. */
    ghost predicate Valid()
      reads this
    {
      forall id :: id in actions ==> actions[id].id == id
    }

    constructor ()
      ensures Valid() && actions == map[]
    {
      actions := map[];
    }

    method Save(a: Action)
      requires Valid()
      modifies this
      ensures Valid() && actions == old(actions)[a.id := a]
    {
      actions := actions[a.id := a];
    }

    /** Whatever the old status was, only the status of that one action changes. */
    method UpdateStatus(id: string, status: Status) returns (updated: Option<Action>)
      requires Valid()
      modifies this
      ensures Valid()
      ensures id !in old(actions) ==> updated == None && actions == old(actions)
      ensures id in old(actions) ==>
                && updated == Some(old(actions)[id].(status := status))
                && actions == old(actions)[id := updated.value]
    {
      if id !in actions { return None; }
      var a := actions[id].(status := status);
      actions := actions[id := a];
      return Some(a);
    }

    /** Every action awaiting a decision, exactly once, in some order. */
    method Pending() returns (pending: seq<Action>)
      requires Valid()
      ensures Distinct(pending)
      ensures forall a :: a in pending <==> a.id in actions && actions[a.id] == a && IsPending(a)
    {
      pending := [];
      var left := actions.Keys;
      while left != {}
        invariant left <= actions.Keys
        invariant Distinct(pending)
        invariant forall a :: a in pending <==> a.id in actions.Keys - left && actions[a.id] == a && IsPending(a)
        decreases left
      {
        var id :| id in left;
        if IsPending(actions[id]) { pending := pending + [actions[id]]; }
        left := left - {id};
      }
    }
  }
}
