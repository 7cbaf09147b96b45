/** Capability registration and dispatch: internal/capabilities/router.go, and the routing part of
    `executeActionAsync` in internal/runtime/runtime.go. */
module Router {
  import opened Prelude

  /** Who registered a capability. A plugin may register one without a handler. */
  datatype Info<H> = Info(plugin: string, handler: Option<H>)

  type Table<H> = map<string, Info<H>>

  /** One attempt to register; `manifestValid` is what the manifest's own validation said. */
  datatype Attempt<H> = Attempt(plugin: string, manifestValid: bool, capability: string, handler: Option<H>)

  predicate Registers<H>(table: Table<H>, a: Attempt<H>) {
    a.manifestValid && a.capability !in table
  }

  function AfterAttempts<H>(attempts: seq<Attempt<H>>): Table<H> {
    if attempts == [] then map[]
    else
      var a, before := attempts[|attempts| - 1], AfterAttempts(attempts[..|attempts| - 1]);
      if Registers(before, a) then before[a.capability := Info(a.plugin, a.handler)] else before
  }

  ghost predicate FirstFor<H>(attempts: seq<Attempt<H>>, capability: string, i: nat) {
    && i < |attempts| && attempts[i].manifestValid && attempts[i].capability == capability
    && forall j :: 0 <= j < i ==> !(attempts[j].manifestValid && attempts[j].capability == capability)
  }

  /** Over every sequence of attempts, a capability belongs to the first valid one for it. */
  lemma {:induction false} FirstOwnerKeeps<H>(attempts: seq<Attempt<H>>, capability: string)
    ensures capability in AfterAttempts(attempts) <==> exists i: nat :: FirstFor(attempts, capability, i)
    ensures forall i: nat :: FirstFor(attempts, capability, i) ==>
              AfterAttempts(attempts)[capability] == Info(attempts[i].plugin, attempts[i].handler)
  {
    if attempts != [] {
      var n := |attempts| - 1;
      var rest := attempts[..n];
      FirstOwnerKeeps(rest, capability);
      assert forall i :: 0 <= i < n ==> rest[i] == attempts[i];
      forall i: nat ensures FirstFor(rest, capability, i) <==> FirstFor(attempts, capability, i) && i < n {
      }
      if exists i: nat :: FirstFor(rest, capability, i) {
        var i: nat :| FirstFor(rest, capability, i);
        assert FirstFor(attempts, capability, i);
      } else {
        NoneFirst(rest, capability);
        if attempts[n].manifestValid && attempts[n].capability == capability {
          assert FirstFor(attempts, capability, n);
        }
      }
    }
  }

  lemma {:induction false} NoneFirst<H>(attempts: seq<Attempt<H>>, capability: string)
    requires forall i: nat :: !FirstFor(attempts, capability, i)
    ensures forall j :: 0 <= j < |attempts| ==> !(attempts[j].manifestValid && attempts[j].capability == capability)
  {
    if attempts != [] {
      var n := |attempts| - 1;
      forall i: nat ensures !FirstFor(attempts[..n], capability, i) {
        assert !FirstFor(attempts, capability, i);
      }
      NoneFirst(attempts[..n], capability);
      assert forall j :: 0 <= j < n ==> attempts[..n][j] == attempts[j];
      assert !FirstFor(attempts, capability, n);
    }
  }

  // ---- Splitting an action type ----

  datatype Cut = Cut(before: string, after: string)

  /** `strings.SplitN(s, ".", 2)`; None when there is no dot. */
  function CutAtDot(s: string): Option<Cut> {
    if s == "" then None
    else if s[0] == '.' then Some(Cut("", s[1..]))
    else
      match CutAtDot(s[1..])
      case None => None
      case Some(cut) => Some(Cut([s[0]] + cut.before, cut.after))
  }

  /** Exactly the decompositions at a dot with no dot before it. */
  lemma {:induction false} CutExact(s: string, before: string, after: string)
    ensures CutAtDot(s) == Some(Cut(before, after)) <==> s == before + "." + after && '.' !in before
  {
    if s != "" && s[0] != '.' {
      if before != "" {
        CutExact(s[1..], before[1..], after);
        assert before == [before[0]] + before[1..];
        assert (before + "." + after)[1..] == before[1..] + "." + after;
        assert s == [s[0]] + s[1..];
        if s == before + "." + after && '.' !in before {
          assert s[0] == before[0];
        }
      } else {
        assert (before + "." + after)[0] == '.';
      }
    } else if s != "" {
      assert s == "." + s[1..];
      if before != "" && s == before + "." + after { assert before[0] == s[0] == '.'; }
      if before == "" && s == before + "." + after { assert s[1..] == after; }
    }
  }

  lemma {:induction false} CutNone(s: string)
    ensures CutAtDot(s).None? <==> '.' !in s
  {
    if s != "" && s[0] != '.' { CutNone(s[1..]); }
  }

  predicate IsWorkflowActionType(kind: string) {
    kind == "send_message" || kind == "run_command" || kind == "call_plugin" || kind == "emit_event"
  }

  datatype Result<H> = CapabilityNotFound | PermissionDenied | NoHandler | Invoked(handler: H)

  datatype Route<H> = BuiltIn | ToPlugin(result: Result<H>) | UnknownType

  /** What the table says of a plugin's call of a capability. */
  function Lookup<H>(table: Table<H>, plugin: string, capability: string): Result<H> {
    if capability !in table then CapabilityNotFound
    else if table[capability].plugin != plugin then PermissionDenied
    else match table[capability].handler case None => NoHandler case Some(h) => Invoked(h)
  }

  /** Where the table leads an action type. */
  function RouteOf<H>(table: Table<H>, kind: string): Route<H> {
    if IsWorkflowActionType(kind) then BuiltIn
    else
      match CutAtDot(kind)
      case None => UnknownType
      case Some(cut) => ToPlugin(Lookup(table, cut.before, cut.after))
  }

  class Router<H> {
    var capabilities: Table<H>
    /** Every attempt to register so far. */
    ghost var attempts: seq<Attempt<H>>

    ghost predicate Valid()
      reads this
    {
      capabilities == AfterAttempts(attempts)
    }

    constructor ()
      ensures Valid() && attempts == []
    {
      capabilities, attempts := map[], [];
    }

    method RegisterCapability(plugin: string, manifestValid: bool, capability: string, handler: Option<H>)
      returns (ok: bool)
      requires Valid()
      modifies this
      ensures Valid()
      ensures attempts == old(attempts) + [Attempt(plugin, manifestValid, capability, handler)]
      ensures ok <==> manifestValid && capability !in old(capabilities)
      ensures capabilities == if ok then old(capabilities)[capability := Info(plugin, handler)] else old(capabilities)
    {
      attempts := attempts + [Attempt(plugin, manifestValid, capability, handler)];
      assert attempts[..|attempts| - 1] == old(attempts);
      if !manifestValid { return false; }
      if capability in capabilities { return false; }
      capabilities := capabilities[capability := Info(plugin, handler)];
      return true;
    }

    /** Registers a manifest's capabilities in order, up to the first one already taken; those
        before it stay registered. */
    method Register(plugin: string, manifestValid: bool, names: seq<string>, handler: Option<H>)
      returns (ok: bool, ghost done: nat)
      requires Valid()
      modifies this
      ensures Valid()
      ensures done <= |names| && Distinct(names[..done]) && forall n :: n in names[..done] ==> n !in old(capabilities)
      ensures ok <==> manifestValid && Distinct(names) && forall n :: n in names ==> n !in old(capabilities)
      ensures ok ==> done == |names|
      ensures !ok && manifestValid ==>
          done < |names| && (names[done] in old(capabilities) || names[done] in names[..done])
      ensures !manifestValid ==> done == 0
      ensures capabilities.Keys == old(capabilities.Keys) + set n | n in names[..done]
      ensures forall n :: n in capabilities ==>
                capabilities[n] == if n in old(capabilities) then old(capabilities)[n] else Info(plugin, handler)
    {
      done := 0;
      if !manifestValid { return false, 0; }
      for i := 0 to |names|
        invariant Valid() && done == i
        invariant Distinct(names[..i]) && forall n :: n in names[..i] ==> n !in old(capabilities)
        invariant capabilities.Keys == old(capabilities.Keys) + set n | n in names[..i]
        invariant forall n :: n in capabilities ==>
                    capabilities[n] == if n in old(capabilities) then old(capabilities)[n] else Info(plugin, handler)
      {
        assert names[..i + 1] == names[..i] + [names[i]];
        var registered := RegisterCapability(plugin, true, names[i], handler);
        if !registered {
          if names[i] in names[..i] {
            var j :| 0 <= j < i && names[j] == names[i];
            assert !Distinct(names);
          } else {
            assert names[i] in names;
          }
          return false, i;
        }
        done := i + 1;
      }
      assert names[..|names|] == names;
      return true, |names|;
    }

    /** Attempt `i` was the first valid one to register the capability. */
    ghost predicate Owner(capability: string, i: nat)
      reads this
    {
      FirstFor(attempts, capability, i)
    }

    /** The first plugin to have registered a capability, and no other, reaches the handler it
        registered, if it registered one. */
    method Call(plugin: string, capability: string) returns (r: Result<H>)
      requires Valid()
      ensures r == Lookup(capabilities, plugin, capability)
      ensures r == CapabilityNotFound <==> forall i: nat :: !Owner(capability, i)
      ensures r == PermissionDenied <==> exists i: nat :: Owner(capability, i) && attempts[i].plugin != plugin
      ensures r == NoHandler <==>
                exists i: nat :: Owner(capability, i) && attempts[i].plugin == plugin && attempts[i].handler == None
      ensures forall h :: r == Invoked(h) <==>
                exists i: nat :: Owner(capability, i) && attempts[i].plugin == plugin && attempts[i].handler == Some(h)
    {
      FirstOwnerKeeps(attempts, capability);
      if capability !in capabilities {
        assert forall i: nat :: !Owner(capability, i);
        return CapabilityNotFound;
      }
      ghost var first: nat :| FirstFor(attempts, capability, first);
      assert Owner(capability, first);
      var info := capabilities[capability];
      if info.plugin != plugin { return PermissionDenied; }
      if info.handler.None? { return NoHandler; }
      return Invoked(info.handler.value);
    }

    /** The text of `kind` before its first dot is the first plugin to have registered the text
        after it, with handler `h`. */
    ghost predicate Owns(kind: string, h: H)
      reads this
    {
      exists p, c, i: nat :: kind == p + "." + c && '.' !in p
        && Owner(c, i) && attempts[i].plugin == p && attempts[i].handler == Some(h)
    }

    /** Where an action type leads. */
    method Dispatch(kind: string) returns (route: Route<H>)
      requires Valid()
      ensures route == RouteOf(capabilities, kind)
      ensures route == BuiltIn <==> IsWorkflowActionType(kind)
      ensures route == UnknownType <==> !IsWorkflowActionType(kind) && '.' !in kind
      ensures forall h :: route == ToPlugin(Invoked(h)) <==> !IsWorkflowActionType(kind) && Owns(kind, h)
    {
      if IsWorkflowActionType(kind) { return BuiltIn; }
      CutNone(kind);
      var cut := CutAtDot(kind);
      if cut.None? {
        forall p, c ensures kind != p + "." + c {
          assert (p + "." + c)[|p|] == '.';
        }
        return UnknownType;
      }
      var Cut(before, after) := cut.value;
      forall p, c ensures kind == p + "." + c && '.' !in p <==> p == before && c == after {
        CutExact(kind, p, c);
      }
      var r := Call(before, after);
      assert kind == before + "." + after && '.' !in before;
      forall h ensures r == Invoked(h) <==> Owns(kind, h) {
        if r == Invoked(h) {
          var i: nat :| Owner(after, i) && attempts[i].plugin == before && attempts[i].handler == Some(h);
        }
        if Owns(kind, h) {
          var p, c, i: nat :| kind == p + "." + c && '.' !in p
            && Owner(c, i) && attempts[i].plugin == p && attempts[i].handler == Some(h);
          assert p == before && c == after;
        }
      }
      return ToPlugin(r);
    }
  }
}
