/** How an action's execution ends: `executeActionAsync` of internal/runtime/runtime.go, the executor of
    internal/workflows/executor.go, and the plugins' replies. */
module Execution {
  import opened Prelude
  import opened Types
  import opened Router

  /** What a plugin's call comes back with: the decoded body of its reply, if it has one, or an error. */
  datatype Reply = Replied(body: Option<Value>) | Broke(error: string)

  /** Which replies the handler of a capability may give. */
  type Plugin = Reply -> bool

  type Capabilities = Table<Plugin>

  /** What action.executed says about an execution. */
  datatype End = End(failed: bool, error: string, result: Payload, dryRun: bool)

  const DEADLINE := "context deadline exceeded"

  function Failure(error: string): End {
    End(true, error, map[], false)
  }

  /** The executor only pretends to act. */
  function SimulatedResult(kind: string): Payload {
    var base := map["dryRun" := Flag(true), "type" := Text(kind)];
    if kind == "send_message" then
      base["messageQueued" := Flag(false)]["description" := Text("message send simulated")]
    else if kind == "run_command" then
      base["commandExecuted" := Flag(false)]["description" := Text("command execution simulated")]
    else if kind == "call_plugin" then
      base["pluginCalled" := Flag(false)]["description" := Text("plugin call simulated")]
    else if kind == "emit_event" then
      base["eventEmitted" := Flag(false)]["description" := Text("event emit simulated")]
    else base
  }

  function Simulated(kind: string): End {
    End(false, "", SimulatedResult(kind), true)
  }

  /** What the runtime makes of a reply's body: an object as it is, anything else as data. */
  function Decoded(body: Option<Value>): Payload {
    match body
    case None => map["data" := Text("")]
    case Some(Object(fields)) => fields
    case Some(v) => map["data" := v]
  }

  function Returned(body: Option<Value>): End {
    End(false, "", Decoded(body), false)
  }

  /** A failed call leaves an empty body behind, which is decoded all the same. */
  function CallFailure(error: string): End {
    End(true, error, Decoded(None), false)
  }

  /** How a call that the router answers like this may end. */
  ghost predicate CallCanEnd(cut: Cut, result: Result<Plugin>, end: End) {
    match result
    case CapabilityNotFound => end == Failure("capability not found: " + cut.after)
    case PermissionDenied => end == Failure("permission denied: plugin " + cut.before + " does not own " + cut.after)
    case NoHandler => end == Failure("capability " + cut.after + " has no handler")
    case Invoked(plugin) =>
      if end.failed then end == CallFailure(end.error) && (end.error == DEADLINE || plugin(Broke(end.error)))
      else exists body :: plugin(Replied(body)) && end == Returned(body)
  }

  /** How the execution of an action may end: a built-in one is simulated unless its time is up, or it
      turns out to be invalid; a dotted one is its plugin's affair; any other fails. */
  ghost predicate CanEnd(capabilities: Capabilities, a: Action, end: End) {
    match RouteOf(capabilities, a.kind)
    case BuiltIn =>
      if ValidAction(a) then end == Simulated(a.kind) || end == Failure(DEADLINE) else end == Failure(end.error)
    case UnknownType => end == Failure("unknown action type: " + a.kind)
    case ToPlugin(result) => CallCanEnd(CutAtDot(a.kind).value, result, end)
  }

  /** The execution of an action under the given circumstances: whether its time is up, what is wrong
      with an invalid one, and what its plugin replies, should it be asked. */
  method Execute(router: Router<Plugin>, a: Action, expired: bool, fault: string, reply: Reply) returns (end: End)
    requires router.Valid()
    requires forall plugin :: RouteOf(router.capabilities, a.kind) == ToPlugin(Invoked(plugin)) ==> plugin(reply)
    ensures CanEnd(router.capabilities, a, end)
    ensures !end.failed ==> end.error == "" && (end.dryRun <==> IsWorkflowActionType(a.kind))
    ensures end.failed ==> !end.dryRun
    ensures ValidAction(a) && !expired && IsWorkflowActionType(a.kind) ==> !end.failed
    ensures forall plugin :: RouteOf(router.capabilities, a.kind) == ToPlugin(Invoked(plugin)) ==>
              (end.failed <==> reply.Broke?)
  {
    var route := router.Dispatch(a.kind);
    match route {
      case BuiltIn =>
        if !ValidAction(a) { return Failure(fault); }
        if expired { return Failure(DEADLINE); }
        return Simulated(a.kind);
      case UnknownType => return Failure("unknown action type: " + a.kind);
      case ToPlugin(result) =>
        var cut := CutAtDot(a.kind).value;
        match result {
          case CapabilityNotFound => return Failure("capability not found: " + cut.after);
          case PermissionDenied =>
            return Failure("permission denied: plugin " + cut.before + " does not own " + cut.after);
          case NoHandler => return Failure("capability " + cut.after + " has no handler");
          case Invoked(plugin) =>
            match reply {
              case Broke(error) => return CallFailure(error);
              case Replied(body) => return Returned(body);
            }
        }
    }
  }

  /** Every execution ends: calls can always run out of time. */
  function Breakdown(capabilities: Capabilities, a: Action): (end: End)
    ensures CanEnd(capabilities, a, end) && end.failed
  {
    match RouteOf(capabilities, a.kind)
    case BuiltIn => Failure(DEADLINE)
    case UnknownType => Failure("unknown action type: " + a.kind)
    case ToPlugin(result) =>
      var cut := CutAtDot(a.kind).value;
      match result
      case CapabilityNotFound => Failure("capability not found: " + cut.after)
      case PermissionDenied => Failure("permission denied: plugin " + cut.before + " does not own " + cut.after)
      case NoHandler => Failure("capability " + cut.after + " has no handler")
      case Invoked(_) => CallFailure(DEADLINE)
  }

  /** Only a built-in type, or a dotted one whose prefix owns the capability with a handler, can succeed. */
  lemma SuccessHasAnExecutor(capabilities: Capabilities, a: Action, end: End)
    requires CanEnd(capabilities, a, end) && !end.failed
    ensures end.error == "" && (end.dryRun <==> IsWorkflowActionType(a.kind))
    ensures IsWorkflowActionType(a.kind) || exists plugin, body ::
              RouteOf(capabilities, a.kind) == ToPlugin(Invoked(plugin)) && plugin(Replied(body))
  {
  }

  /** Actions of one type that the gate lets through end alike. */
  lemma EndsByKind(capabilities: Capabilities, a: Action, b: Action, end: End)
    requires a.kind == b.kind && ValidAction(a) && ValidAction(b)
    ensures CanEnd(capabilities, a, end) <==> CanEnd(capabilities, b, end)
  {
  }
}
