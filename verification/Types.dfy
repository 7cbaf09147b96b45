/** The domain contracts of pkg/types: payload values, events and action requests. */
module Types {

  /** A decoded JSON payload value. Numbers and null are opaque scalars. */
  datatype Value =
    | Text(text: string)
    | Object(fields: map<string, Value>)
    | List(items: seq<Value>)
    | Flag(on: bool)
    | Scalar(id: int)

  type Payload = map<string, Value>

  /** `Unknown` stands for every string that is not one of the declared constants. */
  datatype Risk = Low | Medium | High | UnknownRisk(text: string)

  datatype Status = Requested | Allowed | Confirmed | Denied | Executed | Failed | UnknownStatus(text: string)

  datatype Event = Event(id: string, kind: string, source: string, sessionId: string,
                         traceId: string, depth: int, payload: Payload, createdAt: nat)

  datatype Action = Action(id: string, kind: string, risk: Risk, status: Status, source: string,
                           sessionId: string, traceId: string, depth: int, payload: Payload, createdAt: nat)

  datatype Session = Session(id: string, channel: string, state: string, metadata: Payload)

  /** The Unicode White_Space characters that `strings.TrimSpace` removes. */
  predicate IsSpace(c: char) {
    || '\t' <= c <= '\r' || c == ' ' || c == '\U{0085}' || c == '\U{00A0}' || c == '\U{1680}'
    || '\U{2000}' <= c <= '\U{200A}' || c == '\U{2028}' || c == '\U{2029}' || c == '\U{202F}'
    || c == '\U{205F}' || c == '\U{3000}'
  }

  /** `strings.TrimSpace(s) == ""`. */
  predicate Blank(s: string) {
    forall i :: 0 <= i < |s| ==> IsSpace(s[i])
  }

  /** `Event.Validate`; an instant of 0 is Go's zero time. */
  predicate ValidEvent(e: Event) {
    !Blank(e.id) && !Blank(e.kind) && !Blank(e.source) && e.createdAt != 0
  }

  /** `ActionRequest.Validate`. */
  predicate ValidAction(a: Action) {
    && !Blank(a.id) && !Blank(a.kind) && !Blank(a.source)
    && !a.risk.UnknownRisk? && !a.status.UnknownStatus? && a.createdAt != 0
  }

  /** `Session.Validate`, apart from its two instants, which whoever creates a session sets. */
  predicate ValidSession(s: Session) {
    !Blank(s.id) && !Blank(s.channel)
  }

  /** The trace an event hands to the actions it causes. */
  function TraceOf(e: Event): string {
    if e.traceId == "" then e.id else e.traceId
  }
}
