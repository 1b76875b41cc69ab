/** Validated Envoy telemetry events: the fields the controlled session uses. */
module Wire {
  import opened Common

  /** The identity part of an inspection request or result; `index` numbers the request in its plan. */
  datatype Inspection = FileExists(index: nat) | Produces(index: nat, producer: string, output: string)

  datatype Failure = Prestart | ShellGone | OtherFailure

  datatype Body =
    | Ready(outputThrough: int)
    | Started(id: string, outputStart: int)
    | GateReady(id: string, gate: string, outputThrough: int)
    | Continued(id: string, gate: string, outputThrough: int)
    | GateInterrupted(id: string, gate: string, outputThrough: int)
    | OutputMark(offset: int, elapsed: int)
    | Completed(id: string, outputStart: int, outputThrough: int, inspections: seq<Inspection>, shellEnded: bool)
    | Cancelled(id: string, outputStart: int, outputThrough: int, reason: string, hasStatus: bool)
    | Finalized(id: string, outputStart: int, outputThrough: int, reason: string, inspections: seq<Inspection>)
    | OperationFailed(id: string, outputStart: int, outputThrough: int, code: Failure, shellEnded: bool)
    | ResizeApplied(columns: int, rows: int, elapsed: int, outputThrough: int)
    | Diagnostic(fatal: bool)
    | Draining(reason: string, outputThrough: int)
    | Closed(reason: string, outputThrough: int)

  datatype Event = Event(number: int, body: Body)

  predicate Count(n: int) { 0 <= n <= MAX_INTEGER }

  predicate Range(start: int, through: int) { Count(start) && Count(through) && start <= through }

  predicate Identifier(s: string) { |s| > 0 }

  /** The cross-field rules `validate` enforces on an event. */
  predicate Shaped(b: Body) {
    match b
    case Ready(through) => 0 <= through <= 4096
    case Started(id, start) => Identifier(id) && Count(start)
    case GateReady(id, gate, through) => Identifier(id) && Identifier(gate) && Count(through)
    case Continued(id, gate, through) => Identifier(id) && Identifier(gate) && Count(through)
    case GateInterrupted(id, gate, through) => Identifier(id) && Identifier(gate) && Count(through)
    case OutputMark(offset, elapsed) => Count(offset) && Count(elapsed)
    case Completed(id, start, through, _, _) => Identifier(id) && Range(start, through)
    case Cancelled(id, start, through, reason, hasStatus) =>
      Identifier(id) && Range(start, through) && |reason| > 0 && (!hasStatus ==> start == through)
    case Finalized(id, start, through, reason, _) => Identifier(id) && Range(start, through) && |reason| > 0
    case OperationFailed(id, start, through, code, shellEnded) =>
      && Identifier(id) && Range(start, through)
      && (code.Prestart? ==> start == through && !shellEnded)
      && (code.ShellGone? ==> shellEnded)
    case ResizeApplied(columns, rows, elapsed, through) =>
      1 <= columns <= 1000 && 1 <= rows <= 1000 && Count(elapsed) && Count(through)
    case Diagnostic(_) => true
    case Draining(reason, through) => |reason| > 0 && Count(through)
    case Closed(reason, through) => |reason| > 0 && Count(through)
  }
}
