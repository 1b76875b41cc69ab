/**
 * The assembled controller (`EnvoyController`): results, gates and closure are released only at the
 * right raw offset. The public session appears as what it lets the controller do; every step takes
 * that permission, and every clock and socket answer, as an input.
 */
module Controller {
  import opened Common
  import opened Evidence
  import opened Frames
  import opened Wire
  import opened Transport
  import opened Client
  import Operation
  import Reploy
  import Session

  datatype Size = Size(columns: int, rows: int)
  datatype Gate = Gate(id: string, gate: string, through: int)

  /** An observed gate, and how much had been sent when it was observed. */
  datatype Sighting = Sighting(gate: Gate, at: nat)

  /** An accepted terminal result, and how much had been sent when it was accepted. */
  datatype Taken = Taken(body: Body, at: nat)

  datatype Desk = Desk(
    plan: seq<Inspection>, result: Option<Body>, resizes: seq<Size>, timed: bool, draining: bool,
    finalOffset: Option<int>, terminalEof: bool, closedSeen: bool, closed: bool, disposed: bool,
    barrier: Option<Gate>, cancelReason: Option<string>, finalizeReason: Option<string>,
    gates: seq<Sighting>, accepted: seq<Taken>, released: seq<Body>, applied: seq<Size>)

  const FreshDesk := Desk([], None, [], false, false, None, false, false, false, false,
                          None, None, None, [], [], [], [])

  /** What the session allows: `record` of the session itself, `lifecycle` of its lifecycle alone. */
  datatype Permit = Permit(record: bool, lifecycle: bool)

  datatype World = World(op: Operation.Proto, failed: bool, net: Net, cli: Cli, desk: Desk)

  // ---------- Updates ----------

  function Disposed(d: Desk): Desk { d.(disposed := true) }
  function Reported(w: World): World { w.(failed := true) }
  function Fail(w: World): World { w.(failed := true, net := Shut(w.net), desk := Disposed(w.desk)) }
  function WithClient(w: World, op: Operation.Proto, c: Cli): World { w.(op := op, cli := c) }
  function WithDesk(w: World, d: Desk): World { w.(desk := d) }
  function WithOperation(w: World, op: Operation.Proto): World { w.(op := op) }
  function WithPull(w: World, p: Pulled): World { w.(net := p.net, cli := p.cli) }
  function WithHandled(w: World, h: Handled): World { w.(op := h.op, desk := h.desk) }

  function Executing(d: Desk, plan: seq<Inspection>, timed: bool): Desk {
    d.(plan := plan, timed := timed, cancelReason := None, finalizeReason := None, barrier := None)
  }
  function Resizing(d: Desk, size: Size): Desk { d.(resizes := d.resizes + [size]) }
  function Cancelling(d: Desk, reason: string): Desk { d.(cancelReason := Some(reason), timed := false) }
  function Finalizing(d: Desk, reason: string): Desk { d.(finalizeReason := Some(reason)) }
  function AtGate(d: Desk, g: Gate, at: nat): Desk { d.(barrier := Some(g), gates := d.gates + [Sighting(g, at)]) }
  function NoGate(d: Desk): Desk { d.(barrier := None) }
  function Accepting(d: Desk, b: Body, at: nat): Desk {
    d.(result := Some(b), barrier := None, timed := false, plan := [], accepted := d.accepted + [Taken(b, at)])
  }
  function Resized(d: Desk): Desk
    requires d.resizes != []
  { d.(resizes := d.resizes[1..]) }
  function Applied(d: Desk): Desk
    requires d.resizes != []
  { d.(resizes := d.resizes[1..], applied := d.applied + [d.resizes[0]]) }
  function DrainBegun(d: Desk): Desk { d.(draining := true) }
  function DrainTaken(d: Desk): Desk { d.(resizes := [], timed := false) }
  function ClosedTaken(d: Desk, offset: int): Desk { d.(closedSeen := true, finalOffset := Some(offset)) }
  function EofTaken(d: Desk): Desk { d.(terminalEof := true) }
  function Finished(d: Desk): Desk { d.(closed := true, draining := false) }
  function Releasing(d: Desk, b: Body): Desk { d.(result := None, released := d.released + [b]) }

  // ---------- Requests ----------

  function ResultThrough(b: Body): int
    requires IsResult(b)
  {
    Boundary(b).value
  }

  predicate Available(w: World, offset: int) { 0 <= offset <= w.cli.frontier && offset <= w.net.rawOffset }

  /** Inspection identities are assigned by position. */
  function Number(i: Inspection, index: nat): Inspection {
    match i
    case FileExists(_) => FileExists(index)
    case Produces(_, producer, output) => Produces(index, producer, output)
  }

  function Numbered(plan: seq<Inspection>): seq<Inspection> {
    seq(|plan|, i requires 0 <= i < |plan| => Number(plan[i], i + 1))
  }

  function Authored(r: Request): Request {
    if r.Execute? then Execute(r.id, Numbered(r.plan)) else r
  }

  predicate AtOpenGate(op: Operation.Proto) { op.Busy? && op.pending.NoRequest? && op.phase.Gated? }

  predicate MayResize(op: Operation.Proto) { op.Idle? || (op.Busy? && op.pending.NoRequest?) }

  /** The gate's own output is in the raw log. */
  predicate GateRetained(w: World, id: string, gate: string) {
    && w.desk.barrier.Some? && w.desk.barrier.value.id == id && w.desk.barrier.value.gate == gate
    && Available(w, w.desk.barrier.value.through)
  }

  predicate MayAsk(w: World, can: Permit, r: Request, timed: bool) {
    && !w.desk.disposed && !w.desk.closed && !w.desk.draining && can.record
    && (timed ==> r.Execute?)
    && (r.Continue? && AtOpenGate(w.op) ==> GateRetained(w, r.id, r.gate))
    && (r.Resize? ==> w.desk.resizes == [] && MayResize(w.op))
    && (r.Shutdown? ==> w.desk.resizes == [])
    && (r.Execute? ==> w.desk.result.None?)
  }

  function Recorded(d: Desk, r: Request, timed: bool): Desk {
    match r
    case Execute(_, plan) => Executing(d, plan, timed)
    case Resize(columns, rows) => Resizing(d, Size(columns, rows))
    case Cancel(_, reason) => Cancelling(d, reason)
    case Finalize(_, reason) => Finalizing(d, reason)
    case Continue(_, _) => d
    case Shutdown(_) => d
  }

  /** `fails` says that the step reported a failure to the public session. */
  datatype Reply = Reply(world: World, ok: bool, fails: bool)

  /** A request the client has answered: only a fully written one is remembered, a lost pair fails the session. */
  function AfterAsk(w: World, a: Asked, r: Request, timed: bool): Reply {
    var u := WithClient(w, a.op, a.cli);
    if a.verdict.Sent? then Reply(WithDesk(u, Recorded(w.desk, r, timed)), true, false)
    else Reply(u, false, a.verdict.WriteFailed? || !w.net.ready)
  }

  /** A request as far as the client takes it; `sent` says whether the socket took the frame. */
  ghost function DoSubmit(w: World, can: Permit, r: Request, inputs: seq<bytes>, timed: bool, encode: Encoder,
                          sent: bool): Reply
  {
    if !MayAsk(w, can, r, timed) then Reply(w, false, false)
    else AfterAsk(w, Ask(w.op, w.cli, w.net.ready, w.net.rawOffset, can.lifecycle, Authored(r), inputs, encode, sent),
                  Authored(r), timed)
  }

  /** `request`. */
  ghost function DoRequest(w: World, can: Permit, r: Request, inputs: seq<bytes>, timed: bool, encode: Encoder,
                           sent: bool): Reply
  {
    var s := DoSubmit(w, can, r, inputs, timed, encode, sent);
    if s.fails then Reply(Fail(s.world), false, true) else s
  }

  /** The deadline's own cancel of whatever operation is active; the receive fails when it is not written. */
  ghost function DeadlineCancel(w: World, can: Permit, encode: Encoder, sent: bool): Reply {
    match Operation.ActiveId(w.op)
    case Some(id) => DoSubmit(w, can, Cancel(id, "deadline"), [], false, encode, sent)
    case None => Reply(w, false, false)
  }

  function DoBegin(w: World, can: Permit, id: string): Reply {
    var ok := MayType(w.op, w.cli, w.net.ready, can.lifecycle, id);
    var u := WithClient(w, w.op, BeginTyping(w.op, w.cli, w.net.ready, can.lifecycle, id));
    if !ok && !w.net.ready then Reply(Fail(u), false, true) else Reply(u, ok, false)
  }

  function DoEnd(w: World, written: bool): Reply {
    var ok := w.net.ready && written;
    var u := WithClient(w, w.op, EndTyping(w.cli, ok));
    if !w.cli.inputWriting then Reply(w, false, false)
    else if ok then Reply(u, true, false)
    else Reply(Fail(u), false, true)
  }

  /** A result is released once, and only with its raw range retained. */
  function DoTake(w: World): Reply {
    if !w.failed && w.desk.result.Some? && IsResult(w.desk.result.value)
      && Available(w, ResultThrough(w.desk.result.value))
    then Reply(WithDesk(w, Releasing(w.desk, w.desk.result.value)), true, false)
    else Reply(w, false, false)
  }

  // ---------- Observed events ----------

  datatype Handled = Handled(op: Operation.Proto, desk: Desk, ok: bool)

  /** An operation observation, with what it changes here when the lifecycle accepts it. */
  function Moved(op: Operation.Proto, d: Desk, c: Operation.Call, after: Desk): Handled {
    if Operation.Admits(op, c) then Handled(Operation.Step(op, c), after, true)
    else Handled(Operation.Step(op, c), d, false)
  }

  function ResultOutcome(b: Body): Operation.Outcome
    requires IsResult(b)
  {
    match b
    case Completed(_, _, _, _, _) => Operation.OpCompleted
    case Cancelled(_, _, _, _, _) => Operation.OpCancelled
    case Finalized(_, _, _, _, _) => Operation.OpFinalized
    case OperationFailed(_, _, _, _, _) => Operation.OpFailed
  }

  function EndsShell(b: Body): bool {
    (b.Completed? && b.shellEnded) || (b.OperationFailed? && b.shellEnded)
  }

  function ResultCall(b: Body): Operation.Call
    requires IsResult(b)
  {
    Operation.TerminalResult(b.id, ResultOutcome(b), EndsShell(b))
  }

  /** The result answers what was asked: the authored inspections, the selected reason. */
  predicate Answers(d: Desk, b: Body) {
    && (b.Completed? ==> b.inspections == d.plan)
    && (b.Finalized? ==> b.inspections == d.plan && d.finalizeReason == Some(b.reason))
    && (b.Cancelled? ==> d.cancelReason == Some(b.reason))
  }

  function HandleResult(op: Operation.Proto, d: Desk, b: Body, at: nat): Handled
    requires IsResult(b)
  {
    if !Answers(d, b) then Handled(op, d, false) else Moved(op, d, ResultCall(b), Accepting(d, b, at))
  }

  function HandleResize(op: Operation.Proto, d: Desk, size: Size): Handled {
    if d.resizes == [] then Handled(op, d, false)
    else if d.resizes[0] == size then Handled(op, Applied(d), true)
    else Handled(op, Resized(d), false)
  }

  function HandleDraining(op: Operation.Proto, d: Desk, reason: string): Handled {
    if d.draining then Handled(op, d, false)
    else
      var h := Moved(op, DrainBegun(d), Operation.Drained(reason), DrainTaken(DrainBegun(d)));
      if h.ok && d.terminalEof then Moved(h.op, h.desk, Operation.TerminalEof, h.desk) else h
  }

  function Handle(op: Operation.Proto, d: Desk, b: Body, at: nat): Handled {
    match b
    case Started(id, _) => Moved(op, d, Operation.Started(id), d)
    case GateReady(id, gate, through) =>
      Moved(op, d, Operation.GateReady(id, gate), AtGate(d, Gate(id, gate, through), at))
    case Continued(id, gate, _) => Moved(op, d, Operation.Continued(id, gate), NoGate(d))
    case GateInterrupted(id, gate, _) => Moved(op, d, Operation.GateInterrupted(id, gate), NoGate(d))
    case Completed(_, _, _, _, _) => HandleResult(op, d, b, at)
    case Cancelled(_, _, _, _, _) => HandleResult(op, d, b, at)
    case Finalized(_, _, _, _, _) => HandleResult(op, d, b, at)
    case OperationFailed(_, _, _, _, _) => HandleResult(op, d, b, at)
    case ResizeApplied(columns, rows, _, _) => HandleResize(op, d, Size(columns, rows))
    case Draining(reason, _) => HandleDraining(op, d, reason)
    case Closed(reason, through) => Moved(op, d, Operation.SessionClosed(reason), ClosedTaken(d, through))
    case Ready(_) => Handled(op, d, true)
    case OutputMark(_, _) => Handled(op, d, true)
    case Diagnostic(_) => Handled(op, d, true)
  }

  /** What one received fact does before the closing checks. */
  function HandleFact(op: Operation.Proto, d: Desk, fact: Fact, at: nat): Handled {
    match fact
    case Delivered(e) => Handle(op, d, e.body, at)
    case TerminalEnded =>
      if d.draining then Moved(op, EofTaken(d), Operation.TerminalEof, EofTaken(d)) else Handled(op, EofTaken(d), true)
    case TelemetryEnded => Handled(op, d, d.closedSeen)
    case Raised => Handled(op, d, false)
    case Raw(_) => Handled(op, d, true)
    case Withheld => Handled(op, d, true)
    case Requeued => Handled(op, d, true)
  }

  /** The terminal may end only with every validated output boundary already retained. */
  predicate EofMeetsBarrier(d: Desk, frontier: int, raw: int) { d.terminalEof ==> frontier <= raw }

  predicate FinishesBadly(op: Operation.Proto, d: Desk, raw: int) {
    d.closedSeen && d.terminalEof && !(op.Closed? && d.finalOffset == Some(raw))
  }

  function Finish(d: Desk): Desk { if d.closedSeen && d.terminalEof then Finished(d) else d }

  /** The closing checks on a handled fact. */
  function Conclude(h: Handled, frontier: int, raw: int): Handled {
    if !h.ok || !EofMeetsBarrier(h.desk, frontier, raw) || FinishesBadly(h.op, h.desk, raw)
    then Handled(h.op, h.desk, false)
    else Handled(h.op, Finish(h.desk), true)
  }

  function Settle(op: Operation.Proto, d: Desk, fact: Fact, at: nat, frontier: int, raw: int): Handled {
    Conclude(HandleFact(op, d, fact, at), frontier, raw)
  }

  /** Clock answers of one receive, before and after its read, and whether a cancel could be written. */
  datatype Clock = Clock(drainBefore: bool, drainOver: bool, deadlineBefore: bool, sentBefore: bool,
                         deadlineAfter: bool, sentAfter: bool)

  ghost function CancelIfDue(w: World, can: Permit, due: bool, encode: Encoder, sent: bool): Reply {
    if w.desk.timed && due then DeadlineCancel(w, can, encode, sent) else Reply(w, true, false)
  }

  function Close(w: World): World { w.(net := Shut(w.net), desk := Disposed(w.desk)) }

  /** The fact is handled, and a finished session disposes its sockets. */
  function AfterFact(w: World, fact: Fact): Reply {
    var h := Settle(w.op, w.desk, fact, |w.cli.log|, w.cli.frontier, w.net.rawOffset);
    var u := WithHandled(w, h);
    if !h.ok then Reply(Fail(u), false, true)
    else if h.desk.closed then Reply(Close(u), true, false)
    else Reply(u, true, false)
  }

  datatype Reading = Reading(arrival: Arrival, telemetry: Written, raw: Written)

  predicate Readable(t: Net, r: Reading) {
    r.raw.kept <= Handed(t, r.arrival) && (r.arrival.Telemetry? ==> r.telemetry.kept <= |r.arrival.data|)
  }

  function AfterCancel(c: Reply, fact: Fact): Reply {
    if !c.ok then Reply(Fail(c.world), false, true) else AfterFact(c.world, fact)
  }

  ghost function AfterRead(w: World, can: Permit, clock: Clock, encode: Encoder, fact: Fact): Reply {
    if fact.Raised? || (w.desk.draining && clock.drainOver) then Reply(Fail(w), false, true)
    else AfterCancel(CancelIfDue(w, can, clock.deadlineAfter, encode, clock.sentAfter), fact)
  }

  /** The read, and what follows it. */
  ghost function ReadOn(w: World, can: Permit, clock: Clock, encode: Encoder, parse: Parser, r: Reading): Reply
    requires w.net.ready ==> Accepts(parse, w.net.fed)
    requires Readable(w.net, r)
  {
    var p := Pull(w.net, w.cli, Operation.ActiveId(w.op), parse, r.arrival, r.telemetry, r.raw);
    AfterRead(WithPull(w, p), can, clock, encode, p.fact)
  }

  /** The read, once a due deadline was served. */
  ghost function ReadServed(w: World, served: bool, can: Permit, clock: Clock, encode: Encoder, parse: Parser,
                            r: Reading): Reply
    requires w.net.ready ==> Accepts(parse, w.net.fed)
    requires served ==> Readable(w.net, r)
  {
    if !served then Reply(Fail(w), false, true) else ReadOn(w, can, clock, encode, parse, r)
  }

  /** `receive`: an expired drain fails it, and a due deadline is served, before the read and again before its fact. */
  ghost function DoReceive(w: World, can: Permit, clock: Clock, encode: Encoder, parse: Parser, r: Reading): Reply
    requires w.net.ready ==> Accepts(parse, w.net.fed)
    requires Readable(w.net, r)
  {
    if w.desk.disposed || w.desk.closed then Reply(w, false, false)
    else if w.desk.draining && clock.drainBefore then Reply(Fail(w), false, true)
    else
      var c := CancelIfDue(w, can, clock.deadlineBefore, encode, clock.sentBefore);
      if !c.ok then Reply(Fail(c.world), false, true) else ReadOn(c.world, can, clock, encode, parse, r)
  }

  lemma FactCases(w: World, fact: Fact, h: Handled)
    requires h == Settle(w.op, w.desk, fact, |w.cli.log|, w.cli.frontier, w.net.rawOffset)
    ensures AfterFact(w, fact)
         == if !h.ok then Reply(Fail(WithHandled(w, h)), false, true)
            else if h.desk.closed then Reply(Close(WithHandled(w, h)), true, false)
            else Reply(WithHandled(w, h), true, false)
  {
  }

  lemma ReadCases(w: World, can: Permit, clock: Clock, encode: Encoder, fact: Fact)
    ensures AfterRead(w, can, clock, encode, fact)
         == if fact.Raised? || (w.desk.draining && clock.drainOver) then Reply(Fail(w), false, true)
            else AfterCancel(CancelIfDue(w, can, clock.deadlineAfter, encode, clock.sentAfter), fact)
  {
  }

  lemma RequestCases(w: World, can: Permit, r: Request, inputs: seq<bytes>, timed: bool, encode: Encoder, sent: bool)
    ensures var s := DoSubmit(w, can, r, inputs, timed, encode, sent);
      DoRequest(w, can, r, inputs, timed, encode, sent) == if s.fails then Reply(Fail(s.world), false, true) else s
  {
  }

  lemma SubmitCases(w: World, can: Permit, r: Request, inputs: seq<bytes>, timed: bool, encode: Encoder, sent: bool)
    ensures DoSubmit(w, can, r, inputs, timed, encode, sent)
         == if !MayAsk(w, can, r, timed) then Reply(w, false, false)
            else AfterAsk(w, Ask(w.op, w.cli, w.net.ready, w.net.rawOffset, can.lifecycle, Authored(r), inputs,
                                 encode, sent),
                          Authored(r), timed)
  {
  }

  lemma AskedCases(w: World, a: Asked, r: Request, timed: bool)
    ensures var u := WithClient(w, a.op, a.cli);
      AfterAsk(w, a, r, timed)
        == if a.verdict.Sent? then Reply(WithDesk(u, Recorded(w.desk, r, timed)), true, false)
           else Reply(u, false, a.verdict.WriteFailed? || !w.net.ready)
  {
  }

  /** What is read after a due deadline was served, or failed to be, up to what the failure overwrites. */
  lemma ReceiveCases(w: World, can: Permit, clock: Clock, encode: Encoder, parse: Parser, r: Reading, u: World,
                     served: bool,
                     again: Reading)
    requires w.net.ready ==> Accepts(parse, w.net.fed)
    requires Readable(w.net, r) && !w.desk.disposed && !w.desk.closed && !(w.desk.draining && clock.drainBefore)
    requires var c := CancelIfDue(w, can, clock.deadlineBefore, encode, clock.sentBefore);
      served == c.ok && Fail(u) == Fail(c.world) && (served ==> u == c.world && u.net == w.net && again == r)
    requires u.net.ready ==> Accepts(parse, u.net.fed)
    ensures DoReceive(w, can, clock, encode, parse, r) == ReadServed(u, served, can, clock, encode, parse, again)
  {
  }

  lemma DeadlineCases(w: World, can: Permit, encode: Encoder, sent: bool, active: Option<string>)
    requires active == Operation.ActiveId(w.op)
    ensures active.None? ==> DeadlineCancel(w, can, encode, sent) == Reply(w, false, false)
    ensures active.Some? ==>
      DeadlineCancel(w, can, encode, sent)
        == DoSubmit(w, can, Cancel(active.value, "deadline"), [], false, encode, sent)
  {
  }

  lemma DrainCases(op: Operation.Proto, d: Desk, reason: string)
    ensures var c := Operation.Drained(reason);
      Moved(op, DrainBegun(d), c, DrainTaken(DrainBegun(d)))
        == Handled(Operation.Step(op, c), if Operation.Admits(op, c) then DrainTaken(DrainBegun(d)) else DrainBegun(d),
                   Operation.Admits(op, c))
  {
  }

  // ---------- The public session beside it ----------

  /** What a step does to the public session: the operation moves, and a failure is reported once. */
  function Beside(s: Session.Sess, op: Operation.Proto, fails: bool): Session.Turn {
    if fails then Session.FailAlone(Session.WithOp(s, op), "envoy-session", true)
    else Session.Turn(Session.WithOp(s, op), [])
  }

  lemma SameOperation(s: Session.Sess)
    ensures Session.WithOp(s, s.op) == s
  {
  }

  lemma OperationTwice(s: Session.Sess, op: Operation.Proto, later: Operation.Proto)
    ensures Session.WithOp(Session.WithOp(s, op), later) == Session.WithOp(s, later)
  {
  }

  lemma WithFailureStays(f: Session.Sess, code: string)
    requires f.failure.Some? && f.life.recordingFailed
    ensures Session.WithFailure(f, code) == f
  {
  }

  lemma SeekingAside(s: Session.Sess)
    ensures var f := Session.SeekTermination(s);
      f.failure == s.failure && f.life.recordingFailed == s.life.recordingFailed && f.op == s.op
  {
  }

  lemma FailedStays(s: Session.Sess, code: string)
    ensures var f := Session.AfterFailure(s, code, true);
      f.failure.Some? && Session.WithFailure(f, code) == f && f.op == s.op
  {
    var w := Session.WithFailure(s, code);
    assert w.failure.Some? && w.life.recordingFailed && w.op == s.op;
    SeekingAside(w);
    WithFailureStays(Session.SeekTermination(w), code);
  }

  lemma SoughtStays(s: Session.Sess)
    ensures Session.SeekTermination(Session.SeekTermination(s)) == Session.SeekTermination(s)
    ensures Session.TerminateEffects(Session.SeekTermination(s)) == []
  {
  }

  /** Reporting a failure again changes nothing. */
  lemma FailingTwice(s: Session.Sess, op: Operation.Proto)
    ensures Beside(Beside(s, op, true).s, op, true) == Session.Turn(Beside(s, op, true).s, [])
  {
    var w := Session.WithOp(s, op);
    var f := Session.AfterFailure(w, "envoy-session", true);
    FailedStays(w, "envoy-session");
    SameOperation(f);
    SoughtStays(Session.WithFailure(w, "envoy-session"));
    assert Session.AfterFailure(f, "envoy-session", true) == f;
  }

  // ---------- The mutable controller ----------

  class EnvoyController {
    const session: Session.ControllerSession
    const client: EnvoyClient
    var failureEffects: Session.Effects
    var plan: seq<Inspection>
    var result: Option<Body>
    var resizes: seq<Size>
    var timed: bool
    var draining: bool
    var finalOffset: Option<int>
    var terminalEof: bool
    var closedSeen: bool
    var isClosed: bool
    var disposed: bool
    var barrier: Option<Gate>
    var cancelReason: Option<string>
    var finalizeReason: Option<string>
    ghost var gates: seq<Sighting>
    ghost var accepted: seq<Taken>
    ghost var released: seq<Body>
    ghost var applied: seq<Size>

    ghost predicate Valid()
      reads this, session, session.operation, client, client.transport, client.transport.frames
    {
      && client.operation == session.operation && session.Valid() && client.Valid()
      && client.transport.rawLog != session.eventSink && client.transport.rawLog != session.stderrSink
      && client.transport.telemetryLog != session.eventSink && client.transport.telemetryLog != session.stderrSink
      && (disposed ==> client.transport.isClosed && !client.transport.isReady)
    }

    ghost function DeskView(): Desk
      reads this
    {
      Desk(plan, result, resizes, timed, draining, finalOffset, terminalEof, closedSeen, isClosed, disposed,
           barrier, cancelReason, finalizeReason, gates, accepted, released, applied)
    }

    ghost function View(): World
      requires Valid()
      reads this, session, session.operation, client, client.transport, client.transport.frames,
            client.transport.rawLog, client.transport.telemetryLog
    {
      World(session.operation.View(), session.failure.Some?, client.transport.View(), client.View(), DeskView())
    }

    /** What the public session allows now. */
    function Can(): Permit
      reads session, session.operation.session
    {
      Permit(!session.isClosed && session.failure.None? && session.operation.MayRecord(), session.operation.MayRecord())
    }

    twostate predicate Took(w: World, fails: bool)
      requires old(Valid())
      reads this, session, session.lifecycle, session.operation, session.eventSink, session.stderrSink, client,
            client.transport, client.transport.frames, client.transport.rawLog, client.transport.telemetryLog
    {
      && Valid() && View() == w
      && session.View() == Beside(old(session.View()), w.op, fails).s
      && failureEffects == old(failureEffects) + Beside(old(session.View()), w.op, fails).out
    }

    constructor (session: Session.ControllerSession, client: EnvoyClient)
      requires session.Valid() && client.Valid() && client.operation == session.operation
      requires client.transport.rawLog != session.eventSink && client.transport.rawLog != session.stderrSink
      requires client.transport.telemetryLog != session.eventSink && client.transport.telemetryLog != session.stderrSink
      ensures Valid() && this.session == session && this.client == client
      ensures View() == World(session.operation.View(), session.failure.Some?, client.transport.View(), client.View(),
                              FreshDesk)
      ensures failureEffects == []
    {
      this.session, this.client := session, client;
      failureEffects, plan, result, resizes, timed, draining := [], [], None, [], false, false;
      finalOffset, terminalEof, closedSeen, isClosed, disposed := None, false, false, false, false;
      barrier, cancelReason, finalizeReason, gates, accepted, released, applied := None, None, None, [], [], [], [];
    }

    /** A controller exists only on a ready pair whose readiness the public lifecycle was waiting for. */
    static method Assemble(session: Session.ControllerSession, transport: EnvoyTransport, encode: Encoder)
      returns (c: EnvoyController?)
      requires session.Valid() && transport.Valid()
      requires transport.isReady ==> transport.readyEvent.Some? && transport.readyEvent.value.body.Ready?
      requires transport.rawLog != session.eventSink && transport.rawLog != session.stderrSink
      requires transport.telemetryLog != session.eventSink && transport.telemetryLog != session.stderrSink
      modifies session.lifecycle
      ensures c != null <==> transport.isReady && Reploy.Admits(old(session.lifecycle.View()), Reploy.EnvoyReady)
      ensures session.lifecycle.View()
           == if transport.isReady then Reploy.Step(old(session.lifecycle.View()), Reploy.EnvoyReady)
              else old(session.lifecycle.View())
      ensures c != null ==> c.Valid() && c.session == session && c.client.transport == transport
      ensures c != null ==>
        c.View() == World(session.operation.View(), session.failure.Some?, transport.View(),
                          FreshClient(transport.readyEvent.value.body.outputThrough), FreshDesk)
    {
      if !transport.isReady {
        return null;
      }
      var client := new EnvoyClient(transport, session.operation, encode);
      var r := session.lifecycle.ConfirmEnvoyReady();
      if r.Raised? {
        return null;
      }
      c := new EnvoyController(session, client);
    }

    method ReportFailure()
      requires Valid()
      modifies this`failureEffects, session, session.lifecycle
      ensures Valid() && View() == Reported(old(View()))
      ensures session.View() == Beside(old(session.View()), session.operation.View(), true).s
      ensures failureEffects == old(failureEffects) + Beside(old(session.View()), session.operation.View(), true).out
    {
      SameOperation(session.View());
      var out := session.FailWith("envoy-session", true);
      failureEffects := failureEffects + out;
      assert DeskView() == old(DeskView()) && session.operation.View() == old(session.operation.View());
      assert client.transport.View() == old(client.transport.View()) && client.View() == old(client.View());
    }

    method Dispose()
      requires Valid()
      modifies this`disposed, client.transport`isReady, client.transport`isClosed
      ensures Valid() && View() == Close(old(View()))
    {
      client.transport.Close();
      disposed := true;
      assert DeskView() == Disposed(old(DeskView()));
    }

    method FailSession()
      requires Valid()
      modifies this`failureEffects, this`disposed, session, session.lifecycle,
               client.transport`isReady, client.transport`isClosed
      ensures Took(Fail(old(View())), true)
    {
      ReportFailure();
      Dispose();
      assert Close(Reported(old(View()))) == Fail(old(View()));
    }

    /** Fails a session whose operation has moved since it was `s`. */
    method FailMoved(ghost s: Session.Sess)
      requires Valid() && session.View() == Session.WithOp(s, session.operation.View())
      modifies this`failureEffects, this`disposed, session, session.lifecycle,
               client.transport`isReady, client.transport`isClosed
      ensures Valid() && View() == Fail(old(View()))
      ensures session.View() == Beside(s, session.operation.View(), true).s
      ensures failureEffects == old(failureEffects) + Beside(s, session.operation.View(), true).out
    {
      OperationTwice(s, session.operation.View(), session.operation.View());
      FailSession();
    }

    /** An owned result is available in a session without failure, once its raw range is retained. */
    predicate ResultAvailable(): (available: bool)
      requires Valid()
      reads this, session, session.operation, client, client.transport, client.transport.frames,
            client.transport.rawLog, client.transport.telemetryLog
      ensures available == DoTake(View()).ok
    {
      session.failure.None? && result.Some? && IsResult(result.value)
      && 0 <= ResultThrough(result.value) <= client.frontier
           && ResultThrough(result.value) <= client.transport.rawOffset
    }

    method Release()
      requires Valid() && result.Some?
      modifies this`result, this`released
      ensures Valid() && View() == WithDesk(old(View()), Releasing(old(DeskView()), old(result.value)))
    {
      released := released + [result.value];
      result := None;
      assert DeskView() == Releasing(old(DeskView()), old(result.value));
    }

    /** Releases the owned result when its raw range is retained. */
    method TakeResult() returns (taken: Option<Body>)
      requires Valid()
      modifies this`result, this`released
      ensures Took(DoTake(old(View())).world, false)
      ensures taken == if DoTake(old(View())).ok then old(result) else None
    {
      taken := None;
      SameOperation(session.View());
      if ResultAvailable() {
        taken := result;
        Release();
      }
    }

    /** The checks made before the client is asked. */
    predicate Asks(r: Request, deadline: bool)
      requires session.operation.Valid()
      reads this, session, session.operation, session.operation.session, client, client.transport
    {
      && !disposed && !isClosed && !draining && Can().record
      && (deadline ==> r.Execute?)
      && (r.Continue? && session.operation.state.GATED? ==>
            && barrier.Some? && barrier.value.id == r.id && barrier.value.gate == r.gate
            && 0 <= barrier.value.through <= client.frontier && barrier.value.through <= client.transport.rawOffset)
      && (r.Resize? ==> resizes == [] && MayResize(session.operation.View()))
      && (r.Shutdown? ==> resizes == [])
      && (r.Execute? ==> result.None?)
    }

    /** Remembers a request that was written whole. */
    method Record(r: Request, deadline: bool)
      modifies this
      ensures DeskView() == Recorded(old(DeskView()), r, deadline) && failureEffects == old(failureEffects)
    {
      match r
      case Execute(_, authored) =>
        plan, timed, cancelReason, finalizeReason, barrier := authored, deadline, None, None, None;
      case Resize(columns, rows) => resizes := resizes + [Size(columns, rows)];
      case Cancel(_, reason) => cancelReason, timed := Some(reason), false;
      case Finalize(_, reason) => finalizeReason := Some(reason);
      case Continue(_, _) =>
      case Shutdown(_) =>
    }

    method Remember(r: Request, deadline: bool)
      requires Valid()
      modifies this
      ensures Valid() && View() == WithDesk(old(View()), Recorded(old(DeskView()), r, deadline))
      ensures session.View() == old(session.View()) && failureEffects == old(failureEffects)
    {
      Record(r, deadline);
      assert client.transport.View() == old(client.transport.View()) && client.View() == old(client.View());
    }

    /** A submission went as `r` says; after a lost write only its failing is left. */
    twostate predicate Submitted(r: Reply, ok: bool)
      requires old(Valid())
      reads this, session, session.lifecycle, session.operation, session.eventSink, session.stderrSink, client,
            client.transport, client.transport.frames, client.transport.rawLog, client.transport.telemetryLog
    {
      && Valid() && ok == r.ok && failureEffects == old(failureEffects)
      && session.View() == Session.WithOp(old(session.View()), session.operation.View())
      && Fail(View()) == Fail(r.world) && (!r.fails ==> View() == r.world)
      && (r.fails ==> !ok && !client.transport.isReady)
      && (ok ==> client.transport.View() == old(client.transport.View()))
    }

    /** The client's own part of a request: of the session only the operation moves. */
    method AskClient(r: Request, inputs: seq<bytes>, sent: bool) returns (verdict: Verdict)
      requires Valid()
      modifies session.operation, client, client.transport`isReady, client.transport`isClosed
      ensures Valid() && session.View() == Session.WithOp(old(session.View()), session.operation.View())
      ensures Asked(session.operation.View(), client.View(), verdict)
           == Ask(old(session.operation.View()), old(client.View()), old(client.transport.isReady),
                  client.transport.rawOffset, old(Can()).lifecycle, r, inputs, client.encode, sent)
      ensures client.transport.View()
           == if verdict.WriteFailed? then Shut(old(client.transport.View())) else old(client.transport.View())
    {
      verdict := client.MakeRequest(r, inputs, sent);
    }

    /** Puts a checked request to the client; `lost` says that the pair was gone after the attempt. */
    method PutRequest(r: Request, inputs: seq<bytes>, deadline: bool, sent: bool) returns (ok: bool, lost: bool)
      requires Valid()
      modifies this, session.operation, client, client.transport`isReady, client.transport`isClosed
      ensures var a := Ask(old(View()).op, old(View()).cli, old(client.transport.isReady), client.transport.rawOffset,
                           old(Can()).lifecycle, r, inputs, client.encode, sent);
        var reply := AfterAsk(old(View()), a, r, deadline);
        Submitted(reply, ok) && lost == reply.fails
    {
      var verdict := AskClient(r, inputs, sent);
      ghost var a := Asked(session.operation.View(), client.View(), verdict);
      AskedCases(old(View()), a, r, deadline);
      ok, lost := verdict.Sent?, false;
      if ok {
        assert View() == WithClient(old(View()), a.op, a.cli);
        Remember(r, deadline);
      } else {
        lost := !client.transport.isReady;
      }
    }

    method Submit(r: Request, inputs: seq<bytes>, deadline: bool, sent: bool) returns (ok: bool, lost: bool)
      requires Valid()
      modifies this, session.operation, client, client.transport`isReady, client.transport`isClosed
      ensures Submitted(DoSubmit(old(View()), old(Can()), r, inputs, deadline, client.encode, sent), ok)
      ensures lost == DoSubmit(old(View()), old(Can()), r, inputs, deadline, client.encode, sent).fails
    {
      assert Asks(r, deadline) == MayAsk(View(), Can(), r, deadline);
      SubmitCases(View(), Can(), r, inputs, deadline, client.encode, sent);
      if Asks(r, deadline) {
        ok, lost := PutRequest(Authored(r), inputs, deadline, sent);
      } else {
        SameOperation(session.View());
        ok, lost := false, false;
      }
    }

    /** Submits a request; only one that was written whole is remembered. */
    method MakeRequest(r: Request, inputs: seq<bytes>, deadline: bool, sent: bool) returns (ok: bool)
      requires Valid()
      modifies this, session, session.lifecycle, session.operation, client, client.transport`isReady,
        client.transport`isClosed
      ensures var reply := DoRequest(old(View()), old(Can()), r, inputs, deadline, client.encode, sent);
        Took(reply.world, reply.fails) && ok == reply.ok
    {
      RequestCases(View(), Can(), r, inputs, deadline, client.encode, sent);
      var lost;
      ok, lost := Submit(r, inputs, deadline, sent);
      if lost {
        FailMoved(old(session.View()));
      }
    }

    method BeginInput(id: string) returns (ok: bool)
      requires Valid()
      modifies this`failureEffects, this`disposed, session, session.lifecycle, client`inputWriting,
               client.transport`isReady, client.transport`isClosed
      ensures var reply := DoBegin(old(View()), old(Can()), id); Took(reply.world, reply.fails) && ok == reply.ok
    {
      SameOperation(session.View());
      ok := client.BeginInput(id);
      assert session.View() == old(session.View());
      if !ok && !client.transport.isReady {
        FailSession();
      }
    }

    method EndInput(written: bool) returns (ok: bool)
      requires Valid() && client.inputWriting && client.inputIndex < |client.chunks|
      modifies this`failureEffects, this`disposed, session, session.lifecycle, client,
               client.transport`isReady, client.transport`isClosed
      ensures var reply := DoEnd(old(View()), written); Took(reply.world, reply.fails) && ok == reply.ok
    {
      SameOperation(session.View());
      ok := client.EndInput(written);
      assert session.View() == old(session.View());
      if !ok {
        FailSession();
      }
    }

    // ---------- Observations ----------

    /** The operation and the desk took an observation; the channels and the client did not move. */
    twostate predicate Did(h: Handled, ok: bool)
      requires old(Valid())
      reads this, session, session.operation, client, client.transport, client.transport.frames
    {
      && Valid() && session.operation.View() == h.op && DeskView() == h.desk && ok == h.ok
      && failureEffects == old(failureEffects)
    }

    method HandleGateReady(g: Gate) returns (ok: bool)
      requires Valid()
      modifies this, session.operation
      ensures Did(Moved(old(session.operation.View()), old(DeskView()), Operation.GateReady(g.id, g.gate),
                        AtGate(old(DeskView()), g, |client.log|)), ok)
    {
      ok := session.operation.OperationReady(g.id, g.gate);
      if ok {
        barrier, gates := Some(g), gates + [Sighting(g, |client.log|)];
      }
    }

    method CheckAnswer(b: Body) returns (ok: bool)
      ensures ok == Answers(DeskView(), b)
    {
      if (b.Completed? || b.Finalized?) && b.inspections != plan {
        return false;
      }
      if b.Cancelled? && cancelReason != Some(b.reason) {
        return false;
      }
      ok := !b.Finalized? || finalizeReason == Some(b.reason);
    }

    /** The accepted result is owned here until it is released. */
    method Own(b: Body)
      modifies this
      ensures DeskView() == Accepting(old(DeskView()), b, |client.log|) && failureEffects == old(failureEffects)
    {
      result, barrier, timed, plan := Some(b), None, false, [];
      accepted := accepted + [Taken(b, |client.log|)];
    }

    method AcceptResult(b: Body) returns (ok: bool)
      requires Valid() && IsResult(b)
      modifies this, session.operation
      ensures Did(HandleResult(old(session.operation.View()), old(DeskView()), b, |client.log|), ok)
    {
      ok := CheckAnswer(b);
      if !ok {
        return;
      }
      ok := session.operation.TakeTerminalResult(b.id, ResultOutcome(b), EndsShell(b));
      if ok {
        Own(b);
      }
    }

    method AcceptResize(size: Size) returns (ok: bool)
      requires Valid()
      modifies this
      ensures Did(HandleResize(old(session.operation.View()), old(DeskView()), size), ok)
    {
      if resizes == [] {
        return false;
      }
      ok := resizes[0] == size;
      if ok {
        applied := applied + [size];
      }
      resizes := resizes[1..];
    }

    method DropPending()
      modifies this`resizes, this`timed
      ensures DeskView() == DrainTaken(old(DeskView()))
    {
      resizes, timed := [], false;
    }

    method BeginDrain(reason: string) returns (ok: bool)
      requires Valid()
      modifies this, session.operation
      ensures Did(Moved(old(session.operation.View()), DrainBegun(old(DeskView())), Operation.Drained(reason),
                        DrainTaken(DrainBegun(old(DeskView())))), ok)
    {
      ghost var d := DeskView();
      DrainCases(session.operation.View(), d, reason);
      draining := true;
      assert DeskView() == DrainBegun(d);
      ok := session.operation.ObserveDraining(reason);
      if ok {
        DropPending();
      }
    }

    method AcceptDraining(reason: string) returns (ok: bool)
      requires Valid()
      modifies this, session.operation
      ensures Did(HandleDraining(old(session.operation.View()), old(DeskView()), reason), ok)
    {
      if draining {
        return false;
      }
      ok := BeginDrain(reason);
      if ok && terminalEof {
        ok := session.operation.ObserveTerminalEof();
      }
    }

    method ObserveOperation(b: Body) returns (ok: bool)
      requires Valid() && (b.Started? || b.GateReady? || b.Continued? || b.GateInterrupted?)
      modifies this, session.operation
      ensures Did(Handle(old(session.operation.View()), old(DeskView()), b, |client.log|), ok)
    {
      match b
      case Started(id, _) => ok := session.operation.OperationStarted(id);
      case GateReady(id, gate, through) => ok := HandleGateReady(Gate(id, gate, through));
      case Continued(id, gate, _) =>
        ok := session.operation.OperationContinued(id, gate);
        if ok {
          barrier := None;
        }
      case GateInterrupted(id, gate, _) =>
        ok := session.operation.OperationGateInterrupted(id, gate);
        if ok {
          barrier := None;
        }
    }

    method AcceptClosed(reason: string, through: int) returns (ok: bool)
      requires Valid()
      modifies this, session.operation
      ensures Did(Moved(old(session.operation.View()), old(DeskView()), Operation.SessionClosed(reason),
                        ClosedTaken(old(DeskView()), through)), ok)
    {
      ok := session.operation.ObserveClosed(reason);
      if ok {
        closedSeen, finalOffset := true, Some(through);
      }
    }

    method HandleEvent(b: Body) returns (ok: bool)
      requires Valid()
      modifies this, session.operation
      ensures Did(Handle(old(session.operation.View()), old(DeskView()), b, |client.log|), ok)
    {
      if b.Started? || b.GateReady? || b.Continued? || b.GateInterrupted? {
        ok := ObserveOperation(b);
        return;
      }
      if IsResult(b) {
        ok := AcceptResult(b);
        return;
      }
      match b
      case ResizeApplied(columns, rows, _, _) => ok := AcceptResize(Size(columns, rows));
      case Draining(reason, _) => ok := AcceptDraining(reason);
      case Closed(reason, through) => ok := AcceptClosed(reason, through);
      case _ => ok := true;
    }

    method AcceptFact(fact: Fact) returns (ok: bool)
      requires Valid()
      modifies this, session.operation
      ensures Did(HandleFact(old(session.operation.View()), old(DeskView()), fact, |client.log|), ok)
    {
      match fact
      case Delivered(e) => ok := HandleEvent(e.body);
      case TerminalEnded =>
        terminalEof, ok := true, true;
        if draining {
          ok := session.operation.ObserveTerminalEof();
        }
      case TelemetryEnded => ok := closedSeen;
      case Raised => ok := false;
      case Raw(_) => ok := true;
      case Withheld => ok := true;
      case Requeued => ok := true;
    }

    method SettleFact(fact: Fact) returns (ok: bool)
      requires Valid()
      modifies this, session.operation
      ensures Did(Settle(old(session.operation.View()), old(DeskView()), fact, |client.log|, client.frontier,
                         client.transport.rawOffset), ok)
      ensures session.View() == Session.WithOp(old(session.View()), session.operation.View())
    {
      var handled := AcceptFact(fact);
      ok := ConcludeFact(handled);
    }

    /** A handled fact meets the barrier at the terminal's end, and then the closing check. */
    method ConcludeFact(handled: bool) returns (ok: bool)
      requires Valid()
      modifies this`isClosed, this`draining
      ensures var h := Conclude(Handled(session.operation.View(), old(DeskView()), handled), client.frontier,
                                client.transport.rawOffset);
        Valid() && DeskView() == h.desk && ok == h.ok
    {
      if !handled || (terminalEof && client.frontier > client.transport.rawOffset) {
        return false;
      }
      ok := FinishClose();
    }

    /** Closes once Envoy's close and the terminal's end are both in, at the validated offset. */
    method FinishClose() returns (ok: bool)
      requires Valid()
      modifies this`isClosed, this`draining
      ensures Valid() && ok == !FinishesBadly(session.operation.View(), old(DeskView()), client.transport.rawOffset)
      ensures DeskView() == if ok then Finish(old(DeskView())) else old(DeskView())
    {
      ok := true;
      if closedSeen && terminalEof {
        if !session.operation.state.CLOSED? || finalOffset != Some(client.transport.rawOffset) {
          return false;
        }
        isClosed, draining := true, false;
      }
    }

    /** Handles a received fact; a finished session disposes its sockets. */
    method FinishFact(fact: Fact) returns (ok: bool)
      requires Valid()
      modifies this, session, session.lifecycle, session.operation, client.transport`isReady, client.transport`isClosed
      ensures var reply := AfterFact(old(View()), fact); Took(reply.world, reply.fails) && ok == reply.ok
    {
      ghost var w := View();
      ok := SettleFact(fact);
      assert View() == WithHandled(w, Handled(session.operation.View(), DeskView(), ok));
      FactCases(w, fact, Handled(session.operation.View(), DeskView(), ok));
      if !ok {
        FailMoved(old(session.View()));
      } else if isClosed {
        Dispose();
      }
    }

    method SubmitDeadline(sent: bool) returns (ok: bool)
      requires Valid()
      modifies this, session.operation, client, client.transport`isReady, client.transport`isClosed
      ensures Submitted(DeadlineCancel(old(View()), old(Can()), client.encode, sent), ok)
    {
      var active := session.operation.activeId;
      assert Operation.ActiveId(View().op) == active;
      DeadlineCases(View(), Can(), client.encode, sent, active);
      if active.None? {
        SameOperation(session.View());
        ok := false;
      } else {
        var lost;
        ok, lost := Submit(Request.Cancel(active.value, "deadline"), [], false, sent);
      }
    }

    /** A due deadline selects a cancel of whatever operation is active. */
    method CancelWhenDue(due: bool, sent: bool) returns (ok: bool)
      requires Valid()
      modifies this, session.operation, client, client.transport`isReady, client.transport`isClosed
      ensures Submitted(CancelIfDue(old(View()), old(Can()), due, client.encode, sent), ok)
    {
      if timed && due {
        ok := SubmitDeadline(sent);
      } else {
        SameOperation(session.View());
        ok := true;
      }
    }

    method CancelAndFinish(fact: Fact, clock: Clock) returns (ok: bool)
      requires Valid()
      modifies this, session, session.lifecycle, session.operation, client, client.transport`isReady,
        client.transport`isClosed
      ensures var c := CancelIfDue(old(View()), old(Can()), clock.deadlineAfter, client.encode, clock.sentAfter);
        var reply := AfterCancel(c, fact);
        Took(reply.world, reply.fails) && ok == reply.ok
    {
      ok := CancelWhenDue(clock.deadlineAfter, clock.sentAfter);
      if !ok {
        FailMoved(old(session.View()));
        return;
      }
      label Asked:
      ok := FinishFact(fact);
      OperationTwice(old(session.View()), old@Asked(session.operation.View()), session.operation.View());
    }

    /** What follows a completed read: the deadlines again, and then its fact. */
    method FinishRead(fact: Fact, clock: Clock) returns (ok: bool)
      requires Valid()
      modifies this, session, session.lifecycle, session.operation, client, client.transport`isReady,
        client.transport`isClosed
      ensures var reply := AfterRead(old(View()), old(Can()), clock, client.encode, fact);
        Took(reply.world, reply.fails) && ok == reply.ok
    {
      assert View().desk.draining == draining;
      ReadCases(View(), Can(), clock, client.encode, fact);
      if fact.Raised? || (draining && clock.drainOver) {
        FailSession();
        ok := false;
      } else {
        ok := CancelAndFinish(fact, clock);
      }
    }

    /** The client's receive, which leaves the session and the desk alone. */
    method Read(a: Arrival) returns (fact: Fact)
      requires Valid()
      modifies client, client.transport, client.transport.frames, client.transport.rawLog, client.transport.telemetryLog
      ensures Valid() && session.View() == old(session.View())
      ensures old(client.transport.isReady) ==> old(Accepts(client.transport.parse, client.transport.frames.fed))
      ensures var t, w := client.transport, old(View());
        var p := Pull(w.net, w.cli, Operation.ActiveId(w.op), t.parse, a,
                      Outcome(old(t.telemetryLog.script), if a.Telemetry? then |a.data| else 0),
                      Outcome(old(t.rawLog.script), Handed(w.net, a)));
        View() == WithPull(w, p) && fact == p.fact
    {
      fact := client.Receive(a);
      assert session.operation.View() == old(session.operation.View());
      assert View() == WithPull(old(View()), Pulled(client.transport.View(), client.View(), fact));
    }

    /** How the evidence sinks will answer the writes a read can cause. */
    ghost function Answer(a: Arrival): (r: Reading)
      requires Valid()
      reads this, session, session.operation, client, client.transport, client.transport.frames,
            client.transport.rawLog, client.transport.telemetryLog
      ensures Readable(View().net, r)
    {
      Reading(a, Outcome(client.transport.telemetryLog.script, if a.Telemetry? then |a.data| else 0),
              Outcome(client.transport.rawLog.script, Handed(View().net, a)))
    }

    method ReadAndFinish(a: Arrival, clock: Clock) returns (fact: Fact, ok: bool)
      requires Valid()
      modifies this, session, session.lifecycle, session.operation, client, client.transport, client.transport.frames,
               client.transport.rawLog, client.transport.telemetryLog
      ensures var reply := ReadOn(old(View()), old(Can()), clock, client.encode, client.transport.parse,
                                  old(Answer(a)));
        Took(reply.world, reply.fails) && ok == reply.ok
    {
      fact := Read(a);
      assert Can() == old(Can());
      ok := FinishRead(fact, clock);
    }

    /** Reads on, if a due deadline was served, in a session whose operation has moved since it was `s`. */
    method ReadMoved(a: Arrival, clock: Clock, served: bool, ghost s: Session.Sess) returns (fact: Fact, ok: bool)
      requires Valid() && session.View() == Session.WithOp(s, session.operation.View())
      modifies this, session, session.lifecycle, session.operation, client, client.transport, client.transport.frames,
               client.transport.rawLog, client.transport.telemetryLog
      ensures var reply := ReadServed(old(View()), served, old(Can()), clock, client.encode, client.transport.parse,
                                      old(Answer(a)));
        && Valid() && View() == reply.world && ok == reply.ok
        && session.View() == Beside(s, reply.world.op, reply.fails).s
        && failureEffects == old(failureEffects) + Beside(s, reply.world.op, reply.fails).out
    {
      if served {
        fact, ok := ReadAndFinish(a, clock);
        OperationTwice(s, old(session.operation.View()), session.operation.View());
      } else {
        fact, ok := Raised, false;
        FailMoved(s);
      }
    }

    method CancelAndRead(a: Arrival, clock: Clock) returns (fact: Fact, ok: bool)
      requires Valid() && !disposed && !isClosed && !(draining && clock.drainBefore)
      modifies this, session, session.lifecycle, session.operation, client, client.transport, client.transport.frames,
               client.transport.rawLog, client.transport.telemetryLog
      ensures var reply := DoReceive(old(View()), old(Can()), clock, client.encode, client.transport.parse,
                                     old(Answer(a)));
        Took(reply.world, reply.fails) && ok == reply.ok
    {
      ghost var w, can, r := View(), Can(), Answer(a);
      var served := CancelWhenDue(clock.deadlineBefore, clock.sentBefore);
      assert Can() == can && (served ==> Answer(a) == r);
      ReceiveCases(w, Can(), clock, client.encode, client.transport.parse, r, View(), served, Answer(a));
      fact, ok := ReadMoved(a, clock, served, old(session.View()));
    }

    /**
     * One receive: an expired drain fails it, and a due deadline is served, before the read and again
     * before its fact.
     */
    method Receive(a: Arrival, clock: Clock) returns (fact: Fact, ok: bool)
      requires Valid()
      modifies this, session, session.lifecycle, session.operation, client, client.transport, client.transport.frames,
               client.transport.rawLog, client.transport.telemetryLog
      ensures var reply := DoReceive(old(View()), old(Can()), clock, client.encode, client.transport.parse,
                                     old(Answer(a)));
        Took(reply.world, reply.fails) && ok == reply.ok
    {
      if disposed || isClosed {
        SameOperation(session.View());
        return Raised, false;
      }
      if draining && clock.drainBefore {
        FailSession();
        return Raised, false;
      }
      fact, ok := CancelAndRead(a, clock);
    }
  }
}
