/** What every interleaving of requests, input, received facts and public reports keeps. */
module ControllerRuns {
  import opened Common
  import opened Evidence
  import opened Frames
  import opened Wire
  import opened Transport
  import opened Client
  import opened Controller
  import Operation

  // ---------- What was asked ----------

  predicate Executes(a: Act) { a.Posted? && a.frame.request.Execute? }

  ghost predicate SameOperationSince(log: seq<Act>, i: nat) {
    forall k :: i < k < |log| ==> !Executes(log[k])
  }

  ghost predicate PostedAt(log: seq<Act>, i: nat, r: Request) {
    i < |log| && log[i].Posted? && log[i].frame.request == r
  }

  /** The request was written whole, and no operation was executed since. */
  ghost predicate AskedFor(log: seq<Act>, r: Request) {
    exists i :: PostedAt(log, i, r) && SameOperationSince(log, i)
  }

  lemma StillAsked(log: seq<Act>, a: Act, r: Request)
    requires AskedFor(log, r) && !Executes(a)
    ensures AskedFor(log + [a], r)
  {
    var i :| PostedAt(log, i, r) && SameOperationSince(log, i);
    assert PostedAt(log + [a], i, r) && SameOperationSince(log + [a], i);
  }

  lemma NowAsked(log: seq<Act>, a: Act)
    requires a.Posted?
    ensures AskedFor(log + [a], a.frame.request)
  {
    assert PostedAt(log + [a], |log|, a.frame.request);
    assert SameOperationSince(log + [a], |log|);
  }

  // ---------- The parts of the invariant ----------

  /** The pending reasons are those of requests written for the running operation. */
  ghost predicate ReasonsAsked(op: Operation.Proto, log: seq<Act>, cancel: Option<string>, finalize: Option<string>) {
    op.Busy? ==>
      && (cancel.Some? ==> AskedFor(log, Cancel(op.id, cancel.value)))
      && (finalize.Some? ==> AskedFor(log, Finalize(op.id, finalize.value)))
  }

  /** A cancelled or finalized result answers a request for that operation, with its reason. */
  ghost predicate Answered(log: seq<Act>, t: Taken) {
    && t.at <= |log|
    && (t.body.Cancelled? ==> AskedFor(log[..t.at], Cancel(t.body.id, t.body.reason)))
    && (t.body.Finalized? ==> AskedFor(log[..t.at], Finalize(t.body.id, t.body.reason)))
  }

  ghost predicate AllAnswered(log: seq<Act>, accepted: seq<Taken>) {
    forall i :: 0 <= i < |accepted| ==> Answered(log, accepted[i])
  }

  predicate Results(accepted: seq<Taken>) {
    forall i :: 0 <= i < |accepted| ==> IsResult(accepted[i].body)
  }

  function SpanOf(b: Body): Span
    requires IsResult(b)
  {
    Span(ResultStart(b), ResultThrough(b))
  }

  function Spans(accepted: seq<Taken>): seq<Span>
    requires Results(accepted)
  {
    seq(|accepted|, i requires 0 <= i < |accepted| => SpanOf(accepted[i].body))
  }

  function Bodies(accepted: seq<Taken>): seq<Body> {
    seq(|accepted|, i requires 0 <= i < |accepted| => accepted[i].body)
  }

  /** Accepted results are those released, in order, and at most one still owned. */
  predicate Owned(result: Option<Body>, accepted: seq<Taken>, released: seq<Body>) {
    Bodies(accepted) == released + (if result.Some? then [result.value] else [])
  }

  ghost predicate Retained(released: seq<Body>, raw: nat) {
    forall i :: 0 <= i < |released| ==> IsResult(released[i]) && ResultThrough(released[i]) <= raw
  }

  ghost predicate NoExecuteIn(log: seq<Act>, from: nat, to: nat) {
    forall k :: from <= k < to && k < |log| ==> !Executes(log[k])
  }

  /**
   * The gate that frame `i` continues: seen in the same operation, its output in the raw log when the
   * frame was written.
   */
  ghost predicate Opens(log: seq<Act>, g: Sighting, i: nat)
    requires i < |log| && log[i].Posted? && log[i].frame.request.Continue?
  {
    && g.gate.id == log[i].frame.request.id && g.gate.gate == log[i].frame.request.gate
    && g.gate.through <= log[i].raw && g.at <= i && NoExecuteIn(log, g.at, i)
  }

  ghost predicate GateKnown(log: seq<Act>, gates: seq<Sighting>, i: nat)
    requires i < |log| && log[i].Posted? && log[i].frame.request.Continue?
  {
    exists k :: 0 <= k < |gates| && Opens(log, gates[k], i)
  }

  /** Every continue frame was written for a gate whose output was retained then. */
  ghost predicate ContinuesRetained(log: seq<Act>, gates: seq<Sighting>) {
    forall i :: 0 <= i < |log| && log[i].Posted? && log[i].frame.request.Continue? ==> GateKnown(log, gates, i)
  }

  /** The raw log has been as long as any frame says it was. */
  predicate RawsWithin(log: seq<Act>, raw: nat) {
    forall i :: 0 <= i < |log| && log[i].Posted? ==> log[i].raw <= raw
  }

  /** The gate in hand is the last one seen, in this operation. */
  ghost predicate GateHeld(log: seq<Act>, barrier: Option<Gate>, gates: seq<Sighting>) {
    barrier.Some? ==>
      && gates != [] && gates[|gates| - 1].gate == barrier.value && gates[|gates| - 1].at <= |log|
      && NoExecuteIn(log, gates[|gates| - 1].at, |log|)
  }

  function SizeOf(a: Act): seq<Size> {
    if a.Posted? && a.frame.request.Resize? then [Size(a.frame.request.columns, a.frame.request.rows)] else []
  }

  /** The resizes written, in order. */
  function Sizes(log: seq<Act>): seq<Size> {
    if log == [] then [] else Sizes(log[..|log| - 1]) + SizeOf(log[|log| - 1])
  }

  lemma SizesSnoc(log: seq<Act>, a: Act)
    ensures Sizes(log + [a]) == Sizes(log) + SizeOf(a)
  {
    assert (log + [a])[..|log|] == log;
  }

  /** Until the drain, what was written and not acknowledged is what is pending; afterwards nothing is. */
  predicate ResizesPending(log: seq<Act>, d: Desk) {
    if d.draining then d.resizes == [] else |d.resizes| <= 1 && Sizes(log) == d.applied + d.resizes
  }

  /** Closed means whole: everything the terminal sent is in the raw log, up to the validated final offset. */
  predicate Whole(net: Net, frontier: int, d: Desk) {
    net.rawLog == net.terminalRead && |net.rawLog| == frontier && d.finalOffset == Some(frontier)
  }

  /** What holds for good, also after a failure. */
  ghost predicate Settled(w: World) {
    && (w.desk.closed ==> w.desk.disposed && Whole(w.net, w.cli.frontier, w.desk))
    && w.net.rawOffset <= |w.net.rawLog|
    && Results(w.desk.accepted) && Spans(w.desk.accepted) <= w.cli.results
    && Owned(w.desk.result, w.desk.accepted, w.desk.released)
    && Retained(w.desk.released, |w.net.rawLog|)
    && AllAnswered(w.cli.log, w.desk.accepted)
    && ContinuesRetained(w.cli.log, w.desk.gates) && RawsWithin(w.cli.log, |w.net.rawLog|)
    && w.desk.applied <= Sizes(w.cli.log)
  }

  /** What a live controller keeps besides; `extra` is a result the client saw and the desk has not. */
  ghost predicate Live(w: World, extra: seq<Span>) {
    && w.net.ready && !w.desk.closed
    && (w.desk.result.Some? ==> !w.op.Busy?)
    && Results(w.desk.accepted) && w.cli.results == Spans(w.desk.accepted) + extra
    && GateHeld(w.cli.log, w.desk.barrier, w.desk.gates)
    && ReasonsAsked(w.op, w.cli.log, w.desk.cancelReason, w.desk.finalizeReason)
    && (w.desk.closedSeen ==> w.desk.finalOffset.Some? && w.desk.finalOffset.value <= w.cli.frontier)
    && ResizesPending(w.cli.log, w.desk)
  }

  ghost predicate Inv(w: World, parse: Parser, extra: seq<Span>) {
    && Transport.Inv(w.net, parse) && (w.net.ready ==> !w.net.closed) && Client.Inv(w.cli)
    && Settled(w) && (w.desk.disposed || Live(w, extra))
  }

  // ---------- Failing ----------

  lemma FailKeeps(w: World, parse: Parser, extra: seq<Span>)
    requires Settled(w) && Client.Inv(w.cli)
    ensures Inv(Fail(w), parse, extra)
  {
  }

  // ---------- Requests ----------

  lemma AnsweredSnoc(log: seq<Act>, a: Act, accepted: seq<Taken>)
    requires AllAnswered(log, accepted)
    ensures AllAnswered(log + [a], accepted)
  {
    forall i | 0 <= i < |accepted| ensures Answered(log + [a], accepted[i]) {
      assert Answered(log, accepted[i]);
      assert (log + [a])[..accepted[i].at] == log[..accepted[i].at];
    }
  }

  lemma OpensLater(log: seq<Act>, a: Act, g: Sighting, i: nat)
    requires i < |log| && log[i].Posted? && log[i].frame.request.Continue? && Opens(log, g, i)
    ensures Opens(log + [a], g, i)
  {
    forall k | g.at <= k < i ensures !Executes((log + [a])[k]) {
      assert (log + [a])[k] == log[k];
    }
  }

  lemma ContinuesSnoc(log: seq<Act>, a: Act, gates: seq<Sighting>)
    requires ContinuesRetained(log, gates)
    requires a.Posted? && a.frame.request.Continue? ==> GateKnown(log + [a], gates, |log|)
    ensures ContinuesRetained(log + [a], gates)
  {
    var more := log + [a];
    forall i | 0 <= i < |more| && more[i].Posted? && more[i].frame.request.Continue? ensures GateKnown(more, gates, i) {
      if i < |log| {
        assert more[i] == log[i] && GateKnown(log, gates, i);
        var k :| 0 <= k < |gates| && Opens(log, gates[k], i);
        OpensLater(log, a, gates[k], i);
      }
    }
  }

  lemma RawsSnoc(log: seq<Act>, a: Act, raw: nat)
    requires RawsWithin(log, raw) && (a.Posted? ==> a.raw <= raw)
    ensures RawsWithin(log + [a], raw)
  {
  }

  lemma HeldSnoc(log: seq<Act>, a: Act, barrier: Option<Gate>, gates: seq<Sighting>)
    requires GateHeld(log, barrier, gates) && (Executes(a) ==> barrier.None?)
    ensures GateHeld(log + [a], barrier, gates)
  {
    if barrier.Some? {
      var at := gates[|gates| - 1].at;
      forall k | at <= k < |log| + 1 ensures !Executes((log + [a])[k]) {
        if k < |log| {
          assert (log + [a])[k] == log[k];
        }
      }
    }
  }

  lemma ReasonsAfter(op: Operation.Proto, log: seq<Act>, d: Desk, r: Request, rec: bool, timed: bool, a: Act)
    requires ReasonsAsked(op, log, d.cancelReason, d.finalizeReason)
    requires OperationAdmits(op, r, rec) && a.Posted? && a.frame.request == r
    ensures var e := Recorded(d, r, timed);
      ReasonsAsked(OperationAfter(op, r, rec), log + [a], e.cancelReason, e.finalizeReason)
  {
    if op.Busy? {
      SameId(op, r, rec);
      RunningCancel(op.id, log, d, r, timed, a);
      RunningFinalize(op.id, log, d, r, timed, a);
    } else if OperationAfter(op, r, rec).Busy? {
      NewReasons(op, r, rec, d, timed);
    }
  }

  lemma RunningCancel(id: string, log: seq<Act>, d: Desk, r: Request, timed: bool, a: Act)
    requires d.cancelReason.Some? ==> AskedFor(log, Cancel(id, d.cancelReason.value))
    requires a.Posted? && a.frame.request == r && !r.Execute? && (r.Cancel? ==> r.id == id)
    ensures var e := Recorded(d, r, timed).cancelReason; e.Some? ==> AskedFor(log + [a], Cancel(id, e.value))
  {
    if r.Cancel? {
      NowAsked(log, a);
    } else if d.cancelReason.Some? {
      StillAsked(log, a, Cancel(id, d.cancelReason.value));
    }
  }

  lemma RunningFinalize(id: string, log: seq<Act>, d: Desk, r: Request, timed: bool, a: Act)
    requires d.finalizeReason.Some? ==> AskedFor(log, Finalize(id, d.finalizeReason.value))
    requires a.Posted? && a.frame.request == r && !r.Execute? && (r.Finalize? ==> r.id == id)
    ensures var e := Recorded(d, r, timed).finalizeReason; e.Some? ==> AskedFor(log + [a], Finalize(id, e.value))
  {
    if r.Finalize? {
      NowAsked(log, a);
    } else if d.finalizeReason.Some? {
      StillAsked(log, a, Finalize(id, d.finalizeReason.value));
    }
  }

  lemma NewReasons(op: Operation.Proto, r: Request, rec: bool, d: Desk, timed: bool)
    requires !op.Busy? && OperationAdmits(op, r, rec) && OperationAfter(op, r, rec).Busy?
    ensures Recorded(d, r, timed).cancelReason.None? && Recorded(d, r, timed).finalizeReason.None?
  {
  }

  /** No request turns one running operation into another. */
  lemma SameId(op: Operation.Proto, r: Request, rec: bool)
    requires op.Busy? && OperationAdmits(op, r, rec)
    ensures !r.Execute? && OperationAfter(op, r, rec).Busy? && OperationAfter(op, r, rec).id == op.id
    ensures r.Cancel? || r.Finalize? ==> r.id == op.id
  {
  }

  /** A continue is written only at its own gate, with that gate's output retained. */
  lemma ContinueAtRetainedGate(w: World, can: Permit, r: Request, timed: bool)
    requires MayAsk(w, can, r, timed) && r.Continue? && OperationAdmits(w.op, r, can.lifecycle)
    ensures GateRetained(w, r.id, r.gate)
  {
  }

  /** The frame a request becomes, at the raw log it is written at. */
  function SentAct(w: World, r: Request, inputs: seq<bytes>): Act {
    Posted(Framed(Prepared(w.cli, r, inputs), r), w.net.rawOffset)
  }

  /** The world after a frame was written whole. */
  function SentWorld(w: World, can: Permit, r: Request, inputs: seq<bytes>, timed: bool): World {
    WithDesk(WithClient(w, OperationAfter(w.op, r, can.lifecycle),
                        WithPost(Prepared(w.cli, r, inputs), r, w.net.rawOffset)),
             Recorded(w.desk, r, timed))
  }

  lemma ContinueOpens(w: World, can: Permit, r: Request, inputs: seq<bytes>, timed: bool)
    requires MayAsk(w, can, r, timed) && r.Continue? && OperationAdmits(w.op, r, can.lifecycle)
    requires GateHeld(w.cli.log, w.desk.barrier, w.desk.gates)
    ensures GateKnown(w.cli.log + [SentAct(w, r, inputs)], w.desk.gates, |w.cli.log|)
  {
    ContinueAtRetainedGate(w, can, r, timed);
    var log, g := w.cli.log, w.desk.gates[|w.desk.gates| - 1];
    var more := log + [SentAct(w, r, inputs)];
    forall k | g.at <= k < |log| ensures !Executes(more[k]) {
      assert more[k] == log[k];
    }
    assert Opens(more, g, |log|);
  }

  predicate SameResults(d: Desk, e: Desk) {
    && e.accepted == d.accepted && e.released == d.released && e.result == d.result && e.gates == d.gates
    && e.applied == d.applied && e.closed == d.closed && e.disposed == d.disposed && e.finalOffset == d.finalOffset
    && e.closedSeen == d.closedSeen
  }

  /** A request that was written touches none of what results, gates and acknowledgements have left. */
  lemma RecordedAside(d: Desk, r: Request, timed: bool)
    ensures SameResults(d, Recorded(d, r, timed))
  {
    match r
    case Execute(_, plan) => assert SameResults(d, Executing(d, plan, timed));
    case Resize(columns, rows) => assert SameResults(d, Resizing(d, Size(columns, rows)));
    case Cancel(_, reason) => assert SameResults(d, Cancelling(d, reason));
    case Finalize(_, reason) => assert SameResults(d, Finalizing(d, reason));
    case _ =>
  }

  lemma SentSettled(w: World, can: Permit, r: Request, inputs: seq<bytes>, timed: bool)
    requires Settled(w) && MayAsk(w, can, r, timed) && OperationAdmits(w.op, r, can.lifecycle)
    requires GateHeld(w.cli.log, w.desk.barrier, w.desk.gates)
    ensures Settled(SentWorld(w, can, r, inputs, timed))
  {
    var a := SentAct(w, r, inputs);
    RecordedAside(w.desk, r, timed);
    AnsweredSnoc(w.cli.log, a, w.desk.accepted);
    if r.Continue? {
      ContinueOpens(w, can, r, inputs, timed);
    }
    ContinuesSnoc(w.cli.log, a, w.desk.gates);
    RawsSnoc(w.cli.log, a, |w.net.rawLog|);
    SizesSnoc(w.cli.log, a);
  }

  /** A request on top of an owned result makes no operation busy. */
  lemma OwnedStill(op: Operation.Proto, r: Request, rec: bool)
    requires OperationAdmits(op, r, rec) && !op.Busy? && !r.Execute?
    ensures !OperationAfter(op, r, rec).Busy?
  {
  }

  lemma PreparedAside(c: Cli, r: Request, inputs: seq<bytes>, raw: nat)
    ensures var d := WithPost(Prepared(c, r, inputs), r, raw);
      && d.log == c.log + [Posted(Framed(Prepared(c, r, inputs), r), raw)]
      && d.results == c.results && d.frontier == c.frontier
  {
  }

  lemma SentLive(w: World, extra: seq<Span>, can: Permit, r: Request, inputs: seq<bytes>, timed: bool)
    requires Live(w, extra) && MayAsk(w, can, r, timed) && OperationAdmits(w.op, r, can.lifecycle)
    ensures Live(SentWorld(w, can, r, inputs, timed), extra)
  {
    var a := SentAct(w, r, inputs);
    PreparedAside(w.cli, r, inputs, w.net.rawOffset);
    RecordedAside(w.desk, r, timed);
    if w.desk.result.Some? {
      OwnedStill(w.op, r, can.lifecycle);
    }
    ReasonsAfter(w.op, w.cli.log, w.desk, r, can.lifecycle, timed, a);
    GateAfter(w.cli.log, r, w.desk, timed, a);
    PendingAfter(w.cli.log, w.desk, r, timed, a);
  }

  lemma PendingAfter(log: seq<Act>, d: Desk, r: Request, timed: bool, a: Act)
    requires ResizesPending(log, d) && !d.draining && a.Posted? && a.frame.request == r
      && (r.Resize? ==> d.resizes == [])
    ensures ResizesPending(log + [a], Recorded(d, r, timed))
  {
    SizesSnoc(log, a);
    assert Sizes(log) + [] == Sizes(log);
    var e := Recorded(d, r, timed);
    assert e.applied == d.applied && e.draining == d.draining;
    if r.Resize? {
      assert d.applied + [] == d.applied;
    }
  }

  /** Only an execute drops the gate in hand. */
  lemma BarrierAfter(d: Desk, r: Request, timed: bool)
    ensures Recorded(d, r, timed).barrier == if r.Execute? then None else d.barrier
  {
  }

  lemma GateAfter(log: seq<Act>, r: Request, d: Desk, timed: bool, a: Act)
    requires GateHeld(log, d.barrier, d.gates) && a.Posted? && a.frame.request == r
    ensures GateHeld(log + [a], Recorded(d, r, timed).barrier, Recorded(d, r, timed).gates)
  {
    RecordedAside(d, r, timed);
    BarrierAfter(d, r, timed);
    if !r.Execute? {
      HeldSnoc(log, a, d.barrier, d.gates);
    }
  }

  lemma SentKeeps(w: World, parse: Parser, extra: seq<Span>, can: Permit, r: Request, inputs: seq<bytes>, timed: bool)
    requires Inv(w, parse, extra) && MayAsk(w, can, r, timed) && OperationAdmits(w.op, r, can.lifecycle)
    requires Client.Inv(WithPost(Prepared(w.cli, r, inputs), r, w.net.rawOffset))
    ensures Inv(SentWorld(w, can, r, inputs, timed), parse, extra)
  {
    SentSettled(w, can, r, inputs, timed);
    SentLive(w, extra, can, r, inputs, timed);
  }

  lemma UnsentKeeps(w: World, parse: Parser, extra: seq<Span>, op: Operation.Proto)
    requires Inv(w, parse, extra) && (op == w.op || op.Broken?)
    ensures Inv(WithClient(w, op, w.cli), parse, extra)
  {
  }

  lemma UnwrittenKeeps(w: World, op: Operation.Proto, c: Cli)
    requires Settled(w) && !w.desk.closed && c.log == w.cli.log && c.results == w.cli.results
    ensures Settled(WithClient(w, op, c))
  {
  }

  /** A submission keeps everything, or at least the lasting facts when it has to fail. */
  ghost predicate SubmittedWell(r: Reply, parse: Parser, extra: seq<Span>) {
    Settled(r.world) && Client.Inv(r.world.cli) && (!r.fails ==> Inv(r.world, parse, extra))
  }

  lemma AskedKeeps(w: World, parse: Parser, extra: seq<Span>, can: Permit, r: Request, inputs: seq<bytes>, timed: bool,
                   encode: Encoder, sent: bool)
    requires Inv(w, parse, extra) && MayAsk(w, can, r, timed)
    ensures var a := Ask(w.op, w.cli, w.net.ready, w.net.rawOffset, can.lifecycle, r, inputs, encode, sent);
      SubmittedWell(AfterAsk(w, a, r, timed), parse, extra)
  {
    var a := Ask(w.op, w.cli, w.net.ready, w.net.rawOffset, can.lifecycle, r, inputs, encode, sent);
    AskKeeps(w.op, w.cli, w.net.ready, w.net.rawOffset, can.lifecycle, r, inputs, encode, sent);
    if a.verdict.Sent? {
      SentKeeps(w, parse, extra, can, r, inputs, timed);
    } else if a.verdict.WriteFailed? {
      UnwrittenKeeps(w, a.op, a.cli);
    } else {
      UnsentKeeps(w, parse, extra, a.op);
    }
    AskedCases(w, a, r, timed);
  }

  lemma SubmitKeeps(w: World, parse: Parser, extra: seq<Span>, can: Permit, r: Request, inputs: seq<bytes>, timed: bool,
                    encode: Encoder, sent: bool)
    requires Inv(w, parse, extra)
    ensures SubmittedWell(DoSubmit(w, can, r, inputs, timed, encode, sent), parse, extra)
  {
    if MayAsk(w, can, r, timed) {
      AskedKeeps(w, parse, extra, can, Authored(r), inputs, timed, encode, sent);
    }
  }

  lemma RequestKeeps(w: World, parse: Parser, can: Permit, r: Request, inputs: seq<bytes>, timed: bool,
                     encode: Encoder, sent: bool)
    requires Inv(w, parse, [])
    ensures Inv(DoRequest(w, can, r, inputs, timed, encode, sent).world, parse, [])
  {
    SubmitKeeps(w, parse, [], can, r, inputs, timed, encode, sent);
    FailKeeps(DoSubmit(w, can, r, inputs, timed, encode, sent).world, parse, []);
  }

  // ---------- Input, release, and the outside ----------

  lemma ClientAside(w: World, parse: Parser, c: Cli)
    requires Inv(w, parse, []) && Client.Inv(c)
    requires c.log == w.cli.log && c.results == w.cli.results && c.frontier == w.cli.frontier
    ensures Inv(WithClient(w, w.op, c), parse, [])
  {
  }

  lemma BeginKeepsWorld(w: World, parse: Parser, can: Permit, id: string)
    requires Inv(w, parse, [])
    ensures Inv(DoBegin(w, can, id).world, parse, [])
  {
    var c := BeginTyping(w.op, w.cli, w.net.ready, can.lifecycle, id);
    BeginKeeps(w.op, w.cli, w.net.ready, can.lifecycle, id);
    ClientAside(w, parse, c);
    FailKeeps(WithClient(w, w.op, c), parse, []);
  }

  lemma StillReasons(op: Operation.Proto, log: seq<Act>, a: Act, cancel: Option<string>, finalize: Option<string>)
    requires ReasonsAsked(op, log, cancel, finalize) && !Executes(a)
    ensures ReasonsAsked(op, log + [a], cancel, finalize)
  {
    if op.Busy? && cancel.Some? {
      StillAsked(log, a, Cancel(op.id, cancel.value));
    }
    if op.Busy? && finalize.Some? {
      StillAsked(log, a, Finalize(op.id, finalize.value));
    }
  }

  lemma TypedKeepsWorld(w: World, parse: Parser)
    requires Inv(w, parse, []) && w.cli.inputWriting
    ensures Inv(WithClient(w, w.op, TypingDone(w.cli)), parse, [])
  {
    var a := Typed(w.cli.chunks[w.cli.index]);
    TypedKeeps(w.cli);
    AnsweredSnoc(w.cli.log, a, w.desk.accepted);
    ContinuesSnoc(w.cli.log, a, w.desk.gates);
    RawsSnoc(w.cli.log, a, |w.net.rawLog|);
    SizesSnoc(w.cli.log, a);
    assert Sizes(w.cli.log) + [] == Sizes(w.cli.log);
    if !w.desk.disposed {
      StillReasons(w.op, w.cli.log, a, w.desk.cancelReason, w.desk.finalizeReason);
      HeldSnoc(w.cli.log, a, w.desk.barrier, w.desk.gates);
    }
  }

  lemma EndKeepsWorld(w: World, parse: Parser, written: bool)
    requires Inv(w, parse, [])
    ensures Inv(DoEnd(w, written).world, parse, [])
  {
    EndKeeps(w.cli, false);
    if w.cli.inputWriting {
      if w.net.ready && written {
        TypedKeepsWorld(w, parse);
      } else {
        FailKeeps(WithClient(w, w.op, EndTyping(w.cli, false)), parse, []);
      }
    }
  }

  lemma TakeKeeps(w: World, parse: Parser)
    requires Inv(w, parse, [])
    ensures Inv(DoTake(w).world, parse, [])
  {
    if DoTake(w).ok {
      var b := w.desk.result.value;
      assert w.desk.released + [b] == (w.desk.released + [b]) + [];
    }
  }

  /** The public session may cancel the operation itself, and may fail at any time. */
  function Outside(w: World, cancelled: Option<string>, can: Permit, failed: bool): World {
    World(if cancelled.Some? then Operation.Step(w.op, Operation.Cancel(cancelled.value, can.lifecycle)) else w.op,
          w.failed || failed, w.net, w.cli, w.desk)
  }

  lemma OutsideKeeps(w: World, parse: Parser, cancelled: Option<string>, can: Permit, failed: bool)
    requires Inv(w, parse, [])
    ensures Inv(Outside(w, cancelled, can, failed), parse, [])
  {
    var u := Outside(w, cancelled, can, failed);
    if !w.desk.disposed {
      assert u.op.Busy? ==> w.op.Busy? && u.op.id == w.op.id && u.op.phase == w.op.phase;
      assert ReasonsAsked(u.op, w.cli.log, w.desk.cancelReason, w.desk.finalizeReason);
    }
  }

  // ---------- Receiving ----------

  /** The one result the client has seen in a fact and the desk has not. */
  function Extra(fact: Fact): seq<Span> {
    if fact.Delivered? && IsResult(fact.event.body) then [SpanOf(fact.event.body)] else []
  }

  /** The client's frontier already covers the boundary a delivered event names. */
  predicate Covered(frontier: int, fact: Fact) {
    fact.Delivered? && Boundary(fact.event.body).Some? ==> Boundary(fact.event.body).value <= frontier
  }

  predicate Possible(t: Net, r: Reading) {
    && Readable(t, r) && Offered(t, r.arrival)
    && (r.arrival.Telemetry? && r.telemetry.ok ==> r.telemetry.kept == |r.arrival.data|)
  }

  lemma RetainedLater(released: seq<Body>, raw: nat, more: nat)
    requires Retained(released, raw) && raw <= more
    ensures Retained(released, more)
  {
  }

  lemma NetKeeps(w: World, parse: Parser, n: Net)
    requires Settled(w) && !w.desk.closed && Grows(w.net, n)
    ensures Settled(World(w.op, w.failed, n, w.cli, w.desk))
  {
    RetainedLater(w.desk.released, |w.net.rawLog|, |n.rawLog|);
  }

  lemma ObservedKeeps(w: World, active: Option<string>, b: Body)
    requires Settled(w) && Live(w, []) && Observes(w.cli, active, b)
    ensures var u := WithClient(w, w.op, Observed(w.cli, b));
      Settled(u) && Live(u, if IsResult(b) then [SpanOf(b)] else [])
    ensures Boundary(b).Some? ==> Boundary(b).value <= Observed(w.cli, b).frontier
  {
    assert w.cli.results == Spans(w.desk.accepted);
  }

  /** The world a live controller works with between its read and its decision. */
  ghost predicate Between(w: World, parse: Parser, fact: Fact) {
    Inv(w, parse, Extra(fact)) && !w.desk.disposed && Covered(w.cli.frontier, fact)
  }

  lemma PullKeeps(w: World, parse: Parser, r: Reading)
    requires Inv(w, parse, []) && !w.desk.disposed && Possible(w.net, r)
    ensures w.net.ready && Accepts(parse, w.net.fed)
    ensures var p := Pull(w.net, w.cli, Operation.ActiveId(w.op), parse, r.arrival, r.telemetry, r.raw);
      && Settled(WithPull(w, p)) && Client.Inv(p.cli)
      && (!p.fact.Raised? ==> Between(WithPull(w, p), parse, p.fact))
  {
    var active := Operation.ActiveId(w.op);
    var m := Receive(w.net, parse, r.arrival, r.telemetry, r.raw);
    LogGrows(w.net, parse, r.arrival, r.telemetry, r.raw);
    NetKeeps(w, parse, m.net);
    NetKeeps(w, parse, Shut(m.net));
    if !m.fact.Raised? {
      ReceiveKeeps(w.net, parse, r.arrival, r.telemetry, r.raw);
      var u := World(w.op, w.failed, m.net, w.cli, w.desk);
      assert Live(u, []);
      if m.fact.Delivered? && Observes(w.cli, active, m.fact.event.body) {
        EventKeeps(u, parse, active, m.fact.event);
      }
    }
  }

  lemma EventKeeps(w: World, parse: Parser, active: Option<string>, e: Event)
    requires Inv(w, parse, []) && !w.desk.disposed && Observes(w.cli, active, e.body)
    ensures Between(WithClient(w, w.op, Observed(w.cli, e.body)), parse, Delivered(e))
  {
    ObserveKeeps(w.cli, active, e.body);
    ObservedKeeps(w, active, e.body);
  }

  // ---------- Handling what was received ----------

  /** What handling a fact has to leave: the lasting facts always, the live ones when it succeeds. */
  ghost predicate HandledWell(w: World, h: Handled) {
    && Settled(WithHandled(w, h)) && !h.desk.disposed && !h.desk.closed
    && (h.ok ==> Live(WithHandled(w, h), []))
  }

  /** The operation moves on without opening a gate or becoming another one. */
  predicate Onward(p: Operation.Proto, q: Operation.Proto) {
    q.Busy? ==> p.Busy? && q.id == p.id && !q.phase.Gated?
  }

  lemma OnwardSteps(p: Operation.Proto, c: Operation.Call)
    requires c.Started? || c.Continued? || c.GateInterrupted? || c.TerminalResult? || c.Drained? || c.SessionClosed?
      || c.TerminalEof?
    ensures Onward(p, Operation.Step(p, c))
  {
  }

  lemma OnwardKeeps(w: World, op: Operation.Proto)
    requires Settled(w) && Live(w, []) && Onward(w.op, op)
    ensures Settled(WithOperation(w, op)) && Live(WithOperation(w, op), [])
    ensures var u := WithHandled(w, Handled(op, NoGate(w.desk), true)); Settled(u) && Live(u, [])
  {
  }

  lemma ObservationKeeps(w: World, c: Operation.Call)
    requires Settled(w) && Live(w, []) && !w.desk.disposed && (c.Started? || c.Continued? || c.GateInterrupted?)
    ensures HandledWell(w, Moved(w.op, w.desk, c, w.desk))
    ensures HandledWell(w, Moved(w.op, w.desk, c, NoGate(w.desk)))
  {
    OnwardSteps(w.op, c);
    OnwardKeeps(w, Operation.Step(w.op, c));
  }

  lemma MoreGates(log: seq<Act>, gates: seq<Sighting>, g: Sighting)
    requires ContinuesRetained(log, gates)
    ensures ContinuesRetained(log, gates + [g])
  {
    forall i | 0 <= i < |log| && log[i].Posted? && log[i].frame.request.Continue?
      ensures GateKnown(log, gates + [g], i)
    {
      assert GateKnown(log, gates, i);
      var k :| 0 <= k < |gates| && Opens(log, gates[k], i);
      assert (gates + [g])[k] == gates[k];
    }
  }

  lemma GateReadyKeeps(w: World, g: Gate)
    requires Settled(w) && Live(w, []) && !w.desk.disposed
    ensures HandledWell(w, Moved(w.op, w.desk, Operation.GateReady(g.id, g.gate), AtGate(w.desk, g, |w.cli.log|)))
  {
    var c, seen := Operation.GateReady(g.id, g.gate), Sighting(g, |w.cli.log|);
    MoreGates(w.cli.log, w.desk.gates, seen);
    var h := Moved(w.op, w.desk, c, AtGate(w.desk, g, |w.cli.log|));
    assert h.op.Busy? ==> w.op.Busy? && h.op.id == w.op.id && h.ok;
    assert (w.desk.gates + [seen])[|w.desk.gates|] == seen;
  }

  lemma SpansSnoc(accepted: seq<Taken>, t: Taken)
    requires Results(accepted) && IsResult(t.body)
    ensures Results(accepted + [t]) && Spans(accepted + [t]) == Spans(accepted) + [SpanOf(t.body)]
    ensures Bodies(accepted + [t]) == Bodies(accepted) + [t.body]
  {
  }

  lemma AnsweredMore(log: seq<Act>, accepted: seq<Taken>, t: Taken)
    requires AllAnswered(log, accepted) && Answered(log, t)
    ensures AllAnswered(log, accepted + [t])
  {
  }

  lemma ReasonAnswered(op: Operation.Proto, log: seq<Act>, d: Desk, b: Body)
    requires op.Busy? && IsResult(b) && op.id == b.id && Answers(d, b)
    requires ReasonsAsked(op, log, d.cancelReason, d.finalizeReason)
    ensures Answered(log, Taken(b, |log|))
  {
    assert log[..|log|] == log;
  }

  /** Accepting a result hands over the one span the client had seen and the desk had not. */
  lemma ResultKeeps(w: World, b: Body)
    requires Settled(w) && !w.desk.disposed && IsResult(b) && Live(w, [SpanOf(b)])
    ensures HandledWell(w, HandleResult(w.op, w.desk, b, |w.cli.log|))
  {
    var c, t := ResultCall(b), Taken(b, |w.cli.log|);
    OnwardSteps(w.op, c);
    if Answers(w.desk, b) && Operation.Admits(w.op, c) {
      SpansSnoc(w.desk.accepted, t);
      ReasonAnswered(w.op, w.cli.log, w.desk, b);
      AnsweredMore(w.cli.log, w.desk.accepted, t);
      AcceptedOwned(w.desk, t);
    }
  }

  lemma AcceptedOwned(d: Desk, t: Taken)
    requires Owned(d.result, d.accepted, d.released) && d.result.None?
    ensures Owned(Some(t.body), d.accepted + [t], d.released)
  {
    assert Bodies(d.accepted + [t]) == Bodies(d.accepted) + [t.body];
    assert d.released + [] == d.released;
  }

  lemma EofKeeps(w: World)
    requires Settled(w) && Live(w, []) && !w.desk.disposed
    ensures HandledWell(w, HandleFact(w.op, w.desk, TerminalEnded, |w.cli.log|))
  {
    OnwardSteps(w.op, Operation.TerminalEof);
  }

  lemma DrainingKeeps(w: World, reason: string)
    requires Settled(w) && Live(w, []) && !w.desk.disposed
    ensures HandledWell(w, HandleDraining(w.op, w.desk, reason))
  {
    var op := Operation.Step(w.op, Operation.Drained(reason));
    OnwardSteps(w.op, Operation.Drained(reason));
    OnwardSteps(op, Operation.TerminalEof);
  }

  lemma ClosedKeeps(w: World, reason: string, through: int)
    requires Settled(w) && Live(w, []) && !w.desk.disposed && through <= w.cli.frontier
    ensures HandledWell(w, Moved(w.op, w.desk, Operation.SessionClosed(reason), ClosedTaken(w.desk, through)))
  {
    OnwardSteps(w.op, Operation.SessionClosed(reason));
  }

  lemma ResizeKeeps(w: World, size: Size)
    requires Settled(w) && Live(w, []) && !w.desk.disposed
    ensures HandledWell(w, HandleResize(w.op, w.desk, size))
  {
    if w.desk.resizes != [] {
      var d := Applied(w.desk);
      assert w.desk.resizes == [w.desk.resizes[0]];
      assert d.applied + d.resizes == w.desk.applied + w.desk.resizes;
    }
  }

  lemma BodyKeeps(w: World, b: Body)
    requires Settled(w) && Live(w, []) && !w.desk.disposed && !IsResult(b)
    requires Boundary(b).Some? ==> Boundary(b).value <= w.cli.frontier
    ensures HandledWell(w, Handle(w.op, w.desk, b, |w.cli.log|))
  {
    match b
    case Started(id, _) => ObservationKeeps(w, Operation.Started(id));
    case GateReady(id, gate, through) => GateReadyKeeps(w, Gate(id, gate, through));
    case Continued(id, gate, _) => ObservationKeeps(w, Operation.Continued(id, gate));
    case GateInterrupted(id, gate, _) => ObservationKeeps(w, Operation.GateInterrupted(id, gate));
    case ResizeApplied(columns, rows, _, _) => ResizeKeeps(w, Size(columns, rows));
    case Draining(reason, _) => DrainingKeeps(w, reason);
    case Closed(reason, through) => ClosedKeeps(w, reason, through);
    case _ =>
  }

  lemma AsideKeeps(w: World, ok: bool)
    requires Settled(w) && Live(w, []) && !w.desk.disposed
    ensures HandledWell(w, Handled(w.op, w.desk, ok))
  {
  }

  lemma FactKeeps(w: World, fact: Fact)
    requires Settled(w) && Live(w, Extra(fact)) && !w.desk.disposed && Covered(w.cli.frontier, fact)
    ensures HandledWell(w, HandleFact(w.op, w.desk, fact, |w.cli.log|))
  {
    match fact
    case Delivered(e) =>
      if IsResult(e.body) {
        ResultKeeps(w, e.body);
      } else {
        BodyKeeps(w, e.body);
      }
    case TerminalEnded => EofKeeps(w);
    case TelemetryEnded => AsideKeeps(w, w.desk.closedSeen);
    case Raised => AsideKeeps(w, false);
    case _ => AsideKeeps(w, true);
  }

  /** A live pair has retained all the terminal output it read. */
  lemma ReadyRetains(t: Net, parse: Parser)
    requires Transport.Inv(t, parse) && t.ready && !t.closed
    ensures t.rawLog == t.terminalRead && t.rawOffset == |t.rawLog|
  {
    assert t.rawLog + [] == t.rawLog;
  }

  lemma FinishKeeps(w: World, parse: Parser)
    requires Inv(w, parse, []) && !w.desk.disposed
    requires w.desk.closedSeen && w.desk.terminalEof && w.cli.frontier <= w.net.rawOffset
    requires w.desk.finalOffset == Some(w.net.rawOffset)
    ensures Inv(Close(WithDesk(w, Finished(w.desk))), parse, [])
  {
    ReadyRetains(w.net, parse);
  }

  lemma AfterFactKeeps(w: World, parse: Parser, fact: Fact)
    requires Between(w, parse, fact)
    ensures Inv(AfterFact(w, fact).world, parse, [])
  {
    var h := HandleFact(w.op, w.desk, fact, |w.cli.log|);
    FactKeeps(w, fact);
    FailKeeps(WithHandled(w, h), parse, []);
    if h.ok {
      var u := WithHandled(w, h);
      assert Inv(u, parse, []);
      if EofMeetsBarrier(h.desk, w.cli.frontier, w.net.rawOffset) && !FinishesBadly(h.op, h.desk, w.net.rawOffset)
         && h.desk.closedSeen && h.desk.terminalEof {
        FinishKeeps(u, parse);
      }
    }
  }

  /** A written request leaves the channels, the frontier and an unread result alone. */
  lemma WrittenAside(w: World, can: Permit, r: Request, inputs: seq<bytes>, timed: bool, encode: Encoder, sent: bool)
    ensures var c := DoSubmit(w, can, r, inputs, timed, encode, sent);
      && (c.ok ==> c.world.net == w.net && c.world.cli.frontier == w.cli.frontier
                   && c.world.desk.disposed == w.desk.disposed)
      && c.world.desk.result == w.desk.result && c.world.desk.released == w.desk.released
  {
  }

  lemma CancelKeeps(w: World, parse: Parser, fact: Fact, can: Permit, due: bool, encode: Encoder, sent: bool)
    requires Between(w, parse, fact)
    ensures var c := CancelIfDue(w, can, due, encode, sent);
      && Settled(c.world) && Client.Inv(c.world.cli)
      && (c.ok ==> Between(c.world, parse, fact) && c.world.net == w.net)
  {
    var active := Operation.ActiveId(w.op);
    if w.desk.timed && due && active.Some? {
      var r := Cancel(active.value, "deadline");
      WrittenAside(w, can, r, [], false, encode, sent);
      SubmitKeeps(w, parse, Extra(fact), can, r, [], false, encode, sent);
    }
  }

  lemma AfterReadKeeps(w: World, parse: Parser, can: Permit, clock: Clock, encode: Encoder, fact: Fact)
    requires Settled(w) && Client.Inv(w.cli) && (!fact.Raised? ==> Between(w, parse, fact))
    ensures Inv(AfterRead(w, can, clock, encode, fact).world, parse, [])
  {
    FailKeeps(w, parse, []);
    if !fact.Raised? {
      CancelKeeps(w, parse, fact, can, clock.deadlineAfter, encode, clock.sentAfter);
      var c := CancelIfDue(w, can, clock.deadlineAfter, encode, clock.sentAfter);
      FailKeeps(c.world, parse, []);
      if c.ok {
        AfterFactKeeps(c.world, parse, fact);
      }
    }
  }

  lemma ReceivedKeeps(w: World, parse: Parser, can: Permit, clock: Clock, encode: Encoder, r: Reading)
    requires Inv(w, parse, []) && Possible(w.net, r)
    ensures w.net.ready ==> Accepts(parse, w.net.fed)
    ensures Inv(DoReceive(w, can, clock, encode, parse, r).world, parse, [])
  {
    FailKeeps(w, parse, []);
    if !w.desk.disposed {
      CancelKeeps(w, parse, Withheld, can, clock.deadlineBefore, encode, clock.sentBefore);
      var c := CancelIfDue(w, can, clock.deadlineBefore, encode, clock.sentBefore);
      FailKeeps(c.world, parse, []);
      if c.ok {
        var u := c.world;
        PullKeeps(u, parse, r);
        var p := Pull(u.net, u.cli, Operation.ActiveId(u.op), parse, r.arrival, r.telemetry, r.raw);
        AfterReadKeeps(WithPull(u, p), parse, can, clock, encode, p.fact);
      }
    }
  }

  // ---------- Whole runs ----------

  datatype Move =
    | Requesting(can: Permit, request: Request, inputs: seq<bytes>, timed: bool, sent: bool)
    | Beginning(can: Permit, id: string)
    | Ending(written: bool)
    | Taking
    | Receiving(can: Permit, clock: Clock, reading: Reading)
    | Elsewhere(cancelled: Option<string>, can: Permit, failed: bool)

  /** One move; a reading the channels do not offer cannot occur. */
  ghost function Advance(w: World, parse: Parser, encode: Encoder, m: Move): (n: World)
    requires Inv(w, parse, [])
    ensures Inv(n, parse, [])
  {
    match m
    case Requesting(can, r, inputs, timed, sent) =>
      RequestKeeps(w, parse, can, r, inputs, timed, encode, sent);
      DoRequest(w, can, r, inputs, timed, encode, sent).world
    case Beginning(can, id) => BeginKeepsWorld(w, parse, can, id); DoBegin(w, can, id).world
    case Ending(written) => EndKeepsWorld(w, parse, written); DoEnd(w, written).world
    case Taking => TakeKeeps(w, parse); DoTake(w).world
    case Receiving(can, clock, r) =>
      if !Possible(w.net, r) then w
      else
        ReceivedKeeps(w, parse, can, clock, encode, r); DoReceive(w, can, clock, encode, parse, r).world
    case Elsewhere(cancelled, can, failed) =>
      OutsideKeeps(w, parse, cancelled, can, failed);
      Outside(w, cancelled, can, failed)
  }

  ghost function RunFrom(w: World, parse: Parser, encode: Encoder, moves: seq<Move>): (n: World)
    requires Inv(w, parse, [])
    ensures Inv(n, parse, [])
    decreases |moves|
  {
    if moves == [] then w else RunFrom(Advance(w, parse, encode, moves[0]), parse, encode, moves[1..])
  }

  /** A controller is built on a ready pair, beside whatever operation and failure the session already holds. */
  ghost function Assembled(op: Operation.Proto, failed: bool, t: Net, parse: Parser): (w: World)
    requires Transport.Inv(t, parse) && t.ready && !t.closed
    ensures Inv(w, parse, [])
  {
    BarrierShaped(t, parse);
    ReadyRetains(t, parse);
    World(op, failed, t, FreshClient(t.barrier.value.body.outputThrough), FreshDesk)
  }

  /** What a run starts from: the session's operation and failure, and a transport that has become ready. */
  datatype Start = Start(op: Operation.Proto, failed: bool, held: bytes, inputs: seq<Input>, parse: Parser)

  ghost function Pair(s: Start): Net { Transport.Run(s.parse, s.held, s.inputs) }

  ghost predicate CanAssemble(s: Start) { Pair(s).ready && !Pair(s).closed }

  ghost function Run(s: Start, encode: Encoder, moves: seq<Move>): (w: World)
    requires CanAssemble(s)
    ensures Inv(w, s.parse, [])
  {
    RunFrom(Assembled(s.op, s.failed, Pair(s), s.parse), s.parse, encode, moves)
  }

  /** Closed means that every byte the terminal sent is in the raw log, up to the one validated final offset. */
  lemma ClosedIsWhole(s: Start, encode: Encoder, moves: seq<Move>)
    requires CanAssemble(s)
    ensures var w := Run(s, encode, moves);
      w.desk.closed ==>
        w.net.rawLog == w.net.terminalRead && |w.net.rawLog| == w.cli.frontier
          && w.desk.finalOffset == Some(w.cli.frontier)
  {
    var w := Run(s, encode, moves);
    assert Settled(w);
  }

  /**
   * Results are released in the order they were accepted, each once, only with their raw range
   * retained, and their ranges are ordered and disjoint.
   */
  lemma ReleasedResultsAreRetained(s: Start, encode: Encoder, moves: seq<Move>)
    requires CanAssemble(s)
    ensures var w := Run(s, encode, moves);
      && w.desk.released <= Bodies(w.desk.accepted) && |w.desk.accepted| <= |w.desk.released| + 1
      && (forall i :: 0 <= i < |w.desk.released| ==>
            IsResult(w.desk.released[i]) && ResultThrough(w.desk.released[i]) <= |w.net.rawLog|)
      && (forall i, j :: 0 <= i < j < |w.desk.released| ==>
            ResultThrough(w.desk.released[i]) <= ResultStart(w.desk.released[j]))
  {
    var w := Run(s, encode, moves);
    assert Settled(w) && Ordered(w.cli.results);
    forall i, j | 0 <= i < j < |w.desk.released|
      ensures ResultThrough(w.desk.released[i]) <= ResultStart(w.desk.released[j])
    {
      assert Bodies(w.desk.accepted)[i] == w.desk.released[i] && Bodies(w.desk.accepted)[j] == w.desk.released[j];
      assert Spans(w.desk.accepted)[i] == w.cli.results[i] && Spans(w.desk.accepted)[j] == w.cli.results[j];
    }
  }

  /**
   * Every continue frame was written for a gate seen in the same operation, whose own output was in
   * the raw log when the frame was written.
   */
  lemma ContinuedGatesWereRetained(s: Start, encode: Encoder, moves: seq<Move>, i: nat)
    requires CanAssemble(s)
    requires var log := Run(s, encode, moves).cli.log;
      i < |log| && log[i].Posted? && log[i].frame.request.Continue?
    ensures var w := Run(s, encode, moves);
      && (exists g :: g in w.desk.gates && Opens(w.cli.log, g, i))
      && w.cli.log[i].raw <= |w.net.rawLog|
  {
    var w := Run(s, encode, moves);
    assert Settled(w) && GateKnown(w.cli.log, w.desk.gates, i);
    var k :| 0 <= k < |w.desk.gates| && Opens(w.cli.log, w.desk.gates[k], i);
    assert w.desk.gates[k] in w.desk.gates;
  }

  /** A cancelled or finalized result is accepted only for a request written for that operation, with its reason. */
  lemma OutcomesWereAsked(s: Start, encode: Encoder, moves: seq<Move>, j: nat)
    requires CanAssemble(s)
    requires j < |Run(s, encode, moves).desk.accepted|
    ensures var w := Run(s, encode, moves);
      var t := w.desk.accepted[j];
      && t.at <= |w.cli.log|
      && (t.body.Cancelled? ==> AskedFor(w.cli.log[..t.at], Cancel(t.body.id, t.body.reason)))
      && (t.body.Finalized? ==> AskedFor(w.cli.log[..t.at], Finalize(t.body.id, t.body.reason)))
  {
    var w := Run(s, encode, moves);
    assert AllAnswered(w.cli.log, w.desk.accepted);
    assert Answered(w.cli.log, w.desk.accepted[j]);
  }

  /**
   * Each accepted acknowledgement answers its own resize request, in order and with its dimensions,
   * and until the drain at most one request is waiting.
   */
  lemma ResizesAreAnswered(s: Start, encode: Encoder, moves: seq<Move>)
    requires CanAssemble(s)
    ensures var w := Run(s, encode, moves);
      && w.desk.applied <= Sizes(w.cli.log)
      && (!w.desk.disposed && !w.desk.draining ==> |Sizes(w.cli.log)| <= |w.desk.applied| + 1)
  {
    var w := Run(s, encode, moves);
    assert Settled(w);
    assert w.desk.disposed || ResizesPending(w.cli.log, w.desk);
  }

  lemma CancelLeavesResult(w: World, can: Permit, due: bool, encode: Encoder, sent: bool)
    ensures var c := CancelIfDue(w, can, due, encode, sent).world;
      c.desk.result == w.desk.result && c.desk.released == w.desk.released
  {
    var active := Operation.ActiveId(w.op);
    if active.Some? {
      WrittenAside(w, can, Cancel(active.value, "deadline"), [], false, encode, sent);
    }
  }

  lemma MovedLeavesResult(op: Operation.Proto, d: Desk, c: Operation.Call, after: Desk)
    requires Operation.Admits(op, c) ==> after.result == d.result
    ensures Moved(op, d, c, after).desk.result == d.result
  {
  }

  lemma ResizeLeavesResult(op: Operation.Proto, d: Desk, size: Size)
    ensures HandleResize(op, d, size).desk.result == d.result
  {
    if d.resizes != [] {
      assert Applied(d).result == d.result && Resized(d).result == d.result;
    }
  }

  lemma DrainingLeavesResult(op: Operation.Proto, d: Desk, reason: string)
    ensures HandleDraining(op, d, reason).desk.result == d.result
  {
  }

  lemma OutcomeLeavesResult(op: Operation.Proto, d: Desk, b: Body, at: nat)
    requires IsResult(b) && !op.Busy?
    ensures HandleResult(op, d, b, at).desk.result == d.result
  {
    assert !Operation.Admits(op, ResultCall(b));
  }

  lemma BodyLeavesResult(op: Operation.Proto, d: Desk, b: Body, at: nat)
    requires !op.Busy?
    ensures Handle(op, d, b, at).desk.result == d.result
  {
    if IsResult(b) {
      OutcomeLeavesResult(op, d, b, at);
    } else {
      match b
      case Started(id, _) => MovedLeavesResult(op, d, Operation.Started(id), d);
      case GateReady(id, gate, through) =>
        MovedLeavesResult(op, d, Operation.GateReady(id, gate), AtGate(d, Gate(id, gate, through), at));
      case Continued(id, gate, _) => MovedLeavesResult(op, d, Operation.Continued(id, gate), NoGate(d));
      case GateInterrupted(id, gate, _) => MovedLeavesResult(op, d, Operation.GateInterrupted(id, gate), NoGate(d));
      case ResizeApplied(columns, rows, _, _) => ResizeLeavesResult(op, d, Size(columns, rows));
      case Draining(reason, _) => DrainingLeavesResult(op, d, reason);
      case Closed(reason, through) =>
        MovedLeavesResult(op, d, Operation.SessionClosed(reason), ClosedTaken(d, through));
      case _ =>
    }
  }

  lemma HandlingLeavesResult(op: Operation.Proto, d: Desk, fact: Fact, at: nat)
    requires !op.Busy?
    ensures HandleFact(op, d, fact, at).desk.result == d.result
  {
    if fact.Delivered? {
      BodyLeavesResult(op, d, fact.event.body, at);
    }
  }

  lemma FactLeavesResult(w: World, fact: Fact)
    requires !w.op.Busy?
    ensures AfterFact(w, fact).world.desk.result == w.desk.result
  {
    HandlingLeavesResult(w.op, w.desk, fact, |w.cli.log|);
    SettledDesk(w.op, w.desk, fact, |w.cli.log|, w.cli.frontier, w.net.rawOffset);
  }

  lemma SettledDesk(op: Operation.Proto, d: Desk, fact: Fact, at: nat, frontier: int, raw: int)
    ensures Settle(op, d, fact, at, frontier, raw).desk.result == HandleFact(op, d, fact, at).desk.result
  {
  }

  lemma ReceiveLeavesResult(w: World, parse: Parser, can: Permit, clock: Clock, encode: Encoder, r: Reading)
    requires Inv(w, parse, []) && Possible(w.net, r) && w.desk.result.Some?
    requires w.net.ready ==> Accepts(parse, w.net.fed)
    ensures DoReceive(w, can, clock, encode, parse, r).world.desk.result == w.desk.result
  {
    if !w.desk.disposed {
      CancelKeeps(w, parse, Withheld, can, clock.deadlineBefore, encode, clock.sentBefore);
      CancelLeavesResult(w, can, clock.deadlineBefore, encode, clock.sentBefore);
      var c := CancelIfDue(w, can, clock.deadlineBefore, encode, clock.sentBefore);
      if c.ok {
        ReadOnLeavesResult(c.world, parse, can, clock, encode, r);
      }
    }
  }

  lemma ReadOnLeavesResult(w: World, parse: Parser, can: Permit, clock: Clock, encode: Encoder, r: Reading)
    requires Inv(w, parse, []) && !w.desk.disposed && Possible(w.net, r) && w.desk.result.Some?
    requires w.net.ready ==> Accepts(parse, w.net.fed)
    ensures ReadOn(w, can, clock, encode, parse, r).world.desk.result == w.desk.result
  {
    PullKeeps(w, parse, r);
    var p := Pull(w.net, w.cli, Operation.ActiveId(w.op), parse, r.arrival, r.telemetry, r.raw);
    ReadLeavesResult(WithPull(w, p), parse, can, clock, encode, p.fact);
  }

  lemma ReadLeavesResult(w: World, parse: Parser, can: Permit, clock: Clock, encode: Encoder, fact: Fact)
    requires !fact.Raised? ==> Between(w, parse, fact)
    requires w.desk.result.Some?
    ensures AfterRead(w, can, clock, encode, fact).world.desk.result == w.desk.result
  {
    if !fact.Raised? {
      CancelLeavesResult(w, can, clock.deadlineAfter, encode, clock.sentAfter);
      var c := CancelIfDue(w, can, clock.deadlineAfter, encode, clock.sentAfter);
      if c.ok {
        assert !c.world.op.Busy? by { CancelKeeps(w, parse, fact, can, clock.deadlineAfter, encode, clock.sentAfter); }
        FactLeavesResult(c.world, fact);
      }
    }
  }

  /** No move overwrites an accepted result: it stays until a take releases it. */
  lemma ResultIsNeverOverwritten(w: World, parse: Parser, encode: Encoder, m: Move)
    requires Inv(w, parse, []) && w.desk.result.Some?
    ensures var n := Advance(w, parse, encode, m);
      || n.desk.result == w.desk.result
      || (m.Taking? && n.desk.result.None? && n.desk.released == w.desk.released + [w.desk.result.value])
  {
    match m
    case Requesting(can, r, inputs, timed, sent) => RequestLeavesResult(w, can, r, inputs, timed, encode, sent);
    case Beginning(can, id) => assert DoBegin(w, can, id).world.desk.result == w.desk.result;
    case Ending(written) => assert DoEnd(w, written).world.desk.result == w.desk.result;
    case Taking =>
    case Receiving(can, clock, r) =>
      if Possible(w.net, r) {
        assert w.net.ready ==> Accepts(parse, w.net.fed) by { ReceivedKeeps(w, parse, can, clock, encode, r); }
        ReceiveLeavesResult(w, parse, can, clock, encode, r);
      }
    case Elsewhere(_, _, _) =>
  }

  lemma RequestLeavesResult(w: World, can: Permit, r: Request, inputs: seq<bytes>, timed: bool, encode: Encoder,
                            sent: bool)
    ensures DoRequest(w, can, r, inputs, timed, encode, sent).world.desk.result == w.desk.result
  {
    WrittenAside(w, can, r, inputs, timed, encode, sent);
  }

  // ---------- Closing in any order ----------

  function SettleAll(op: Operation.Proto, d: Desk, facts: seq<Fact>, at: nat, frontier: int, raw: int): Handled
    decreases |facts|
  {
    if facts == [] then Handled(op, d, true)
    else
      var h := Settle(op, d, facts[0], at, frontier, raw);
      if h.ok then SettleAll(h.op, h.desk, facts[1..], at, frontier, raw) else h
  }

  lemma SettleThree(op: Operation.Proto, d: Desk, f: Fact, g: Fact, h: Fact, at: nat, frontier: int, raw: int)
    requires Settle(op, d, f, at, frontier, raw).ok
    requires var a := Settle(op, d, f, at, frontier, raw); Settle(a.op, a.desk, g, at, frontier, raw).ok
    ensures var a := Settle(op, d, f, at, frontier, raw);
      var b := Settle(a.op, a.desk, g, at, frontier, raw);
      SettleAll(op, d, [f, g, h], at, frontier, raw) == Settle(b.op, b.desk, h, at, frontier, raw)
  {
    assert [f, g, h][1..] == [g, h] && [g, h][1..] == [h] && [h][1..] == [];
    var a := Settle(op, d, f, at, frontier, raw);
    var b := Settle(a.op, a.desk, g, at, frontier, raw);
    var c := Settle(b.op, b.desk, h, at, frontier, raw);
    assert SettleAll(c.op, c.desk, [], at, frontier, raw) == Handled(c.op, c.desk, true);
    assert SettleAll(b.op, b.desk, [h], at, frontier, raw) == c;
  }

  /** How a drained session ends when its last fact arrives. */
  function Ended(d: Desk, through: int, raw: int): Handled {
    var e := ClosedTaken(EofTaken(DrainTaken(DrainBegun(d))), through);
    if through == raw then Handled(Operation.Closed, Finished(e), true) else Handled(Operation.Closed, e, false)
  }

  predicate MayDrain(op: Operation.Proto, d: Desk, reason: string) {
    Operation.Admits(op, Operation.Drained(reason)) && !d.draining && !d.terminalEof && !d.closedSeen
  }

  lemma DrainSettles(op: Operation.Proto, d: Desk, e: Event, at: nat, frontier: int, raw: int)
    requires e.body.Draining? && MayDrain(op, d, e.body.reason)
    ensures Settle(op, d, Delivered(e), at, frontier, raw)
         == Handled(Operation.Draining(e.body.reason, false, false), DrainTaken(DrainBegun(d)), true)
  {
  }

  lemma LateDrainSettles(op: Operation.Proto, d: Desk, e: Event, at: nat, frontier: int, raw: int)
    requires e.body.Draining? && MayDrain(op, d, e.body.reason) && frontier <= raw
    ensures Settle(op, d, TerminalEnded, at, frontier, raw) == Handled(op, EofTaken(d), true)
    ensures Settle(op, EofTaken(d), Delivered(e), at, frontier, raw)
         == Handled(Operation.Draining(e.body.reason, false, true), EofTaken(DrainTaken(DrainBegun(d))), true)
  {
    assert EofTaken(DrainTaken(DrainBegun(d))) == DrainTaken(DrainBegun(EofTaken(d)));
    var h := HandleDraining(op, EofTaken(d), e.body.reason);
    assert h == Handled(Operation.Draining(e.body.reason, false, true), DrainTaken(DrainBegun(EofTaken(d))), true);
  }

  lemma EofFirst(op: Operation.Proto, d: Desk, drain: Event, close: Event, at: nat, frontier: int, raw: int)
    requires drain.body.Draining? && close.body.Closed? && close.body.reason == drain.body.reason
    requires MayDrain(op, d, drain.body.reason) && frontier <= raw
    ensures SettleAll(op, d, [TerminalEnded, Delivered(drain), Delivered(close)], at, frontier, raw)
         == Ended(d, close.body.outputThrough, raw)
  {
    LateDrainSettles(op, d, drain, at, frontier, raw);
    SettleThree(op, d, TerminalEnded, Delivered(drain), Delivered(close), at, frontier, raw);
  }

  lemma EofBetween(op: Operation.Proto, d: Desk, drain: Event, close: Event, at: nat, frontier: int, raw: int)
    requires drain.body.Draining? && close.body.Closed? && close.body.reason == drain.body.reason
    requires MayDrain(op, d, drain.body.reason) && frontier <= raw
    ensures SettleAll(op, d, [Delivered(drain), TerminalEnded, Delivered(close)], at, frontier, raw)
         == Ended(d, close.body.outputThrough, raw)
  {
    DrainSettles(op, d, drain, at, frontier, raw);
    SettleThree(op, d, Delivered(drain), TerminalEnded, Delivered(close), at, frontier, raw);
  }

  lemma EofLast(op: Operation.Proto, d: Desk, drain: Event, close: Event, at: nat, frontier: int, raw: int)
    requires drain.body.Draining? && close.body.Closed? && close.body.reason == drain.body.reason
    requires MayDrain(op, d, drain.body.reason) && frontier <= raw
    ensures SettleAll(op, d, [Delivered(drain), Delivered(close), TerminalEnded], at, frontier, raw)
         == Ended(d, close.body.outputThrough, raw)
  {
    DrainSettles(op, d, drain, at, frontier, raw);
    SettleThree(op, d, Delivered(drain), Delivered(close), TerminalEnded, at, frontier, raw);
    var e := DrainTaken(DrainBegun(d));
    assert EofTaken(ClosedTaken(e, close.body.outputThrough)) == ClosedTaken(EofTaken(e), close.body.outputThrough);
  }

  /**
   * Terminal EOF may come before, between or after draining and closed: the session ends the same
   * way, and it closes exactly when the raw log ends at the offset `closed` names.
   */
  lemma ClosureOrdersAgree(op: Operation.Proto, d: Desk, drain: Event, close: Event, at: nat, frontier: int, raw: int)
    requires drain.body.Draining? && close.body.Closed? && close.body.reason == drain.body.reason
    requires Operation.Admits(op, Operation.Drained(drain.body.reason))
    requires !d.draining && !d.terminalEof && !d.closedSeen && frontier <= raw
    ensures var early := SettleAll(op, d, [TerminalEnded, Delivered(drain), Delivered(close)], at, frontier, raw);
      && early == SettleAll(op, d, [Delivered(drain), TerminalEnded, Delivered(close)], at, frontier, raw)
      && early == SettleAll(op, d, [Delivered(drain), Delivered(close), TerminalEnded], at, frontier, raw)
      && (early.ok <==> close.body.outputThrough == raw) && (early.ok ==> early.desk.closed && early.op.Closed?)
  {
    EofFirst(op, d, drain, close, at, frontier, raw);
    EofBetween(op, d, drain, close, at, frontier, raw);
    EofLast(op, d, drain, close, at, frontier, raw);
  }
}
