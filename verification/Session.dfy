/**
 * The retained controller session (`ControllerSession`): the public lifecycle and the operation
 * machine, with a latched first failure, separate evidence sinks and a deferred attachment end.
 */
module Session {
  import opened Common
  import opened Evidence
  import opened Reploy
  import Operation

  /** The first local failure, with what was active when it happened. */
  datatype Failure = Failure(code: string, operation: Option<string>, gate: Option<string>, state: State)

  datatype Sess = Sess(
    life: Life, op: Operation.Proto, failure: Option<Failure>,
    started: bool, connected: bool, endSeen: bool, endReported: bool,
    requestFailed: bool, resultRetained: bool, closed: bool,
    eventLog: bytes, stderrLog: bytes, stderrTail: bytes, stderrObserved: nat)

  /** A new session on sinks that may hold something already. */
  function FreshSession(events: bytes, stderr: bytes): Sess {
    Sess(Fresh, Operation.Idle(false), None, false, false, false, false, false, false, false, events, stderr, [], 0)
  }

  predicate New(s: Sess) { s == FreshSession(s.eventLog, s.stderrLog) }

  type Effects = seq<Effect>

  function When(condition: bool, e: Effect): Effects { if condition then [e] else [] }

  // ---------- Building blocks ----------

  function WithLife(s: Sess, l: Life): Sess { s.(life := l) }
  function WithOp(s: Sess, p: Operation.Proto): Sess { s.(op := p) }

  function FailureNow(s: Sess, code: string): Failure {
    Failure(code, Operation.ActiveId(s.op), Operation.GateId(s.op), s.life.state)
  }

  /** The first failure is kept; recording stops either way. */
  function WithFailure(s: Sess, code: string): Sess {
    s.(failure := if s.failure.Some? then s.failure else Some(FailureNow(s, code)), life := SetRecordingFailed(s.life))
  }

  predicate CanTerminate(s: Sess) {
    !s.requestFailed && s.life.state.Active? && MayTerminate(s.life.grants)
  }

  function SeekTermination(s: Sess): Sess {
    if CanTerminate(s) then WithLife(s, SetTermination(s.life)) else s
  }

  function TerminateEffects(s: Sess): Effects {
    When(CanTerminate(s) && !s.life.terminationRequested, SendTerminate)
  }

  function AfterFailure(s: Sess, code: string, terminate: bool): Sess {
    if terminate then SeekTermination(WithFailure(s, code)) else WithFailure(s, code)
  }

  function FailEffects(s: Sess, code: string, terminate: bool): Effects {
    When(s.failure.None?, RetainPartial) + if terminate then TerminateEffects(WithFailure(s, code)) else []
  }

  predicate EndDue(s: Sess) { s.endSeen && !s.endReported && Ending(s.life.state) }

  function EndReported(s: Sess): Sess {
    s.(endReported := true, life := Step(s.life, AttachmentEnd(s.connected)))
  }

  function ReportEnd(s: Sess): Sess { if EndDue(s) then EndReported(s) else s }

  function ReportEndReply(s: Sess): Reply {
    if EndDue(s) then Answer(s.life, AttachmentEnd(s.connected)) else Quiet
  }

  predicate Retains(event: PublicEvent) { event.Diagnostic? || event.ClientError? || event.Terminated? }

  predicate Success(r: SessionResult) {
    && (r.cause.ControllerTerminate? ||
        (r.cause.WorkloadExited? && r.workload.kind.Exited? && r.workload.code == Some(0)))
    && r.outputs.kind.Drained? && r.maintained && r.controllerCompleted && r.cleanedUp && !r.needsRecovery
  }

  function WithEventLog(s: Sess, kept: bytes): Sess { s.(eventLog := s.eventLog + kept) }
  function Retained(s: Sess): Sess { s.(resultRetained := true) }

  // ---------- Public events ----------

  /** The session, and the effects so far, while one event is being handled. */
  datatype Turn = Turn(s: Sess, out: Effects)

  function FailAlone(s: Sess, code: string, terminate: bool): Turn {
    Turn(AfterFailure(s, code, terminate), FailEffects(s, code, terminate))
  }

  function LifeAlone(s: Sess, c: Call): Turn { Turn(WithLife(s, Step(s.life, c)), Emits(Answer(s.life, c))) }

  function FailTurn(t: Turn, code: string, terminate: bool): Turn {
    Turn(AfterFailure(t.s, code, terminate), t.out + FailEffects(t.s, code, terminate))
  }

  function OnEvent(s: Sess, line: bytes, event: Option<PublicEvent>, now: Reading, w: Written): Turn
    requires w.kept <= |line|
  {
    if event.None? then FailAlone(s, "client-schema", true)
    else if !Retains(event.value) then Interpret(Turn(s, []), event.value, now)
    else OnRetained(WithEventLog(s, line[..w.kept]), event.value, now, w.ok)
  }

  /** An event whose line is evidence, once the sink has answered. */
  function OnRetained(kept: Sess, event: PublicEvent, now: Reading, ok: bool): Turn {
    if !ok then FailAlone(kept, "event-retention", true)
    else if event.ClientError? then Interpret(FailAlone(kept, event.code, false), event, now)
    else Interpret(Turn(kept, []), event, now)
  }

  function LifeTurn(t: Turn, c: Call): Turn {
    Turn(WithLife(t.s, Step(t.s.life, c)), t.out + Emits(Answer(t.s.life, c)))
  }

  function EndTurn(t: Turn): Turn { Turn(ReportEnd(t.s), t.out + Emits(ReportEndReply(t.s))) }

  /** The lifecycle sees the event, and then a pending attachment end. */
  function Interpret(t: Turn, event: PublicEvent, now: Reading): Turn {
    var seen := LifeTurn(t, Event(Some(event), now));
    if !Admits(t.s.life, Event(Some(event), now)) then FailTurn(seen, "client-lifecycle", false)
    else TellThenConclude(seen, event)
  }

  function TellThenConclude(t: Turn, event: PublicEvent): Turn {
    if ReportEndReply(t.s).Raised? then FailTurn(EndTurn(t), "client-lifecycle", false)
    else Conclude(EndTurn(t), event)
  }

  function Conclude(t: Turn, event: PublicEvent): Turn {
    if event.Terminated? then
      var judged := if Success(event.result) then Turn(Retained(t.s), t.out)
                    else FailTurn(Turn(Retained(t.s), t.out), "session-result", false);
      if judged.s.requestFailed then judged else LifeTurn(judged, Acknowledge)
    else
      var t := if event.OutputsFinalized? && event.status.kind.OutputsFailed?
               then FailTurn(t, "output-finalization", false) else t;
      if t.s.failure.Some? then Turn(SeekTermination(t.s), t.out + TerminateEffects(t.s)) else t
  }

  // ---------- The other reports ----------

  function NowConnected(s: Sess): Sess { s.(connected := true) }
  function NowClosed(s: Sess): Sess { s.(closed := true) }
  function WriterBroken(s: Sess): Sess { s.(requestFailed := true) }

  function OnConnected(s: Sess, now: Reading): Turn {
    if s.endSeen then FailAlone(s, "attachment-order", true) else Connection(s, now)
  }

  function Connection(s: Sess, now: Reading): Turn {
    var t := LifeAlone(s, Connected(now));
    if Admits(s.life, Connected(now)) then Turn(NowConnected(t.s), t.out)
    else FailAlone(t.s, "attachment-connect", true)
  }

  function EndSeen(s: Sess): Sess { s.(endSeen := true) }

  function StopUnlessEnding(s: Sess): Sess {
    if Ending(s.life.state) then s else WithLife(s, SetRecordingFailed(s.life))
  }

  function FinishEnd(t: Turn): Turn {
    if ReportEndReply(t.s).Raised? then FailTurn(EndTurn(t), "attachment-order", true) else EndTurn(t)
  }

  function EndCause(s: Sess, exitCode: int): Turn {
    if exitCode != 0 then FailAlone(s, "attachment-exit", true) else Turn(StopUnlessEnding(s), [])
  }

  function OnAttachmentEnded(s: Sess, exitCode: int): Turn {
    if s.endSeen then FailAlone(s, "attachment-order", true) else FinishEnd(EndCause(EndSeen(s), exitCode))
  }

  function OnAttachmentFailed(s: Sess): Turn {
    if s.connected || s.endSeen then FailAlone(s, "attachment-order", true)
    else FinishEnd(FailAlone(EndSeen(s), "attachment-start", true))
  }

  /** The last `n` bytes of a stream. */
  function LastBytes(data: bytes, n: nat): bytes {
    if |data| <= n then data else data[|data| - n..]
  }

  function WithStderr(s: Sess, data: bytes, kept: bytes, limit: nat): Sess {
    s.(stderrObserved := s.stderrObserved + |data|,
       stderrTail := if limit == 0 then s.stderrTail else LastBytes(s.stderrTail + LastBytes(data, limit), limit),
       stderrLog := s.stderrLog + kept)
  }

  function OnStderr(s: Sess, data: bytes, w: Written, limit: nat): Turn
    requires w.kept <= |data|
  {
    var t := WithStderr(s, data, data[..w.kept], limit);
    if w.ok then Turn(t, []) else FailAlone(t, "stderr-retention", true)
  }

  function OnArtifactsFinalized(s: Sess, failed: bool): Turn {
    CompleteArtifacts(if failed then FailAlone(s, "artifact-finalization", false) else Turn(s, []))
  }

  function CompleteArtifacts(t: Turn): Turn {
    var done := LifeTurn(t, ArtifactsDone);
    if !Admits(t.s.life, ArtifactsDone) then FailTurn(done, "artifact-order", true)
    else if t.s.requestFailed then Turn(done.s, t.out)
    else done
  }

  function OnRequestFailed(s: Sess): Turn {
    FailAlone(WriterBroken(s), "client-request", false)
  }

  predicate MayRecord(s: Sess) { !s.closed && s.failure.None? && CanRecord(s.life) }

  function OnCancel(s: Sess, id: string): Turn {
    var c := Operation.Cancel(id, CanRecord(s.life));
    var t := WithOp(s, Operation.Step(s.op, c));
    if Operation.Admits(s.op, c) then Turn(t, [Effect.CancelOperation(id)]) else FailAlone(t, "operation-cancel", true)
  }

  function OnClientClosed(s: Sess, exitCode: int): Turn {
    if s.requestFailed || !s.resultRetained then FailAlone(s, "client-close", false)
    else
      var t := LifeAlone(s, BrokerClosed(exitCode));
      if Admits(s.life, BrokerClosed(exitCode)) then Turn(NowClosed(t.s), t.out)
      else FailAlone(t.s, "client-close", false)
  }

  function Begun(s: Sess): Sess { s.(started := true) }

  function OnStart(s: Sess): Turn {
    if s.started || s.closed then FailAlone(s, "client-start", false)
    else Turn(Begun(s), [LaunchClient])
  }

  // ---------- The mutable session ----------

  class ControllerSession {
    const decode: bytes -> Option<PublicEvent>
    const tailLimit: nat
    const lifecycle: ReployLifecycle
    const operation: Operation.OperationLifecycle
    const eventSink: Sink
    const stderrSink: Sink
    var failure: Option<Failure>
    var started: bool
    var attachmentConnected: bool
    var attachmentEndSeen: bool
    var attachmentEndReported: bool
    var requestFailed: bool
    var resultRetained: bool
    var isClosed: bool
    var stderrTail: bytes
    var stderrBytesObserved: nat

    ghost predicate Valid()
      reads this, operation
    {
      operation.Valid() && operation.session == lifecycle && eventSink != stderrSink
    }

    ghost const Repr: set<object> := {this, lifecycle, operation, eventSink, stderrSink}

    ghost function View(): Sess
      requires Valid()
      reads this, lifecycle, operation, eventSink, stderrSink
    {
      Sess(lifecycle.View(), operation.View(), failure, started, attachmentConnected, attachmentEndSeen,
           attachmentEndReported, requestFailed, resultRetained, isClosed,
           eventSink.contents, stderrSink.contents, stderrTail, stderrBytesObserved)
    }

    constructor (decode: bytes -> Option<PublicEvent>, tailLimit: nat, eventSink: Sink, stderrSink: Sink)
      requires eventSink != stderrSink
      ensures Valid() && View() == FreshSession(eventSink.contents, stderrSink.contents)
      ensures this.decode == decode && this.tailLimit == tailLimit
      ensures this.eventSink == eventSink && this.stderrSink == stderrSink
      ensures fresh(lifecycle) && fresh(operation)
    {
      this.decode, this.tailLimit, this.eventSink, this.stderrSink := decode, tailLimit, eventSink, stderrSink;
      var life := new ReployLifecycle();
      lifecycle := life;
      operation := new Operation.OperationLifecycle(life);
      failure, started, attachmentConnected, attachmentEndSeen := None, false, false, false;
      attachmentEndReported, requestFailed, resultRetained, isClosed := false, false, false, false;
      stderrTail, stderrBytesObserved := [], 0;
    }

    method TerminateIfPossible() returns (out: Effects)
      requires Valid()
      modifies lifecycle
      ensures Valid() && View() == SeekTermination(old(View())) && out == TerminateEffects(old(View()))
    {
      if requestFailed || !lifecycle.state.Active? {
        return [];
      }
      if lifecycle.grants.None? || !lifecycle.grants.value.terminate {
        return [];
      }
      var r := lifecycle.RequestTerminationNow();
      out := if r.Emit? then [r.effect] else [];
    }

    method FailWith(code: string, terminate: bool) returns (out: Effects)
      requires Valid()
      modifies this, lifecycle
      ensures Valid() && View() == AfterFailure(old(View()), code, terminate)
      ensures out == FailEffects(old(View()), code, terminate)
    {
      out := [];
      if failure.None? {
        failure := Some(Failure(code, Operation.ActiveId(operation.View()), Operation.GateId(operation.View()),
                                lifecycle.state));
        out := [RetainPartial];
      }
      lifecycle.StopRecordingNow();
      assert View() == WithFailure(old(View()), code);
      if terminate {
        var more := TerminateIfPossible();
        out := out + more;
      }
    }

    method ReportAttachmentEnd() returns (r: Reply)
      requires Valid()
      modifies this, lifecycle
      ensures Valid() && View() == ReportEnd(old(View())) && r == ReportEndReply(old(View()))
    {
      if !attachmentEndSeen || attachmentEndReported || !Ending(lifecycle.state) {
        return Quiet;
      }
      attachmentEndReported := true;
      if attachmentConnected {
        r := lifecycle.AttachmentEnded();
      } else {
        r := lifecycle.AttachmentUnavailable();
      }
    }

    method OnEventLine(line: bytes, now: Reading) returns (out: Effects)
      requires Valid()
      modifies Repr
      ensures Valid() && Turn(View(), out)
           == OnEvent(old(View()), line, decode(line), now, Outcome(old(eventSink.script), |line|))
    {
      var event := decode(line);
      if event.None? {
        out := FailWith("client-schema", true);
        return;
      }
      out := [];
      if Retains(event.value) {
        var ok := eventSink.WriteAll(line);
        assert View() == WithEventLog(old(View()), line[..Outcome(old(eventSink.script), |line|).kept]);
        if !ok {
          out := FailWith("event-retention", true);
          return;
        }
        if event.value.ClientError? {
          out := FailWith(event.value.code, false);
        }
      }
      out := InterpretEvent(event.value, now, out);
    }

    /** A failure on top of what was already reported. */
    method FailAfter(code: string, terminate: bool, before: Effects) returns (out: Effects)
      requires Valid()
      modifies this, lifecycle
      ensures Valid() && Turn(View(), out) == FailTurn(Turn(old(View()), before), code, terminate)
    {
      var more := FailWith(code, terminate);
      out := before + more;
    }

    method InterpretEvent(event: PublicEvent, now: Reading, before: Effects) returns (out: Effects)
      requires Valid()
      modifies this, lifecycle
      ensures Valid() && Turn(View(), out) == Interpret(Turn(old(View()), before), event, now)
    {
      var r := lifecycle.OnEvent(Some(event), now);
      out := before + Emits(r);
      assert Turn(View(), out) == LifeTurn(Turn(old(View()), before), Event(Some(event), now));
      if r.Raised? {
        out := FailAfter("client-lifecycle", false, out);
      } else {
        out := TellAndConclude(event, out);
      }
    }

    /** A pending attachment end is told before the event is judged. */
    method TellAndConclude(event: PublicEvent, before: Effects) returns (out: Effects)
      requires Valid()
      modifies this, lifecycle
      ensures Valid() && Turn(View(), out) == TellThenConclude(Turn(old(View()), before), event)
    {
      var e := ReportAttachmentEnd();
      out := before + Emits(e);
      assert Turn(View(), out) == EndTurn(Turn(old(View()), before));
      if e.Raised? {
        out := FailAfter("client-lifecycle", false, out);
      } else {
        out := ConcludeEvent(event, out);
      }
    }

    method ConcludeEvent(event: PublicEvent, before: Effects) returns (out: Effects)
      requires Valid()
      modifies this, lifecycle
      ensures Valid() && Turn(View(), out) == Conclude(Turn(old(View()), before), event)
    {
      out := before;
      if event.Terminated? {
        resultRetained := true;
        if !Success(event.result) {
          var more := FailWith("session-result", false);
          out := out + more;
        }
        if !requestFailed {
          var r := lifecycle.AcknowledgeTerminated();
          out := out + Emits(r);
        }
        return;
      }
      if event.OutputsFinalized? && event.status.kind.OutputsFailed? {
        var more := FailWith("output-finalization", false);
        out := out + more;
      }
      if failure.Some? {
        var more := TerminateIfPossible();
        out := out + more;
      }
    }

    method AttachmentConnected(now: Reading) returns (out: Effects)
      requires Valid()
      modifies this, lifecycle
      ensures Valid() && Turn(View(), out) == OnConnected(old(View()), now)
    {
      if attachmentEndSeen {
        out := FailWith("attachment-order", true);
      } else {
        out := Connect(now);
      }
    }

    method Connect(now: Reading) returns (out: Effects)
      requires Valid()
      modifies this, lifecycle
      ensures Valid() && Turn(View(), out) == Connection(old(View()), now)
    {
      var r := lifecycle.AttachmentConnected(now);
      out := Emits(r);
      assert Turn(View(), out) == LifeAlone(old(View()), Connected(now));
      if r.Raised? {
        out := FailWith("attachment-connect", true);
      } else {
        attachmentConnected := true;
      }
    }

    method FinishAttachmentEnd(before: Effects) returns (out: Effects)
      requires Valid()
      modifies this, lifecycle
      ensures Valid() && Turn(View(), out) == FinishEnd(Turn(old(View()), before))
    {
      var e := ReportAttachmentEnd();
      out := before + Emits(e);
      if e.Raised? {
        out := FailAfter("attachment-order", true, out);
      }
    }

    method AttachmentEnded(exitCode: int) returns (out: Effects)
      requires Valid()
      modifies this, lifecycle
      ensures Valid() && Turn(View(), out) == OnAttachmentEnded(old(View()), exitCode)
    {
      if attachmentEndSeen {
        out := FailWith("attachment-order", true);
        return;
      }
      attachmentEndSeen := true;
      assert View() == EndSeen(old(View()));
      out := [];
      if exitCode != 0 {
        out := FailWith("attachment-exit", true);
      } else if !Ending(lifecycle.state) {
        lifecycle.StopRecordingNow();
      }
      assert Turn(View(), out) == EndCause(EndSeen(old(View())), exitCode);
      out := FinishAttachmentEnd(out);
    }

    method AttachmentFailed() returns (out: Effects)
      requires Valid()
      modifies this, lifecycle
      ensures Valid() && Turn(View(), out) == OnAttachmentFailed(old(View()))
    {
      if attachmentConnected || attachmentEndSeen {
        out := FailWith("attachment-order", true);
        return;
      }
      attachmentEndSeen := true;
      assert View() == EndSeen(old(View()));
      out := FailWith("attachment-start", true);
      out := FinishAttachmentEnd(out);
    }

    method Stderr(data: bytes) returns (out: Effects)
      requires Valid()
      modifies this, lifecycle, stderrSink
      ensures Valid() && Turn(View(), out)
        == OnStderr(old(View()), data, Outcome(old(stderrSink.script), |data|), tailLimit)
    {
      stderrBytesObserved := stderrBytesObserved + |data|;
      if tailLimit > 0 {
        stderrTail := LastBytes(stderrTail + LastBytes(data, tailLimit), tailLimit);
      }
      var ok := stderrSink.WriteAll(data);
      assert View() == WithStderr(old(View()), data, data[..Outcome(old(stderrSink.script), |data|).kept], tailLimit);
      out := [];
      if !ok {
        out := FailWith("stderr-retention", true);
      }
    }

    method ArtifactsFinalized(failed: bool) returns (out: Effects)
      requires Valid()
      modifies this, lifecycle
      ensures Valid() && Turn(View(), out) == OnArtifactsFinalized(old(View()), failed)
    {
      out := [];
      if failed {
        out := FailWith("artifact-finalization", false);
      }
      out := CompleteNow(out);
    }

    method CompleteNow(before: Effects) returns (out: Effects)
      requires Valid()
      modifies this, lifecycle
      ensures Valid() && Turn(View(), out) == CompleteArtifacts(Turn(old(View()), before))
    {
      out := before;
      var r := lifecycle.ArtifactsFinalized();
      assert View() == WithLife(old(View()), Step(old(View()).life, ArtifactsDone));
      if r.Raised? {
        var more := FailWith("artifact-order", true);
        out := out + more;
      } else if !requestFailed {
        out := out + Emits(r);
      }
    }

    method RequestFailed() returns (out: Effects)
      requires Valid()
      modifies this, lifecycle
      ensures Valid() && Turn(View(), out) == OnRequestFailed(old(View()))
    {
      requestFailed := true;
      out := FailWith("client-request", false);
    }

    method CancelOperation(id: string) returns (out: Effects)
      requires Valid()
      modifies this, lifecycle, operation
      ensures Valid() && Turn(View(), out) == OnCancel(old(View()), id)
    {
      var ok := operation.CancelOperation(id);
      if !ok {
        out := FailWith("operation-cancel", true);
        return;
      }
      out := [Effect.CancelOperation(id)];
    }

    method ClientClosed(exitCode: int) returns (out: Effects)
      requires Valid()
      modifies this, lifecycle
      ensures Valid() && Turn(View(), out) == OnClientClosed(old(View()), exitCode)
    {
      if requestFailed || !resultRetained {
        out := FailWith("client-close", false);
        return;
      }
      var r := lifecycle.ClientClosed(exitCode);
      if r.Raised? {
        out := FailWith("client-close", false);
        return;
      }
      isClosed := true;
      out := [];
    }

    method Start() returns (out: Effects)
      requires Valid()
      modifies this, lifecycle
      ensures Valid() && Turn(View(), out) == OnStart(old(View()))
    {
      if started || isClosed {
        out := FailWith("client-start", false);
        return;
      }
      started := true;
      out := [LaunchClient];
    }
  }
}
