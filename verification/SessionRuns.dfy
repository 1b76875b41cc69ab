/** What every sequence of reports to the controller session keeps. */
module SessionRuns {
  import opened Common
  import opened Evidence
  import opened Reploy
  import opened Session
  import Operation

  datatype Report =
    | Start
    | Line(line: bytes, event: Option<PublicEvent>, now: Reading, written: Written)
    | AttachmentUp(now: Reading)
    | AttachmentDown(exitCode: int)
    | AttachmentMissing
    | Stderr(data: bytes, written: Written)
    | ArtifactsFinal(failed: bool)
    | WriterFailed
    | CancelRequest(id: string)
    | ClientGone(exitCode: int)
    | LocalFailure(code: string)
    | OperationStep(call: Operation.Call)
    | EnvoyIsReady

  predicate Possible(c: Report) {
    && (c.Line? ==> c.written.kept <= |c.line| && (c.written.ok ==> c.written.kept == |c.line|))
    && (c.Stderr? ==> c.written.kept <= |c.data|)
  }

  function AfterReport(s: Sess, c: Report, limit: nat): Turn
    requires Possible(c)
  {
    match c
    case Start => OnStart(s)
    case Line(line, event, now, w) => OnEvent(s, line, event, now, w)
    case AttachmentUp(now) => OnConnected(s, now)
    case AttachmentDown(exitCode) => OnAttachmentEnded(s, exitCode)
    case AttachmentMissing => OnAttachmentFailed(s)
    case Stderr(data, w) => OnStderr(s, data, w, limit)
    case ArtifactsFinal(failed) => OnArtifactsFinalized(s, failed)
    case WriterFailed => OnRequestFailed(s)
    case CancelRequest(id) => OnCancel(s, id)
    case ClientGone(exitCode) => OnClientClosed(s, exitCode)
    case LocalFailure(code) => FailAlone(s, code, true)
    case OperationStep(call) => Turn(WithOp(s, Operation.Step(s.op, call)), [])
    case EnvoyIsReady => LifeAlone(s, EnvoyReady)
  }

  // ---------- The lifecycle as the session sees it ----------

  /** Which calls move the facts the session tracks beside the lifecycle. */
  predicate Tracks(l: Life, m: Life, c: Call) {
    m.state.Failed? ||
    ( && (!c.Connected? ==> m.attached == l.attached)
      && (!c.AttachmentEnd? ==> m.attachmentEnded == l.attachmentEnded)
      && (!c.Acknowledge? ==> m.acknowledged == l.acknowledged)
      && (!c.Event? ==> m.state == l.state)
      && (c.Connected? ==> m.attached)
      && (c.AttachmentEnd? ==> m.attachmentEnded && Ending(l.state))
      && (c.Acknowledge? ==> m.acknowledged))
  }

  /** No public event moves an attachment fact or an acknowledgement, and recording stays stopped. */
  predicate EventKeeps(l: Life, m: Life) {
    && m.attached == l.attached && m.attachmentEnded == l.attachmentEnded
    && m.acknowledged == l.acknowledged && m.recordingFailed == l.recordingFailed
  }

  lemma EventTracks(l: Life, event: PublicEvent, now: real)
    ensures EventKeeps(l, AfterEvent(l, event, now))
  {
    match event
    case BrokerReady => assert EventKeeps(l, TakeBrokerReady(l, now));
    case Opened(given) => assert EventKeeps(l, TakeOpened(l, given));
    case ReadyEvent => assert EventKeeps(l, TakeReady(l));
    case WorkloadExit(status) => assert EventKeeps(l, TakeExit(l, status));
    case Terminating(cause) => assert EventKeeps(l, TakeTerminating(l, cause));
    case OutputsFinalized(status) => assert EventKeeps(l, TakeOutputs(l, status));
    case Terminated(result) => assert EventKeeps(l, TakeResult(l, result));
    case _ =>
  }

  lemma OnlyAcknowledgeAcknowledges(l: Life, c: Call)
    ensures !c.Acknowledge? ==> Step(l, c).acknowledged == l.acknowledged
  {
    if Admits(l, c) && c.Event? {
      EventTracks(Noted(l, c.now), c.event.value, c.now.seconds);
    }
  }

  lemma StepTracks(l: Life, c: Call)
    ensures Tracks(l, Step(l, c), c)
    ensures !c.Acknowledge? ==> Step(l, c).acknowledged == l.acknowledged
    ensures l.recordingFailed ==> Step(l, c).recordingFailed
  {
    OnlyAcknowledgeAcknowledges(l, c);
    if Admits(l, c) && c.Event? {
      EventTracks(Noted(l, c.now), c.event.value, c.now.seconds);
    }
  }

  /** Holds even while a report is being handled. */
  predicate Core(s: Sess) {
    && Coherent(s.life)
    && (s.life.state.Failed? || (s.connected == s.life.attached && s.endReported == s.life.attachmentEnded))
    && (s.endReported ==> s.endSeen)
    && (s.failure.Some? ==> s.life.recordingFailed)
  }

  /** A retained result was acknowledged, unless the public writer broke. */
  predicate Settled(s: Sess) {
    s.life.state.Result? ==> s.resultRetained && (s.life.acknowledged || s.requestFailed)
  }

  /** Between reports: no attachment end is waiting that the lifecycle could take. */
  predicate Inv(s: Sess) { Core(s) && Settled(s) && !EndDue(s) }

  function Times(out: Effects, e: Effect): nat { multiset(out)[e] }

  /** The first failure is never replaced, and partial artifacts are retained once, with it. */
  predicate FailureKept(s: Sess, t: Turn) {
    && (s.failure.Some? ==> t.s.failure == s.failure)
    && Times(t.out, RetainPartial) == if s.failure.None? && t.s.failure.Some? then 1 else 0
  }

  predicate Goes(s: Sess, t: Turn) { Core(t.s) && FailureKept(s, t) }

  lemma FailCore(s: Sess, code: string, terminate: bool)
    requires Core(s)
    ensures var m := AfterFailure(s, code, terminate);
      && Core(m) && EndDue(m) == EndDue(s) && m.failure.Some? && (s.failure.Some? ==> m.failure == s.failure)
      && (Settled(s) ==> Settled(m)) && m.life.state == s.life.state
      && m.eventLog == s.eventLog && m.stderrTail == s.stderrTail && m.stderrObserved == s.stderrObserved
      && m.requestFailed == s.requestFailed && m.life.acknowledged == s.life.acknowledged
      && m.connected == s.connected && m.endSeen == s.endSeen && m.endReported == s.endReported
      && m.life.finalizationRequested == s.life.finalizationRequested
  {
    FlagSound(s.life, StopRecording);
    var l := SetRecordingFailed(s.life);
    if CanTerminate(WithFailure(s, code)) {
      RequestSound(l, RequestTermination);
      StepTracks(l, RequestTermination);
    }
  }

  lemma FailTurnGoes(s: Sess, t: Turn, code: string, terminate: bool)
    requires Goes(s, t)
    ensures Goes(s, FailTurn(t, code, terminate))
  {
    FailCore(t.s, code, terminate);
  }

  lemma FailAloneGoes(s: Sess, code: string, terminate: bool)
    requires Core(s)
    ensures Goes(s, FailAlone(s, code, terminate))
  {
    FailCore(s, code, terminate);
  }

  lemma LifeTurnGoes(s: Sess, t: Turn, c: Call)
    requires Goes(s, t) && !c.Connected? && !c.AttachmentEnd?
    ensures Goes(s, LifeTurn(t, c))
  {
    StepSound(t.s.life, c);
    StepTracks(t.s.life, c);
  }

  /** The lifecycle never refuses a deferred attachment end, and is told at once when it can take it. */
  lemma EndIsNeverRefused(s: Sess)
    requires Core(s)
    ensures !ReportEndReply(s).Raised?
    ensures Core(ReportEnd(s)) && !EndDue(ReportEnd(s))
    ensures ReportEnd(s).failure == s.failure && ReportEnd(s).life.state == s.life.state
    ensures ReportEnd(s).life.finalizationRequested
         == (s.life.finalizationRequested || (EndDue(s) && s.life.state.Finalized?))
  {
    if EndDue(s) {
      StepSound(s.life, AttachmentEnd(s.connected));
      StepTracks(s.life, AttachmentEnd(s.connected));
    }
  }

  lemma EndTurnGoes(s: Sess, t: Turn)
    requires Goes(s, t)
    ensures Goes(s, EndTurn(t)) && !EndDue(EndTurn(t).s)
  {
    EndIsNeverRefused(t.s);
    if EndDue(t.s) {
      StepSound(t.s.life, AttachmentEnd(t.s.connected));
    }
  }

  // ---------- One report ----------

  predicate Reported(s: Sess, t: Turn) { Goes(s, t) && Settled(t.s) && !EndDue(t.s) }

  lemma SettledUntilResult(l: Life, c: Call)
    requires Coherent(l)
    ensures Step(l, c).state.Result? && !l.state.Result? ==>
      c.Event? && c.event.Some? && c.event.value.Terminated? && Admits(l, c)
  {
    if Admits(l, c) && c.Event? {
      var m := Noted(l, c.now);
      match c.event.value
      case BrokerReady => assert !TakeBrokerReady(m, c.now.seconds).state.Result?;
      case Opened(given) => assert !TakeOpened(m, given).state.Result?;
      case ReadyEvent => assert !TakeReady(m).state.Result?;
      case WorkloadExit(status) => assert TakeExit(m, status).state == l.state;
      case Terminating(cause) => assert !TakeTerminating(m, cause).state.Result?;
      case OutputsFinalized(status) => assert !TakeOutputs(m, status).state.Result?;
      case _ =>
    } else {
      StepTracks(l, c);
    }
  }

  lemma JudgeReported(s: Sess, t: Turn, result: SessionResult)
    requires Goes(s, t) && !EndDue(t.s) && t.s.life.state.Result? && !t.s.life.acknowledged
    ensures Reported(s, Conclude(t, PublicEvent.Terminated(result)))
  {
    var kept := Turn(Retained(t.s), t.out);
    assert Goes(s, kept);
    FailTurnGoes(s, kept, "session-result", false);
    FailCore(kept.s, "session-result", false);
    AcknowledgeReported(s, if Success(result) then kept else FailTurn(kept, "session-result", false));
  }

  /** An acknowledgement is due here, and the lifecycle never refuses it. */
  lemma AcknowledgeReported(s: Sess, t: Turn)
    requires Goes(s, t) && !EndDue(t.s) && t.s.resultRetained && t.s.life.state.Result? && !t.s.life.acknowledged
    ensures Admits(t.s.life, Acknowledge)
    ensures Reported(s, if t.s.requestFailed then t else LifeTurn(t, Acknowledge))
  {
    LifeTurnGoes(s, t, Acknowledge);
    StepTracks(t.s.life, Acknowledge);
  }

  lemma SeekReported(s: Sess, t: Turn)
    requires Reported(s, t)
    ensures Reported(s, Turn(SeekTermination(t.s), t.out + TerminateEffects(t.s)))
  {
    if CanTerminate(t.s) {
      RequestSound(t.s.life, RequestTermination);
      StepTracks(t.s.life, RequestTermination);
    }
  }

  lemma ConcludeReported(s: Sess, t: Turn, event: PublicEvent)
    requires Goes(s, t) && !EndDue(t.s)
    requires event.Terminated? ==> t.s.life.state.Result? && !t.s.life.acknowledged
    requires !event.Terminated? ==> Settled(t.s)
    ensures Reported(s, Conclude(t, event))
  {
    if event.Terminated? {
      JudgeReported(s, t, event.result);
    } else {
      var u := t;
      if event.OutputsFinalized? && event.status.kind.OutputsFailed? {
        u := FailTurn(t, "output-finalization", false);
        FailTurnGoes(s, t, "output-finalization", false);
        FailCore(t.s, "output-finalization", false);
      }
      SeekReported(s, u);
    }
  }

  lemma InterpretReported(s: Sess, t: Turn, event: PublicEvent, now: Reading)
    requires Goes(s, t) && Settled(t.s)
    ensures Reported(s, Interpret(t, event, now))
  {
    var c := Event(Some(event), now);
    var seen := LifeTurn(t, c);
    LifeTurnGoes(s, t, c);
    StepTracks(t.s.life, c);
    SettledUntilResult(t.s.life, c);
    StepSound(t.s.life, c);
    if !Admits(t.s.life, c) {
      FailTurnGoes(s, seen, "client-lifecycle", false);
      FailCore(seen.s, "client-lifecycle", false);
    } else {
      EndTurnGoes(s, seen);
      EndIsNeverRefused(seen.s);
      TakesResult(t.s.life, c);
      ConcludeReported(s, EndTurn(seen), event);
    }
  }

  lemma TakesResult(l: Life, c: Call)
    requires Coherent(l) && Admits(l, c) && c.Event?
    ensures c.event.value.Terminated? ==> Step(l, c).state.Result? && !Step(l, c).acknowledged
  {
    StepTracks(l, c);
  }

  lemma RetainedReported(s: Sess, event: PublicEvent, now: Reading, ok: bool)
    requires Inv(s)
    ensures Reported(s, OnRetained(s, event, now, ok))
  {
    FailReported(s, s, "event-retention", true);
    if event.ClientError? {
      FailReported(s, s, event.code, false);
      InterpretReported(s, FailAlone(s, event.code, false), event, now);
    } else {
      InterpretReported(s, Turn(s, []), event, now);
    }
  }

  lemma ReportedFrom(s: Sess, kept: Sess, t: Turn)
    requires Reported(kept, t) && kept.failure == s.failure
    ensures Reported(s, t)
  {
  }

  lemma EvidenceAside(s: Sess, kept: bytes)
    requires Inv(s)
    ensures Inv(WithEventLog(s, kept)) && WithEventLog(s, kept).failure == s.failure
  {
  }

  lemma LineReported(s: Sess, c: Report)
    requires Inv(s) && Possible(c) && c.Line?
    ensures Reported(s, OnEvent(s, c.line, c.event, c.now, c.written))
  {
    if c.event.None? {
      FailReported(s, s, "client-schema", true);
    } else if !Retains(c.event.value) {
      InterpretReported(s, Turn(s, []), c.event.value, c.now);
    } else {
      var kept := WithEventLog(s, c.line[..c.written.kept]);
      EvidenceAside(s, c.line[..c.written.kept]);
      RetainedReported(kept, c.event.value, c.now, c.written.ok);
      ReportedFrom(s, kept, OnRetained(kept, c.event.value, c.now, c.written.ok));
    }
  }

  lemma FinishReported(s: Sess, t: Turn)
    requires Goes(s, t) && Settled(t.s)
    ensures Reported(s, FinishEnd(t))
  {
    EndTurnGoes(s, t);
    EndIsNeverRefused(t.s);
    if EndDue(t.s) {
      StepTracks(t.s.life, AttachmentEnd(t.s.connected));
    }
  }

  /** A failure latched on a settled session, possibly after a small change that kept its failure. */
  lemma FailReported(s: Sess, m: Sess, code: string, terminate: bool)
    requires Inv(m) && m.failure == s.failure
    ensures Reported(s, FailAlone(m, code, terminate))
  {
    FailCore(m, code, terminate);
  }

  lemma StartReported(s: Sess)
    requires Inv(s)
    ensures Reported(s, OnStart(s))
  {
    if s.started || s.closed {
      FailReported(s, s, "client-start", false);
    } else {
      assert Inv(Begun(s));
    }
  }

  lemma WriterReported(s: Sess)
    requires Inv(s)
    ensures Reported(s, OnRequestFailed(s))
  {
    FailReported(s, WriterBroken(s), "client-request", false);
  }

  lemma OperationAside(s: Sess, p: Operation.Proto)
    requires Inv(s)
    ensures Inv(WithOp(s, p)) && Reported(s, Turn(WithOp(s, p), []))
  {
  }

  lemma CancelReported(s: Sess, id: string)
    requires Inv(s)
    ensures Reported(s, OnCancel(s, id))
  {
    var p := Operation.Step(s.op, Operation.Cancel(id, CanRecord(s.life)));
    OperationAside(s, p);
    FailReported(s, WithOp(s, p), "operation-cancel", true);
  }

  lemma StderrReported(s: Sess, data: bytes, w: Written, limit: nat)
    requires Inv(s) && w.kept <= |data|
    ensures Reported(s, OnStderr(s, data, w, limit))
  {
    FailReported(s, WithStderr(s, data, data[..w.kept], limit), "stderr-retention", true);
  }

  lemma LifeAloneReported(s: Sess, c: Call)
    requires Inv(s) && !c.Connected? && !c.AttachmentEnd? && !c.Event? && !c.Acknowledge?
    ensures Reported(s, LifeAlone(s, c))
    ensures !Admits(s.life, c) ==> Inv(LifeAlone(s, c).s) && LifeAlone(s, c).s.failure == s.failure
  {
    StepSound(s.life, c);
    StepTracks(s.life, c);
  }

  lemma ArtifactsDoneReported(s: Sess, t: Turn)
    requires Reported(s, t)
    ensures Reported(s, LifeTurn(t, ArtifactsDone)) && Reported(s, Turn(LifeTurn(t, ArtifactsDone).s, t.out))
  {
    LifeTurnGoes(s, t, ArtifactsDone);
    StepTracks(t.s.life, ArtifactsDone);
  }

  lemma CompleteReported(s: Sess, t: Turn)
    requires Reported(s, t)
    ensures Reported(s, CompleteArtifacts(t))
  {
    ArtifactsDoneReported(s, t);
    FailLater(s, LifeTurn(t, ArtifactsDone), "artifact-order");
  }

  lemma ArtifactsReported(s: Sess, failed: bool)
    requires Inv(s)
    ensures Reported(s, OnArtifactsFinalized(s, failed))
  {
    if failed {
      FailReported(s, s, "artifact-finalization", false);
      CompleteReported(s, FailAlone(s, "artifact-finalization", false));
    } else {
      CompleteReported(s, Turn(s, []));
    }
  }

  lemma FailLater(s: Sess, t: Turn, code: string)
    requires Reported(s, t)
    ensures Reported(s, FailTurn(t, code, true))
  {
    FailTurnGoes(s, t, code, true);
    FailCore(t.s, code, true);
  }

  lemma ClosedReported(s: Sess, exitCode: int)
    requires Inv(s)
    ensures Reported(s, OnClientClosed(s, exitCode))
  {
    LifeAloneReported(s, BrokerClosed(exitCode));
    if s.requestFailed || !s.resultRetained {
      FailReported(s, s, "client-close", false);
    } else if !Admits(s.life, BrokerClosed(exitCode)) {
      FailReported(s, LifeAlone(s, BrokerClosed(exitCode)).s, "client-close", false);
    }
  }

  lemma ConnectedReported(s: Sess, now: Reading)
    requires Inv(s)
    ensures Reported(s, OnConnected(s, now))
  {
    if s.endSeen {
      FailReported(s, s, "attachment-order", true);
    } else {
      var m := LifeAlone(s, Connected(now)).s;
      StepSound(s.life, Connected(now));
      StepTracks(s.life, Connected(now));
      if !Admits(s.life, Connected(now)) {
        assert m.life.state.Failed?;
        FailReported(s, m, "attachment-connect", true);
      }
    }
  }

  lemma EndedReported(s: Sess, exitCode: int)
    requires Inv(s)
    ensures Reported(s, OnAttachmentEnded(s, exitCode))
  {
    if s.endSeen {
      FailReported(s, s, "attachment-order", true);
    } else {
      CauseGoes(s, exitCode);
      FinishReported(s, EndCause(EndSeen(s), exitCode));
    }
  }

  lemma CauseGoes(s: Sess, exitCode: int)
    requires Inv(s) && !s.endSeen
    ensures Goes(s, EndCause(EndSeen(s), exitCode)) && Settled(EndCause(EndSeen(s), exitCode).s)
  {
    var m := EndSeen(s);
    if exitCode != 0 {
      FailAloneGoes(m, "attachment-exit", true);
      FailCore(m, "attachment-exit", true);
    } else {
      FlagSound(s.life, StopRecording);
    }
  }

  lemma MissingReported(s: Sess)
    requires Inv(s)
    ensures Reported(s, OnAttachmentFailed(s))
  {
    if s.connected || s.endSeen {
      FailReported(s, s, "attachment-order", true);
    } else {
      var m := EndSeen(s);
      FailAloneGoes(m, "attachment-start", true);
      FailCore(m, "attachment-start", true);
      FinishReported(s, FailAlone(m, "attachment-start", true));
    }
  }

  lemma AttachmentReported(s: Sess, c: Report, limit: nat)
    requires Inv(s) && (c.AttachmentUp? || c.AttachmentDown? || c.AttachmentMissing?)
    ensures Reported(s, AfterReport(s, c, limit))
  {
    match c
    case AttachmentUp(now) => ConnectedReported(s, now);
    case AttachmentDown(exitCode) => EndedReported(s, exitCode);
    case AttachmentMissing => MissingReported(s);
  }

  lemma OperationReported(s: Sess, call: Operation.Call, limit: nat)
    requires Inv(s)
    ensures Reported(s, AfterReport(s, OperationStep(call), limit))
  {
    OperationAside(s, Operation.Step(s.op, call));
  }

  /** What comes from the operation's side, or from the session itself. */
  lemma LocalReported(s: Sess, c: Report, limit: nat)
    requires Inv(s) && (c.CancelRequest? || c.LocalFailure? || c.EnvoyIsReady?)
    ensures Reported(s, AfterReport(s, c, limit))
  {
    match c
    case CancelRequest(id) => CancelReported(s, id);
    case LocalFailure(code) => FailReported(s, s, code, true);
    case EnvoyIsReady => LifeAloneReported(s, EnvoyReady);
  }

  lemma ClientReported(s: Sess, c: Report, limit: nat)
    requires Inv(s) && Possible(c) && (c.Start? || c.Line? || c.WriterFailed? || c.ClientGone?)
    ensures Reported(s, AfterReport(s, c, limit))
  {
    match c
    case Start => StartReported(s);
    case Line(_, _, _, _) => LineReported(s, c);
    case WriterFailed => WriterReported(s);
    case ClientGone(exitCode) => ClosedReported(s, exitCode);
  }

  /**
   * Whatever is reported, the session stays coherent: the first failure is kept, partial artifacts
   * are retained exactly with it, an authoritative result is acknowledged once its line is kept,
   * and a deferred attachment end is handed over as soon as the lifecycle can take it.
   */
  lemma EveryReport(s: Sess, c: Report, limit: nat)
    requires Inv(s) && Possible(c)
    ensures Reported(s, AfterReport(s, c, limit))
  {
    if c.Start? || c.Line? || c.WriterFailed? || c.ClientGone? {
      ClientReported(s, c, limit);
    } else if c.AttachmentUp? || c.AttachmentDown? || c.AttachmentMissing? {
      AttachmentReported(s, c, limit);
    } else if c.Stderr? {
      StderrReported(s, c.data, c.written, limit);
    } else if c.ArtifactsFinal? {
      ArtifactsReported(s, c.failed);
    } else if c.OperationStep? {
      OperationReported(s, c.call, limit);
    } else {
      LocalReported(s, c, limit);
    }
  }

  // ---------- Every run ----------

  function AfterAll(start: Sess, reports: seq<Report>, limit: nat): Turn
    requires forall c :: c in reports ==> Possible(c)
  {
    if reports == [] then Turn(start, [])
    else
      var before := AfterAll(start, reports[..|reports| - 1], limit);
      var t := AfterReport(before.s, reports[|reports| - 1], limit);
      Turn(t.s, before.out + t.out)
  }

  /** Over a whole run partial artifacts are retained exactly once, with the first failure. */
  lemma {:induction false} EveryRun(start: Sess, reports: seq<Report>, limit: nat)
    requires New(start)
    requires forall c :: c in reports ==> Possible(c)
    ensures var t := AfterAll(start, reports, limit);
      Inv(t.s) && Times(t.out, RetainPartial) == (if t.s.failure.Some? then 1 else 0)
  {
    if reports != [] {
      var front := reports[..|reports| - 1];
      EveryRun(start, front, limit);
      EveryReport(AfterAll(start, front, limit).s, reports[|reports| - 1], limit);
    }
  }

  lemma AfterAllSnoc(start: Sess, reports: seq<Report>, c: Report, limit: nat)
    requires forall r :: r in reports + [c] ==> Possible(r)
    ensures forall r :: r in reports ==> Possible(r)
    ensures AfterAll(start, reports + [c], limit).s == AfterReport(AfterAll(start, reports, limit).s, c, limit).s
  {
    assert (reports + [c])[..|reports|] == reports;
    assert c in reports + [c];
  }

  lemma {:induction false} FirstFailureStays(start: Sess, reports: seq<Report>, more: seq<Report>, limit: nat)
    requires New(start)
    requires forall c :: c in reports + more ==> Possible(c)
    requires forall c :: c in reports ==> Possible(c)
    ensures AfterAll(start, reports, limit).s.failure.Some? ==>
      AfterAll(start, reports + more, limit).s.failure == AfterAll(start, reports, limit).s.failure
    decreases |more|
  {
    if more == [] {
      assert reports + more == reports;
    } else {
      var front, last := reports + more[..|more| - 1], more[|more| - 1];
      assert reports + more == front + [last];
      AfterAllSnoc(start, front, last, limit);
      FirstFailureStays(start, reports, more[..|more| - 1], limit);
      EveryRun(start, front, limit);
      if AfterAll(start, reports, limit).s.failure.Some? {
        FailureStays(AfterAll(start, front, limit).s, last, limit);
      }
    }
  }

  lemma FailureStays(s: Sess, c: Report, limit: nat)
    requires Inv(s) && Possible(c) && s.failure.Some?
    ensures AfterReport(s, c, limit).s.failure == s.failure
  {
    EveryReport(s, c, limit);
  }

  // ---------- Evidence before acknowledgement ----------

  /** The facts a failure never touches. */
  predicate Beside(s: Sess, m: Sess) {
    && m.life.acknowledged == s.life.acknowledged && m.life.result == s.life.result
    && m.eventLog == s.eventLog && m.resultRetained == s.resultRetained
    && m.stderrTail == s.stderrTail && m.stderrObserved == s.stderrObserved
  }

  lemma FailBeside(s: Sess, code: string, terminate: bool)
    ensures Beside(s, AfterFailure(s, code, terminate))
    ensures Beside(s, SeekTermination(s))
  {
    assert Beside(s, WithFailure(s, code));
    assert Beside(s, SeekTermination(s));
  }

  predicate Acknowledges(s: Sess, m: Sess) {
    m.life.acknowledged && !s.life.acknowledged
  }

  predicate SameStderr(s: Sess, m: Sess) {
    m.stderrTail == s.stderrTail && m.stderrObserved == s.stderrObserved
  }

  /** A report that neither acknowledges nor carries stderr. */
  predicate Quietly(s: Sess, m: Sess) { !Acknowledges(s, m) && SameStderr(s, m) }

  lemma EndBeside(s: Sess, t: Turn)
    requires Beside(s, t.s)
    ensures Quietly(s, FinishEnd(t).s)
  {
    StepTracks(t.s.life, AttachmentEnd(t.s.connected));
    FailBeside(EndTurn(t).s, "attachment-order", true);
  }

  lemma LifeBeside(s: Sess, c: Call, code: string)
    requires !c.Acknowledge?
    ensures Quietly(s, LifeAlone(s, c).s) && Quietly(s, FailAlone(LifeAlone(s, c).s, code, true).s)
    ensures Quietly(s, FailAlone(LifeAlone(s, c).s, code, false).s)
  {
    StepTracks(s.life, c);
    FailBeside(LifeAlone(s, c).s, code, true);
    FailBeside(LifeAlone(s, c).s, code, false);
  }

  lemma UpQuiet(s: Sess, now: Reading)
    ensures Quietly(s, OnConnected(s, now).s)
  {
    LifeBeside(s, Connected(now), "attachment-connect");
    FailBeside(s, "attachment-order", true);
  }

  lemma DownQuiet(s: Sess, exitCode: int)
    ensures Quietly(s, OnAttachmentEnded(s, exitCode).s)
  {
    FailBeside(s, "attachment-order", true);
    FailBeside(EndSeen(s), "attachment-exit", true);
    EndBeside(s, EndCause(EndSeen(s), exitCode));
  }

  lemma MissingQuiet(s: Sess)
    ensures Quietly(s, OnAttachmentFailed(s).s)
  {
    FailBeside(s, "attachment-order", true);
    FailBeside(EndSeen(s), "attachment-start", true);
    EndBeside(s, FailAlone(EndSeen(s), "attachment-start", true));
  }

  lemma ArtifactsQuiet(s: Sess, failed: bool)
    ensures Quietly(s, OnArtifactsFinalized(s, failed).s)
  {
    var t := if failed then FailAlone(s, "artifact-finalization", false) else Turn(s, []);
    FailBeside(s, "artifact-finalization", false);
    LifeBeside(t.s, ArtifactsDone, "artifact-order");
  }

  lemma ClosedQuiet(s: Sess, exitCode: int)
    ensures Quietly(s, OnClientClosed(s, exitCode).s)
  {
    FailBeside(s, "client-close", false);
    LifeBeside(s, BrokerClosed(exitCode), "client-close");
  }

  lemma CancelQuiet(s: Sess, id: string)
    ensures Quietly(s, OnCancel(s, id).s)
  {
    FailBeside(WithOp(s, Operation.Step(s.op, Operation.Cancel(id, CanRecord(s.life)))), "operation-cancel", true);
  }

  /** Only an event line can acknowledge, and only stderr moves the stderr view. */
  lemma OnlyLinesAcknowledge(s: Sess, c: Report, limit: nat)
    requires Possible(c) && !c.Line?
    ensures !Acknowledges(s, AfterReport(s, c, limit).s)
    ensures !c.Stderr? ==> SameStderr(s, AfterReport(s, c, limit).s)
  {
    match c
    case Start => FailBeside(s, "client-start", false);
    case AttachmentUp(now) => UpQuiet(s, now);
    case AttachmentDown(exitCode) => DownQuiet(s, exitCode);
    case AttachmentMissing => MissingQuiet(s);
    case Stderr(data, w) => FailBeside(WithStderr(s, data, data[..w.kept], limit), "stderr-retention", true);
    case ArtifactsFinal(failed) => ArtifactsQuiet(s, failed);
    case WriterFailed => FailBeside(WriterBroken(s), "client-request", false);
    case CancelRequest(id) => CancelQuiet(s, id);
    case ClientGone(exitCode) => ClosedQuiet(s, exitCode);
    case LocalFailure(code) => FailBeside(s, code, true);
    case OperationStep(call) =>
    case EnvoyIsReady => LifeBeside(s, EnvoyReady, "");
  }

  /** Every acknowledgement follows a terminated line that is already whole in the event sink. */
  lemma AcknowledgedResultIsRetained(s: Sess, c: Report, limit: nat)
    requires Possible(c) && Acknowledges(s, AfterReport(s, c, limit).s)
    ensures var m := AfterReport(s, c, limit).s;
      && c.Line? && c.event.Some? && c.event.value.Terminated? && c.written.ok
      && m.eventLog == s.eventLog + c.line
      && m.life.result == Some(c.event.value.result) && m.resultRetained
  {
    if !c.Line? {
      OnlyLinesAcknowledge(s, c, limit);
    } else if c.event.None? {
      FailBeside(s, "client-schema", true);
    } else {
      var kept := if Retains(c.event.value) then WithEventLog(s, c.line[..c.written.kept]) else s;
      FailBeside(kept, "event-retention", true);
      if c.event.value.ClientError? {
        FailBeside(kept, c.event.value.code, false);
        InterpretBeside(FailAlone(kept, c.event.value.code, false), c.event.value, c.now);
      } else {
        InterpretBeside(Turn(kept, []), c.event.value, c.now);
      }
      assert c.line[..|c.line|] == c.line;
    }
  }

  lemma InterpretBeside(t: Turn, event: PublicEvent, now: Reading)
    ensures var m := Interpret(t, event, now).s;
      Acknowledges(t.s, m) ==>
        event.Terminated? && m.eventLog == t.s.eventLog && m.life.result == Some(event.result) && m.resultRetained
  {
    var c := Event(Some(event), now);
    var seen := LifeTurn(t, c);
    if !Admits(t.s.life, c) {
      StepTracks(t.s.life, c);
      FailBeside(seen.s, "client-lifecycle", false);
    } else if event.Terminated? {
      assert seen.s.life == TakeResult(Noted(t.s.life, now), event.result);
      EndKeepsResult(seen);
      ConcludeTerminated(seen, event);
    } else {
      StepTracks(t.s.life, c);
      OrdinaryBeside(seen, event);
    }
  }

  /** What follows the lifecycle's own step never acknowledges, except for a terminated event. */
  lemma OrdinaryBeside(seen: Turn, event: PublicEvent)
    requires !event.Terminated?
    ensures var m := if ReportEndReply(seen.s).Raised? then FailTurn(EndTurn(seen), "client-lifecycle", false).s
                     else Conclude(EndTurn(seen), event).s;
      m.life.acknowledged ==> seen.s.life.acknowledged
  {
    var ended := EndTurn(seen);
    StepTracks(seen.s.life, AttachmentEnd(seen.s.connected));
    FailBeside(ended.s, "client-lifecycle", false);
    ConcludeBeside(ended, event);
  }

  lemma ConcludeBeside(t: Turn, event: PublicEvent)
    requires !event.Terminated?
    ensures Beside(t.s, Conclude(t, event).s)
  {
    var u := FailTurn(t, "output-finalization", false);
    FailBeside(t.s, "output-finalization", false);
    FailBeside(u.s, "", false);
    FailBeside(t.s, "", false);
  }

  lemma ConcludeTerminated(t: Turn, event: PublicEvent)
    requires event.Terminated?
    ensures var m := Conclude(t, event).s;
      m.eventLog == t.s.eventLog && m.resultRetained && m.life.result == t.s.life.result
  {
    var u := Retained(t.s);
    FailBeside(u, "session-result", false);
    var judged := if Success(event.result) then u else AfterFailure(u, "session-result", false);
    AcknowledgeKeepsResult(judged.life);
  }

  lemma AcknowledgeKeepsResult(l: Life)
    ensures Step(l, Acknowledge).result == l.result
  {
    if Admits(l, Acknowledge) {
      assert SetAcknowledged(l).result == l.result;
    }
  }

  // ---------- The evidence log ----------

  /** Neither evidence nor closing was touched. */
  predicate SameFile(s: Sess, m: Sess) { m.eventLog == s.eventLog && m.closed == s.closed }

  lemma FailKeepsFile(s: Sess, code: string, terminate: bool)
    ensures SameFile(s, AfterFailure(s, code, terminate)) && SameFile(s, SeekTermination(s))
  {
    assert SameFile(s, WithFailure(s, code));
  }

  /** The pieces of a report leave the event log to its line, and closing to the client's end. */
  lemma PiecesKeepLog(t: Turn, c: Call, event: PublicEvent)
    ensures SameFile(t.s, LifeTurn(t, c).s) && SameFile(t.s, EndTurn(t).s)
    ensures SameFile(t.s, FinishEnd(t).s) && SameFile(t.s, Conclude(t, event).s)
  {
    FailKeepsFile(EndTurn(t).s, "attachment-order", true);
    ConcludeKeepsFile(t, event);
  }

  lemma ConcludeKeepsFile(t: Turn, event: PublicEvent)
    ensures SameFile(t.s, Conclude(t, event).s)
  {
    if event.Terminated? {
      FailKeepsFile(Retained(t.s), "session-result", false);
    } else {
      FailKeepsFile(t.s, "output-finalization", false);
      FailKeepsFile(AfterFailure(t.s, "output-finalization", false), "", false);
    }
  }

  lemma InterpretKeepsLog(t: Turn, event: PublicEvent, now: Reading)
    ensures SameFile(t.s, Interpret(t, event, now).s)
  {
    var c := Event(Some(event), now);
    var seen := LifeTurn(t, c);
    PiecesKeepLog(t, c, event);
    PiecesKeepLog(seen, c, event);
    PiecesKeepLog(EndTurn(seen), c, event);
    FailKeepsFile(seen.s, "client-lifecycle", false);
    FailKeepsFile(EndTurn(seen).s, "client-lifecycle", false);
  }

  /** Evidence is only added to, and a closed session stays closed. */
  predicate Lasts(s: Sess, m: Sess) { s.eventLog <= m.eventLog && (s.closed ==> m.closed) }

  lemma LastsThrough(s: Sess, kept: Sess, m: Sess)
    requires Lasts(s, kept) && SameFile(kept, m)
    ensures Lasts(s, m)
  {
  }

  lemma RetainedKeepsLog(kept: Sess, event: PublicEvent, now: Reading, ok: bool)
    ensures SameFile(kept, OnRetained(kept, event, now, ok).s)
  {
    if !ok {
      FailKeepsFile(kept, "event-retention", true);
    } else if event.ClientError? {
      FailKeepsFile(kept, event.code, false);
      InterpretKeepsLog(FailAlone(kept, event.code, false), event, now);
    } else {
      InterpretKeepsLog(Turn(kept, []), event, now);
    }
  }

  lemma LineGrowsLog(s: Sess, c: Report)
    requires Possible(c) && c.Line?
    ensures Lasts(s, OnEvent(s, c.line, c.event, c.now, c.written).s)
  {
    if c.event.None? {
      FailKeepsFile(s, "client-schema", true);
    } else if !Retains(c.event.value) {
      InterpretKeepsLog(Turn(s, []), c.event.value, c.now);
    } else {
      var kept := WithEventLog(s, c.line[..c.written.kept]);
      RetainedKeepsLog(kept, c.event.value, c.now, c.written.ok);
      LastsThrough(s, kept, OnRetained(kept, c.event.value, c.now, c.written.ok).s);
    }
  }

  lemma CallKeepsLog(s: Sess, c: Call, code: string, terminate: bool)
    ensures SameFile(s, LifeAlone(s, c).s)
    ensures SameFile(s, AfterFailure(s, code, terminate))
    ensures SameFile(s, AfterFailure(LifeAlone(s, c).s, code, terminate))
  {
    FailKeepsFile(s, code, terminate);
    FailKeepsFile(LifeAlone(s, c).s, code, terminate);
  }

  lemma FinishKeepsLog(t: Turn)
    ensures SameFile(t.s, FinishEnd(t).s)
  {
    PiecesKeepLog(t, StopRecording, PublicEvent.Diagnostic);
  }

  lemma CauseKeepsLog(s: Sess, exitCode: int)
    ensures SameFile(s, EndCause(s, exitCode).s)
  {
    FailKeepsFile(s, "attachment-exit", true);
  }

  lemma DownKeepsLog(s: Sess, exitCode: int)
    ensures SameFile(s, OnAttachmentEnded(s, exitCode).s)
  {
    FailKeepsFile(s, "attachment-order", true);
    CauseKeepsLog(EndSeen(s), exitCode);
    FinishKeepsLog(EndCause(EndSeen(s), exitCode));
  }

  lemma MissingKeepsLog(s: Sess)
    ensures SameFile(s, OnAttachmentFailed(s).s)
  {
    FailKeepsFile(s, "attachment-order", true);
    FailKeepsFile(EndSeen(s), "attachment-start", true);
    FinishKeepsLog(FailAlone(EndSeen(s), "attachment-start", true));
  }

  lemma ArtifactsKeepLog(s: Sess, failed: bool)
    ensures SameFile(s, OnArtifactsFinalized(s, failed).s)
  {
    var t := if failed then FailAlone(s, "artifact-finalization", false) else Turn(s, []);
    FailKeepsFile(s, "artifact-finalization", false);
    CallKeepsLog(t.s, ArtifactsDone, "artifact-order", true);
  }

  lemma CancelKeepsLog(s: Sess, id: string)
    ensures Lasts(s, OnCancel(s, id).s)
  {
    FailKeepsFile(WithOp(s, Operation.Step(s.op, Operation.Cancel(id, CanRecord(s.life)))), "operation-cancel", true);
  }

  /** Evidence is only ever added to, and a closed session never opens again. */
  lemma EvidenceOnlyGrows(s: Sess, c: Report, limit: nat)
    requires Possible(c)
    ensures Lasts(s, AfterReport(s, c, limit).s)
  {
    match c
    case Start => FailKeepsFile(s, "client-start", false);
    case Line(_, _, _, _) => LineGrowsLog(s, c);
    case AttachmentUp(now) =>
      CallKeepsLog(s, Connected(now), "attachment-connect", true);
      FailKeepsFile(s, "attachment-order", true);
    case AttachmentDown(exitCode) => DownKeepsLog(s, exitCode);
    case AttachmentMissing => MissingKeepsLog(s);
    case Stderr(data, w) => FailKeepsFile(WithStderr(s, data, data[..w.kept], limit), "stderr-retention", true);
    case ArtifactsFinal(failed) => ArtifactsKeepLog(s, failed);
    case WriterFailed => FailKeepsFile(WriterBroken(s), "client-request", false);
    case CancelRequest(id) => CancelKeepsLog(s, id);
    case ClientGone(exitCode) => CallKeepsLog(s, BrokerClosed(exitCode), "client-close", false);
    case LocalFailure(code) => FailKeepsFile(s, code, true);
    case OperationStep(call) =>
    case EnvoyIsReady =>
  }

  predicate Sought(s: Sess) {
    s.failure.Some? && s.life.state.Active? && MayTerminate(s.life.grants) && !s.requestFailed ==>
      s.life.terminationRequested
  }

  lemma FailSeeks(s: Sess, code: string)
    ensures Sought(AfterFailure(s, code, true)) && Sought(SeekTermination(s))
    ensures !s.life.state.Active? ==> Sought(AfterFailure(s, code, false))
  {
  }

  lemma InterpretSeeks(t: Turn, event: PublicEvent, now: Reading)
    ensures Sought(Interpret(t, event, now).s)
  {
    var c := Event(Some(event), now);
    var seen := LifeTurn(t, c);
    if Admits(t.s.life, c) {
      var ended := EndTurn(seen);
      FailSeeks(ended.s, "client-lifecycle");
      if event.Terminated? {
        assert seen.s.life == TakeResult(Noted(t.s.life, now), event.result);
        EndKeepsResult(seen);
        if !ReportEndReply(seen.s).Raised? {
          ConcludeLeavesActive(ended, event);
        }
      } else {
        ConcludeSeeks(ended, event);
      }
      if ReportEndReply(seen.s).Raised? {
        EndRefusedFails(seen);
      }
    } else {
      assert seen.s.life.state.Failed?;
      FailSeeks(seen.s, "client-lifecycle");
    }
  }

  lemma EndKeepsResult(t: Turn)
    requires t.s.life.state.Result?
    ensures EndTurn(t) == t && ReportEndReply(t.s).Quiet?
  {
    assert t.out + [] == t.out;
  }

  lemma EndRefusedFails(t: Turn)
    requires ReportEndReply(t.s).Raised?
    ensures EndTurn(t).s.life.state.Failed?
  {
    assert !Admits(t.s.life, AttachmentEnd(t.s.connected));
    assert Broken(t.s.life, AttachmentEnd(t.s.connected)) == Reploy.Fail(t.s.life);
  }

  lemma ConcludeSeeks(t: Turn, event: PublicEvent)
    requires !event.Terminated?
    ensures Sought(Conclude(t, event).s)
  {
    FailSeeks(t.s, "output-finalization");
    FailSeeks(AfterFailure(t.s, "output-finalization", false), "");
  }

  lemma FailKeepsState(s: Sess, code: string, terminate: bool)
    ensures AfterFailure(s, code, terminate).life.state == s.life.state
  {
    assert WithFailure(s, code).life.state == s.life.state;
  }

  lemma ConcludeLeavesActive(t: Turn, event: PublicEvent)
    requires event.Terminated? && t.s.life.state.Result?
    ensures !Conclude(t, event).s.life.state.Active?
  {
    var kept := Turn(Retained(t.s), t.out);
    if Success(event.result) {
      AcknowledgeLeavesResult(kept.s.life);
    } else {
      FailKeepsState(kept.s, "session-result", false);
      AcknowledgeLeavesResult(FailTurn(kept, "session-result", false).s.life);
    }
  }

  lemma AcknowledgeLeavesResult(l: Life)
    requires l.state.Result?
    ensures !Step(l, Acknowledge).state.Active?
  {
    if Admits(l, Acknowledge) {
      assert SetAcknowledged(l).state.Result?;
    }
  }

  lemma RetainedSeeks(s: Sess, event: PublicEvent, now: Reading, ok: bool)
    ensures Sought(OnRetained(s, event, now, ok).s)
  {
    FailSeeks(s, "event-retention");
    if event.ClientError? {
      InterpretSeeks(FailAlone(s, event.code, false), event, now);
    } else {
      InterpretSeeks(Turn(s, []), event, now);
    }
  }

  /** After any event, a failed session that is active and may terminate has asked for termination. */
  lemma FailureSeeksTermination(s: Sess, c: Report, limit: nat)
    requires Possible(c) && c.Line?
    ensures var m := AfterReport(s, c, limit).s;
      m.failure.Some? && m.life.state.Active? && MayTerminate(m.life.grants) && !m.requestFailed ==>
        m.life.terminationRequested
  {
    FailSeeks(s, "client-schema");
    if c.event.Some? && Retains(c.event.value) {
      RetainedSeeks(WithEventLog(s, c.line[..c.written.kept]), c.event.value, c.now, c.written.ok);
    } else if c.event.Some? {
      InterpretSeeks(Turn(s, []), c.event.value, c.now);
    }
  }

  // ---------- The bounded stderr view ----------

  function StderrOf(c: Report): bytes { if c.Stderr? then c.data else [] }

  function StderrStream(reports: seq<Report>): bytes {
    if reports == [] then [] else StderrStream(reports[..|reports| - 1]) + StderrOf(reports[|reports| - 1])
  }

  /** The bounded view of a stream: its length, and its last `limit` bytes. */
  predicate Views(s: Sess, stream: bytes, limit: nat) {
    s.stderrTail == LastBytes(stream, limit) && s.stderrObserved == |stream|
  }

  lemma TailOfTail(stream: bytes, data: bytes, limit: nat)
    requires limit > 0
    ensures LastBytes(LastBytes(stream, limit) + LastBytes(data, limit), limit) == LastBytes(stream + data, limit)
  {
    var left, right := LastBytes(LastBytes(stream, limit) + LastBytes(data, limit), limit),
      LastBytes(stream + data, limit);
    assert |left| == |right| == if |stream| + |data| <= limit then |stream| + |data| else limit;
    forall i | 0 <= i < |left| ensures left[i] == right[i] {
      LastByte(stream + data, limit, i);
      LastByte(LastBytes(stream, limit) + LastBytes(data, limit), limit, i);
    }
  }

  lemma LastByte(data: bytes, n: nat, i: nat)
    requires i < |LastBytes(data, n)|
    ensures LastBytes(data, n)[i] == data[|data| - |LastBytes(data, n)| + i]
  {
  }

  lemma ConcludeKeepsStderr(t: Turn, event: PublicEvent)
    ensures SameStderr(t.s, Conclude(t, event).s)
  {
    if event.Terminated? {
      FailBeside(Retained(t.s), "session-result", false);
    } else {
      ConcludeBeside(t, event);
    }
  }

  lemma LineKeepsStderr(s: Sess, c: Report)
    requires Possible(c) && c.Line?
    ensures SameStderr(s, OnEvent(s, c.line, c.event, c.now, c.written).s)
  {
    FailBeside(s, "client-schema", true);
    if c.event.Some? {
      var kept := if Retains(c.event.value) then WithEventLog(s, c.line[..c.written.kept]) else s;
      FailBeside(kept, "event-retention", true);
      var t := Turn(kept, []);
      if c.event.value.ClientError? {
        FailBeside(kept, c.event.value.code, false);
        t := FailAlone(kept, c.event.value.code, false);
      }
      InterpretKeepsStderr(t, c.event.value, c.now);
    }
  }

  lemma InterpretKeepsStderr(t: Turn, event: PublicEvent, now: Reading)
    ensures SameStderr(t.s, Interpret(t, event, now).s)
  {
    var seen := LifeTurn(t, Event(Some(event), now));
    FailBeside(seen.s, "client-lifecycle", false);
    FailBeside(EndTurn(seen).s, "client-lifecycle", false);
    ConcludeKeepsStderr(EndTurn(seen), event);
  }

  lemma StderrTaken(s: Sess, data: bytes, w: Written, limit: nat, stream: bytes)
    requires w.kept <= |data| && Views(s, stream, limit)
    ensures Views(OnStderr(s, data, w, limit).s, stream + data, limit)
  {
    FailBeside(WithStderr(s, data, data[..w.kept], limit), "stderr-retention", true);
    if limit > 0 {
      TailOfTail(stream, data, limit);
    }
  }

  lemma StderrStep(s: Sess, c: Report, limit: nat, stream: bytes)
    requires Possible(c) && Views(s, stream, limit)
    ensures Views(AfterReport(s, c, limit).s, stream + StderrOf(c), limit)
  {
    if c.Stderr? {
      StderrTaken(s, c.data, c.written, limit, stream);
    } else {
      assert stream + [] == stream;
      if c.Line? {
        LineKeepsStderr(s, c);
      } else {
        OnlyLinesAcknowledge(s, c, limit);
      }
    }
  }

  /** The retained tail is always the last `limit` bytes of everything the client wrote to stderr. */
  lemma {:induction false} TailIsLastBytes(start: Sess, reports: seq<Report>, limit: nat)
    requires New(start)
    requires forall c :: c in reports ==> Possible(c)
    ensures Views(AfterAll(start, reports, limit).s, StderrStream(reports), limit)
  {
    if reports != [] {
      var front := reports[..|reports| - 1];
      TailIsLastBytes(start, front, limit);
      StderrStep(AfterAll(start, front, limit).s, reports[|reports| - 1], limit, StderrStream(front));
    }
  }
}
