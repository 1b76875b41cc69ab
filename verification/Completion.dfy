/** When completion counts as sent although its line was dropped. */
module Completion {
  import opened Common
  import opened Evidence
  import opened Reploy
  import opened Session
  import opened SessionRuns
  import opened PublicLines
  import Operation

  // ---------- Nothing else completes ----------

  /** What was done so far neither completed nor broke the public writer. */
  predicate Still(s: Sess, t: Turn) {
    t.s.life.completeSent == s.life.completeSent && t.s.requestFailed == s.requestFailed && SendComplete !in t.out
  }

  lemma LifeStill(s: Sess, t: Turn, c: Call)
    requires Still(s, t) && !c.ArtifactsDone?
    ensures Still(s, LifeTurn(t, c))
  {
    StepStill(t.s.life, c);
  }

  lemma StepStill(l: Life, c: Call)
    requires !c.ArtifactsDone?
    ensures Step(l, c).completeSent == l.completeSent && SendComplete !in Emits(Answer(l, c))
  {
    if Admits(l, c) && c.Event? {
      EventStill(Noted(l, c.now), c.event.value, c.now.seconds);
    }
  }

  lemma EventStill(l: Life, event: PublicEvent, now: real)
    ensures AfterEvent(l, event, now).completeSent == l.completeSent && SendComplete !in Emits(EventReply(l, event))
  {
    match event
    case BrokerReady => assert TakeBrokerReady(l, now).completeSent == l.completeSent;
    case Opened(given) => assert TakeOpened(l, given).completeSent == l.completeSent;
    case ReadyEvent => assert TakeReady(l).completeSent == l.completeSent;
    case WorkloadExit(status) => assert TakeExit(l, status).completeSent == l.completeSent;
    case Terminating(cause) => assert TakeTerminating(l, cause).completeSent == l.completeSent;
    case OutputsFinalized(status) => assert TakeOutputs(l, status).completeSent == l.completeSent;
    case Terminated(result) => assert TakeResult(l, result).completeSent == l.completeSent;
    case _ =>
  }

  lemma SeekStill(s: Sess, t: Turn)
    requires Still(s, t)
    ensures Still(s, Turn(SeekTermination(t.s), t.out + TerminateEffects(t.s)))
  {
  }

  lemma FailStill(s: Sess, t: Turn, code: string, terminate: bool)
    requires Still(s, t)
    ensures Still(s, FailTurn(t, code, terminate))
  {
    var v := Turn(WithFailure(t.s, code), t.out + When(t.s.failure.None?, RetainPartial));
    FailCases(t, code, terminate);
    assert Still(s, v);
    if terminate {
      SeekStill(s, v);
    }
  }

  lemma FailAloneStill(s: Sess, m: Sess, code: string, terminate: bool)
    requires Still(s, Turn(m, []))
    ensures Still(s, FailAlone(m, code, terminate))
  {
    FailStill(s, Turn(m, []), code, terminate);
    assert [] + FailEffects(m, code, terminate) == FailEffects(m, code, terminate);
  }

  lemma LifeAloneStill(s: Sess, c: Call)
    requires !c.ArtifactsDone?
    ensures Still(s, LifeAlone(s, c))
  {
    StepStill(s.life, c);
  }

  lemma EndStill(s: Sess, t: Turn)
    requires Still(s, t)
    ensures Still(s, EndTurn(t))
  {
    if EndDue(t.s) {
      StepStill(t.s.life, AttachmentEnd(t.s.connected));
    }
  }

  lemma ConcludeStill(s: Sess, t: Turn, event: PublicEvent)
    requires Still(s, t)
    ensures Still(s, Conclude(t, event))
  {
    if event.Terminated? {
      var kept := Turn(Retained(t.s), t.out);
      FailStill(s, kept, "session-result", false);
      LifeStill(s, if Success(event.result) then kept else FailTurn(kept, "session-result", false), Acknowledge);
    } else {
      var u := if event.OutputsFinalized? && event.status.kind.OutputsFailed?
               then FailTurn(t, "output-finalization", false) else t;
      FailStill(s, t, "output-finalization", false);
      SeekStill(s, u);
    }
  }

  lemma InterpretStill(s: Sess, t: Turn, event: PublicEvent, now: Reading)
    requires Still(s, t)
    ensures Still(s, Interpret(t, event, now))
  {
    var c := Event(Some(event), now);
    var seen := LifeTurn(t, c);
    LifeStill(s, t, c);
    if !Admits(t.s.life, c) {
      FailStill(s, seen, "client-lifecycle", false);
    } else {
      EndStill(s, seen);
      FailStill(s, EndTurn(seen), "client-lifecycle", false);
      ConcludeStill(s, EndTurn(seen), event);
    }
  }

  lemma LogStill(s: Sess, data: bytes)
    ensures Still(s, Turn(WithEventLog(s, data), []))
  {
  }

  lemma LineStill(s: Sess, c: Report)
    requires Possible(c) && c.Line?
    ensures Still(s, OnEvent(s, c.line, c.event, c.now, c.written))
  {
    if c.event.None? {
      FailAloneStill(s, s, "client-schema", true);
    } else if !Retains(c.event.value) {
      InterpretStill(s, Turn(s, []), c.event.value, c.now);
    } else {
      LogStill(s, c.line[..c.written.kept]);
      RetainedStill(s, WithEventLog(s, c.line[..c.written.kept]), c.event.value, c.now, c.written.ok);
    }
  }

  lemma RetainedStill(s: Sess, kept: Sess, event: PublicEvent, now: Reading, ok: bool)
    requires Still(s, Turn(kept, []))
    ensures Still(s, OnRetained(kept, event, now, ok))
  {
    if !ok {
      FailAloneStill(s, kept, "event-retention", true);
    } else if event.ClientError? {
      FailAloneStill(s, kept, event.code, false);
      InterpretStill(s, FailAlone(kept, event.code, false), event, now);
    } else {
      InterpretStill(s, Turn(kept, []), event, now);
    }
  }

  lemma FinishStill(s: Sess, t: Turn)
    requires Still(s, t)
    ensures Still(s, FinishEnd(t))
  {
    EndStill(s, t);
    FailStill(s, EndTurn(t), "attachment-order", true);
  }

  lemma UpStill(s: Sess, now: Reading)
    ensures Still(s, OnConnected(s, now))
  {
    if s.endSeen {
      FailAloneStill(s, s, "attachment-order", true);
    } else {
      LifeAloneStill(s, Connected(now));
      FailAloneStill(s, LifeAlone(s, Connected(now)).s, "attachment-connect", true);
    }
  }

  lemma DownStill(s: Sess, exitCode: int)
    ensures Still(s, OnAttachmentEnded(s, exitCode))
  {
    if s.endSeen {
      FailAloneStill(s, s, "attachment-order", true);
    } else {
      FailAloneStill(s, EndSeen(s), "attachment-exit", true);
      FinishStill(s, EndCause(EndSeen(s), exitCode));
    }
  }

  lemma MissingStill(s: Sess)
    ensures Still(s, OnAttachmentFailed(s))
  {
    if s.connected || s.endSeen {
      FailAloneStill(s, s, "attachment-order", true);
    } else {
      FailAloneStill(s, EndSeen(s), "attachment-start", true);
      FinishStill(s, FailAlone(EndSeen(s), "attachment-start", true));
    }
  }

  lemma GoneStill(s: Sess, exitCode: int)
    ensures Still(s, OnClientClosed(s, exitCode))
  {
    if s.requestFailed || !s.resultRetained {
      FailAloneStill(s, s, "client-close", false);
    } else {
      LifeAloneStill(s, BrokerClosed(exitCode));
      FailAloneStill(s, LifeAlone(s, BrokerClosed(exitCode)).s, "client-close", false);
    }
  }

  lemma ReportStill(s: Sess, c: Report, limit: nat)
    requires Possible(c) && !c.ArtifactsFinal? && !c.WriterFailed?
    ensures Still(s, AfterReport(s, c, limit))
  {
    match c
    case Start => FailAloneStill(s, s, "client-start", false);
    case Line(_, _, _, _) => LineStill(s, c);
    case AttachmentUp(now) => UpStill(s, now);
    case AttachmentDown(exitCode) => DownStill(s, exitCode);
    case AttachmentMissing => MissingStill(s);
    case Stderr(data, w) => FailAloneStill(s, WithStderr(s, data, data[..w.kept], limit), "stderr-retention", true);
    case CancelRequest(id) =>
      FailAloneStill(s, WithOp(s, Operation.Step(s.op, Operation.Cancel(id, CanRecord(s.life)))), "operation-cancel",
                     true);
    case ClientGone(exitCode) => GoneStill(s, exitCode);
    case LocalFailure(code) => FailAloneStill(s, s, code, true);
    case OperationStep(call) =>
    case EnvoyIsReady => LifeAloneStill(s, EnvoyReady);
  }

  // ---------- The artifacts report ----------

  /** Completion is due: finalization was asked for, its grant is there, and it was not sent yet. */
  predicate MayCompleteNow(s: Sess) { Admits(s.life, ArtifactsDone) }

  lemma FailureLeavesDue(s: Sess, failed: bool)
    ensures var t := if failed then FailAlone(s, "artifact-finalization", false) else Turn(s, []);
      Still(s, t) && (MayCompleteNow(t.s) <==> MayCompleteNow(s))
  {
    FailAloneStill(s, s, "artifact-finalization", false);
    assert WithFailure(s, "artifact-finalization").life == SetRecordingFailed(s.life);
  }

  lemma CompleteEffects(t: Turn)
    requires SendComplete !in t.out
    ensures var u := CompleteArtifacts(t);
      && u.s.requestFailed == t.s.requestFailed
      && u.s.life.completeSent == (t.s.life.completeSent || MayCompleteNow(t.s))
      && (SendComplete in u.out <==> MayCompleteNow(t.s) && !t.s.requestFailed)
  {
    var done := LifeTurn(t, ArtifactsDone);
    if !MayCompleteNow(t.s) {
      assert Still(t.s, Turn(t.s, [])) && Step(t.s.life, ArtifactsDone) == Reploy.Fail(t.s.life);
      assert done.out == t.out && Still(t.s, done);
      FailStill(t.s, done, "artifact-order", true);
    } else {
      assert Step(t.s.life, ArtifactsDone) == SetComplete(t.s.life);
    }
  }

  /**
   * An artifacts report that is admitted makes completion count as sent, whatever the public writer
   * does; its line is sent exactly if the writer had not failed.
   */
  lemma CompletionStep(s: Sess, failed: bool)
    ensures var u := OnArtifactsFinalized(s, failed);
      && u.s.requestFailed == s.requestFailed
      && (Latch(u.s.life, SendComplete) <==> Latch(s.life, SendComplete) || MayCompleteNow(s))
      && (SendComplete in u.out <==> MayCompleteNow(s) && !s.requestFailed)
  {
    FailureLeavesDue(s, failed);
    CompleteEffects(if failed then FailAlone(s, "artifact-finalization", false) else Turn(s, []));
  }

  lemma WriterStep(s: Sess)
    ensures var u := OnRequestFailed(s);
      u.s.requestFailed && u.s.life.completeSent == s.life.completeSent && SendComplete !in u.out
  {
    FailAloneStill(WriterBroken(s), WriterBroken(s), "client-request", false);
  }

  // ---------- Every run ----------

  /** Report `j` is the one that made completion count as sent. */
  ghost predicate Completes(start: Sess, reports: seq<Report>, limit: nat, j: nat)
    requires forall c :: c in reports ==> Possible(c)
  {
    && j < |reports| && reports[j].ArtifactsFinal?
    && !Latch(AfterAll(start, reports[..j], limit).s.life, SendComplete)
    && Latch(AfterAll(start, reports[..j + 1], limit).s.life, SendComplete)
  }

  /** Report `j` completed, and the writer's failure had been reported before it. */
  ghost predicate CompletesUnheard(start: Sess, reports: seq<Report>, limit: nat, j: nat)
    requires forall c :: c in reports ==> Possible(c)
  {
    Completes(start, reports, limit, j) && WriterFailed in reports[..j]
  }

  /** Completion counts as sent, and its line was not. */
  predicate Dropped(t: Turn) { Latch(t.s.life, SendComplete) && SendComplete !in t.out }

  /** What the run says about completion so far. */
  ghost predicate Told(start: Sess, reports: seq<Report>, limit: nat)
    requires forall c :: c in reports ==> Possible(c)
  {
    var t := AfterAll(start, reports, limit);
    && (t.s.requestFailed <==> WriterFailed in reports)
    && (SendComplete in t.out ==> Latch(t.s.life, SendComplete))
    && (Dropped(t) <==> exists j :: CompletesUnheard(start, reports, limit, j))
  }

  lemma CompletesEarlier(start: Sess, front: seq<Report>, c: Report, limit: nat, j: nat)
    requires forall r :: r in front + [c] ==> Possible(r)
    requires forall r :: r in front ==> Possible(r)
    requires j < |front|
    ensures CompletesUnheard(start, front + [c], limit, j) <==> CompletesUnheard(start, front, limit, j)
  {
    var all := front + [c];
    assert all[..j] == front[..j] && all[..j + 1] == front[..j + 1] && all[j] == front[j];
  }

  lemma CompletesNow(start: Sess, front: seq<Report>, c: Report, limit: nat)
    requires forall r :: r in front + [c] ==> Possible(r)
    requires forall r :: r in front ==> Possible(r)
    ensures CompletesUnheard(start, front + [c], limit, |front|) <==>
      && c.ArtifactsFinal? && WriterFailed in front
      && !Latch(AfterAll(start, front, limit).s.life, SendComplete)
      && Latch(AfterAll(start, front + [c], limit).s.life, SendComplete)
  {
    var all := front + [c];
    assert all[..|front|] == front && all[..|front| + 1] == all && all[|front|] == c;
  }

  lemma UnheardSnoc(start: Sess, front: seq<Report>, c: Report, limit: nat)
    requires forall r :: r in front + [c] ==> Possible(r)
    requires forall r :: r in front ==> Possible(r)
    ensures (exists j :: CompletesUnheard(start, front + [c], limit, j)) <==>
      (exists j :: CompletesUnheard(start, front, limit, j)) || CompletesUnheard(start, front + [c], limit, |front|)
  {
    forall j: nat | j < |front|
      ensures CompletesUnheard(start, front + [c], limit, j) <==> CompletesUnheard(start, front, limit, j)
    {
      CompletesEarlier(start, front, c, limit, j);
    }
  }

  /** What one report does to completion, its line and the writer. */
  predicate Tells(s: Sess, c: Report, u: Turn) {
    && (u.s.requestFailed <==> s.requestFailed || c.WriterFailed?)
    && (Latch(s.life, SendComplete) ==> Latch(u.s.life, SendComplete) && SendComplete !in u.out)
    && (!Latch(s.life, SendComplete) && Latch(u.s.life, SendComplete) ==>
          c.ArtifactsFinal? && (SendComplete in u.out <==> !s.requestFailed))
    && (!Latch(u.s.life, SendComplete) ==> SendComplete !in u.out)
  }

  lemma CompletionTells(s: Sess, failed: bool)
    ensures Tells(s, ArtifactsFinal(failed), OnArtifactsFinalized(s, failed))
  {
    CompletionStep(s, failed);
  }

  lemma WriterTells(s: Sess)
    ensures Tells(s, WriterFailed, OnRequestFailed(s))
  {
    WriterStep(s);
  }

  lemma StillTells(s: Sess, c: Report, u: Turn)
    requires Still(s, u) && !c.ArtifactsFinal? && !c.WriterFailed?
    ensures Tells(s, c, u)
  {
  }

  lemma ReportTells(s: Sess, c: Report, limit: nat)
    requires Possible(c)
    ensures Tells(s, c, AfterReport(s, c, limit))
  {
    if c.ArtifactsFinal? {
      CompletionTells(s, c.failed);
    } else if c.WriterFailed? {
      WriterTells(s);
    } else {
      ReportStill(s, c, limit);
      StillTells(s, c, AfterReport(s, c, limit));
    }
  }

  lemma TellsOn(start: Sess, front: seq<Report>, c: Report, limit: nat)
    requires forall r :: r in front + [c] ==> Possible(r)
    requires forall r :: r in front ==> Possible(r)
    requires Told(start, front, limit)
    ensures Told(start, front + [c], limit)
  {
    var b, all := AfterAll(start, front, limit), front + [c];
    assert c in all && (WriterFailed in all <==> WriterFailed in front || c.WriterFailed?);
    AfterAllSnoc(start, front, c, limit);
    ReportTells(b.s, c, limit);
    UnheardSnoc(start, front, c, limit);
    CompletesNow(start, front, c, limit);
  }

  /**
   * In every run, completion counts as sent without its line exactly if the writer's failure was
   * reported before the artifacts report that completed.
   */
  lemma {:induction false} CompletionDroppedExactly(start: Sess, reports: seq<Report>, limit: nat)
    requires New(start)
    requires forall c :: c in reports ==> Possible(c)
    ensures Dropped(AfterAll(start, reports, limit)) <==> exists j :: CompletesUnheard(start, reports, limit, j)
    ensures Told(start, reports, limit)
    decreases |reports|
  {
    if reports != [] {
      var front, last := reports[..|reports| - 1], reports[|reports| - 1];
      assert reports == front + [last];
      CompletionDroppedExactly(start, front, limit);
      TellsOn(start, front, last, limit);
    }
  }

  // ---------- A run that drops it ----------

  /** The run so far is possible and has led to `s`. */
  ghost predicate Leads(start: Sess, reports: seq<Report>, s: Sess) {
    (forall c :: c in reports ==> Possible(c)) && AfterAll(start, reports, 0).s == s
  }

  lemma LeadsOn(start: Sess, reports: seq<Report>, s: Sess, c: Report, m: Sess)
    requires Leads(start, reports, s) && Possible(c) && AfterReport(s, c, 0).s == m
    ensures Leads(start, reports + [c], m)
  {
    AfterAllSnoc(start, reports, c, 0);
  }

  function Now(event: PublicEvent): Report { Line([], Some(event), At(0.0), Written(0, true)) }

  /** An ordinary line on a session that nothing has gone wrong with, and no attachment end waiting. */
  lemma PlainLine(s: Sess, event: PublicEvent, m: Life)
    requires Admits(s.life, Event(Some(event), At(0.0))) && m == Step(s.life, Event(Some(event), At(0.0)))
    requires event.BrokerReady? || event.Opened? || event.ReadyEvent? || event.Terminating?
      || (event.OutputsFinalized? && !event.status.kind.OutputsFailed?)
    requires s.failure.None? && (s.endSeen ==> s.endReported)
    ensures AfterReport(s, Now(event), 0).s == WithLife(s, m)
  {
    var seen := LifeTurn(Turn(s, []), Event(Some(event), At(0.0)));
    assert seen.s == WithLife(s, m) && !EndDue(seen.s);
  }

  const ALL_GRANTS := Grants(true, true, true, true)
  const DRAINED := Status(StatusKind.Drained, None, None)

  /** A run that has not lost its writer goes on with a plain line. */
  lemma LineOn(start: Sess, reports: seq<Report>, s: Sess, event: PublicEvent, m: Life) returns (more: seq<Report>)
    requires Leads(start, reports, s) && WriterFailed !in reports
    requires Admits(s.life, Event(Some(event), At(0.0))) && m == Step(s.life, Event(Some(event), At(0.0)))
    requires event.BrokerReady? || event.Opened? || event.ReadyEvent? || event.Terminating?
      || (event.OutputsFinalized? && !event.status.kind.OutputsFailed?)
    requires s.failure.None? && (s.endSeen ==> s.endReported)
    ensures Leads(start, more, WithLife(s, m)) && WriterFailed !in more
  {
    PlainLine(s, event, m);
    LeadsOn(start, reports, s, Now(event), WithLife(s, m));
    more := reports + [Now(event)];
  }

  function OpenedLife(): (l: Life)
    ensures l.state.WaitReady? && l.grants == Some(ALL_GRANTS) && l.deadline == At(ATTACH_TIMEOUT_SECONDS)
    ensures l.lastTime == At(0.0) && !l.attached && !l.attachmentEnded && !l.finalizationRequested && !l.completeSent
    ensures l.workload.None?
  {
    TakeOpened(Noted(TakeBrokerReady(Noted(Fresh, At(0.0)), 0.0), At(0.0)), ALL_GRANTS)
  }

  function EndingLife(): (l: Life)
    ensures l.state.TerminatingState? && l.grants == Some(ALL_GRANTS) && l.lastTime == At(0.0)
    ensures !l.attached && !l.attachmentEnded && !l.finalizationRequested && !l.completeSent
  {
    TakeTerminating(Noted(TakeReady(Noted(OpenedLife(), At(0.0))), At(0.0)), ControllerTerminate)
  }

  lemma BroughtOpen() returns (reports: seq<Report>)
    ensures Leads(FreshSession([], []), reports, WithLife(FreshSession([], []), OpenedLife()))
      && WriterFailed !in reports
  {
    var start := FreshSession([], []);
    var l := TakeBrokerReady(Noted(Fresh, At(0.0)), 0.0);
    reports := LineOn(start, [], start, BrokerReady, l);
    reports := LineOn(start, reports, WithLife(start, l), Opened(ALL_GRANTS), OpenedLife());
  }

  /** A session whose cause is known and whose outputs are not. */
  lemma BroughtToEnd() returns (reports: seq<Report>)
    ensures Leads(FreshSession([], []), reports, WithLife(FreshSession([], []), EndingLife()))
      && WriterFailed !in reports
  {
    var start := FreshSession([], []);
    var l := TakeReady(Noted(OpenedLife(), At(0.0)));
    reports := BroughtOpen();
    reports := LineOn(start, reports, WithLife(start, OpenedLife()), ReadyEvent, l);
    reports := LineOn(start, reports, WithLife(start, l), PublicEvent.Terminating(ControllerTerminate), EndingLife());
  }

  lemma EndTaken(s: Sess)
    requires !s.endSeen && !s.endReported && !s.connected && s.life.state.TerminatingState?
    requires !s.life.attached && !s.life.attachmentEnded
    ensures AfterReport(s, AttachmentDown(0), 0).s == EndReported(EndSeen(s))
    ensures EndReported(EndSeen(s)).life == TakeEnd(s.life) && EndReported(EndSeen(s)).endReported
  {
    assert StopUnlessEnding(EndSeen(s)) == EndSeen(s);
  }

  /** The attachment ends, outputs are final, and so finalization is asked for. */
  lemma BroughtToFinalization() returns (reports: seq<Report>, s: Sess)
    ensures Leads(FreshSession([], []), reports, s) && WriterFailed !in reports
    ensures s.life.state.Finalized? && s.life.finalizationRequested && !s.life.completeSent
      && MayComplete(s.life.grants)
  {
    var start := FreshSession([], []);
    var e := WithLife(start, EndingLife());
    var before := BroughtToEnd();
    var m := EndReported(EndSeen(e));
    EndTaken(e);
    LeadsOn(start, before, e, AttachmentDown(0), m);
    var l := TakeOutputs(Noted(m.life, At(0.0)), DRAINED);
    reports := LineOn(start, before + [AttachmentDown(0)], m, PublicEvent.OutputsFinalized(DRAINED), l);
    s := WithLife(m, l);
  }

  /** A possible run in which completion counts as sent although its line was dropped. */
  lemma CompletionCanBeDropped() returns (reports: seq<Report>)
    ensures forall c :: c in reports ==> Possible(c)
    ensures Dropped(AfterAll(FreshSession([], []), reports, 0))
  {
    var start := FreshSession([], []);
    var before, s := BroughtToFinalization();
    var m := OnRequestFailed(s).s;
    LeadsOn(start, before, s, WriterFailed, m);
    WriterKeepsDue(s);
    var n := AfterReport(m, ArtifactsFinal(false), 0).s;
    LeadsOn(start, before + [WriterFailed], m, ArtifactsFinal(false), n);
    CompletionStep(m, false);
    reports := before + [WriterFailed] + [ArtifactsFinal(false)];
    CompletesNow(start, before + [WriterFailed], ArtifactsFinal(false), 0);
    assert WriterFailed in before + [WriterFailed];
    CompletionDroppedExactly(start, reports, 0);
  }

  lemma WriterKeepsDue(s: Sess)
    requires s.life.state.Finalized?
    ensures var m := OnRequestFailed(s).s;
      m.requestFailed && (MayCompleteNow(m) <==> MayCompleteNow(s)) && m.life.completeSent == s.life.completeSent
  {
    assert WithFailure(WriterBroken(s), "client-request").life == SetRecordingFailed(s.life);
  }
}
