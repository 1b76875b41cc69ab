/**
 * The session beside its lifecycle: every run of the session is a run of the lifecycle, and the
 * public lines it sends are the ones the lifecycle authorised.
 */
module PublicLines {
  import opened Common
  import opened Evidence
  import opened Reploy
  import opened Session
  import opened SessionRuns
  import Operation

  /** Effects of the lifecycle; the others are the session's own. */
  predicate Public(e: Effect) { !e.LaunchClient? && !e.RetainPartial? && !e.CancelOperation? }

  function Lines(out: Effects): Effects {
    if out == [] then [] else Lines(out[..|out| - 1]) + When(Public(out[|out| - 1]), out[|out| - 1])
  }

  lemma LinesMore(out: Effects, e: Effect)
    ensures Lines(out + [e]) == Lines(out) + When(Public(e), e)
  {
    assert (out + [e])[..|out|] == out;
  }

  /** What was sent is what was authorised, in order, with nothing left out but completion. */
  predicate Thinned(sent: Effects, authorised: Effects) {
    if authorised == [] then sent == []
    else
      var last, front := authorised[|authorised| - 1], authorised[..|authorised| - 1];
      || (sent != [] && sent[|sent| - 1] == last && Thinned(sent[..|sent| - 1], front))
      || (last.SendComplete? && Thinned(sent, front))
  }

  lemma ThinnedSent(sent: Effects, authorised: Effects, e: Effect)
    requires Thinned(sent, authorised)
    ensures Thinned(sent + [e], authorised + [e])
  {
    assert (sent + [e])[..|sent|] == sent && (authorised + [e])[..|authorised|] == authorised;
  }

  lemma ThinnedDropped(sent: Effects, authorised: Effects)
    requires Thinned(sent, authorised)
    ensures Thinned(sent, authorised + [SendComplete])
  {
    assert (authorised + [SendComplete])[..|authorised|] == authorised;
  }

  lemma {:induction false} ThinnedIsFewer(sent: Effects, authorised: Effects, e: Effect)
    requires Thinned(sent, authorised)
    ensures Times(sent, e) <= Times(authorised, e)
    ensures !e.SendComplete? ==> Times(sent, e) == Times(authorised, e)
    decreases |authorised|
  {
    if authorised != [] {
      var last, front := authorised[|authorised| - 1], authorised[..|authorised| - 1];
      assert authorised == front + [last];
      TimesSnoc(front, last, e);
      if sent != [] && sent[|sent| - 1] == last && Thinned(sent[..|sent| - 1], front) {
        assert sent == sent[..|sent| - 1] + [last];
        TimesSnoc(sent[..|sent| - 1], last, e);
        ThinnedIsFewer(sent[..|sent| - 1], front, e);
      } else {
        ThinnedIsFewer(sent, front, e);
      }
    }
  }

  /** The lifecycle calls behind a session, and the lines authorised by them. */
  ghost predicate Mirror(s: Sess, sent: Effects, r: Run) {
    r.life == s.life && Thinned(sent, r.emitted) && (!s.requestFailed ==> sent == r.emitted)
  }

  /** What was sent, and which lifecycle calls were made, before the report at hand. */
  datatype Past = Past(out: Effects, calls: seq<Call>)

  ghost predicate Mirrors(prior: Past, t: Turn) {
    exists calls :: prior.calls <= calls && Mirror(t.s, Lines(prior.out + t.out), After(calls))
  }

  // ---------- The pieces of a report ----------

  lemma AnswerIsPublic(l: Life, c: Call)
    ensures Answer(l, c).Emit? ==> Public(Answer(l, c).effect)
  {
    if Admits(l, c) && c.Event? {
      EventReplyIsPublic(Noted(l, c.now), c.event.value);
    }
  }

  lemma EventReplyIsPublic(l: Life, event: PublicEvent)
    ensures EventReply(l, event).Emit? ==> Public(EventReply(l, event).effect)
  {
  }

  lemma EmitsMore(out: Effects, l: Life, c: Call)
    ensures Lines(out + Emits(Answer(l, c))) == Lines(out) + Emits(Answer(l, c))
  {
    AnswerIsPublic(l, c);
    if Answer(l, c).Emit? {
      LinesMore(out, Answer(l, c).effect);
    } else {
      assert out + [] == out && Lines(out) + [] == Lines(out);
    }
  }

  /** A call that goes on from a mirrored state, with its line sent. */
  lemma MirrorOnward(s: Sess, m: Sess, sent: Effects, r: Run, n: Run, answer: Reply)
    requires Mirror(s, sent, r) && n.life == m.life && m.requestFailed == s.requestFailed
    requires n.emitted == r.emitted + Emits(answer)
    ensures Mirror(m, sent + Emits(answer), n)
  {
    if answer.Emit? {
      ThinnedSent(sent, r.emitted, answer.effect);
    } else {
      assert sent + [] == sent && r.emitted + [] == r.emitted;
    }
  }

  lemma Witnessed(prior: Past, t: Turn, calls: seq<Call>)
    requires prior.calls <= calls && Mirror(t.s, Lines(prior.out + t.out), After(calls))
    ensures Mirrors(prior, t)
  {
  }

  lemma MirrorCall(s: Sess, m: Sess, sent: Effects, calls: seq<Call>, c: Call)
    requires Mirror(s, sent, After(calls)) && m.life == Step(s.life, c) && m.requestFailed == s.requestFailed
    ensures Mirror(m, sent + Emits(Answer(s.life, c)), After(calls + [c]))
  {
    AfterSnoc(calls, c);
    var r := After(calls);
    assert Extend(r, c).life == m.life && Extend(r, c).emitted == r.emitted + Emits(Answer(s.life, c));
    MirrorOnward(s, m, sent, r, Extend(r, c), Answer(s.life, c));
  }

  lemma LinesOnward(prior: Effects, out: Effects, l: Life, c: Call)
    ensures Lines(prior + (out + Emits(Answer(l, c)))) == Lines(prior + out) + Emits(Answer(l, c))
  {
    Rejoined(prior, out, Emits(Answer(l, c)));
    EmitsMore(prior + out, l, c);
  }

  lemma Rejoined(a: Effects, b: Effects, c: Effects)
    ensures a + (b + c) == (a + b) + c
  {
  }

  /** One lifecycle call, with its line sent. */
  lemma CallMirrors(prior: Past, t: Turn, c: Call, u: Turn)
    requires Mirrors(prior, t)
    requires u.s.life == Step(t.s.life, c) && u.s.requestFailed == t.s.requestFailed
    requires u.out == t.out + Emits(Answer(t.s.life, c))
    ensures Mirrors(prior, u)
  {
    var calls :| prior.calls <= calls && Mirror(t.s, Lines(prior.out + t.out), After(calls));
    MirrorCall(t.s, u.s, Lines(prior.out + t.out), calls, c);
    LinesOnward(prior.out, t.out, t.s.life, c);
    Witnessed(prior, u, calls + [c]);
  }

  /** What leaves the lifecycle alone. */
  lemma AsideMirrors(prior: Past, t: Turn, u: Turn)
    requires Mirrors(prior, t) && u.s.life == t.s.life && u.out == t.out && (t.s.requestFailed ==> u.s.requestFailed)
    ensures Mirrors(prior, u)
  {
    var calls :| prior.calls <= calls && Mirror(t.s, Lines(prior.out + t.out), After(calls));
    Witnessed(prior, u, calls);
  }

  lemma OwnLines(prior: Effects, out: Effects, e: Effect)
    requires !Public(e)
    ensures Lines(prior + (out + [e])) == Lines(prior + out)
  {
    assert prior + (out + [e]) == (prior + out) + [e];
    LinesMore(prior + out, e);
    assert Lines(prior + out) + [] == Lines(prior + out);
  }

  /** An effect of the session's own. */
  lemma OwnMirrors(prior: Past, t: Turn, e: Effect)
    requires Mirrors(prior, t) && !Public(e)
    ensures Mirrors(prior, Turn(t.s, t.out + [e]))
  {
    var calls :| prior.calls <= calls && Mirror(t.s, Lines(prior.out + t.out), After(calls));
    OwnLines(prior.out, t.out, e);
    Witnessed(prior, Turn(t.s, t.out + [e]), calls);
  }

  lemma SeekMirrors(prior: Past, t: Turn)
    requires Mirrors(prior, t)
    ensures Mirrors(prior, Turn(SeekTermination(t.s), t.out + TerminateEffects(t.s)))
  {
    var u := Turn(SeekTermination(t.s), t.out + TerminateEffects(t.s));
    if CanTerminate(t.s) {
      CallMirrors(prior, t, RequestTermination, u);
    } else {
      assert t.out + [] == t.out;
    }
  }

  lemma FailureStops(s: Sess, code: string)
    ensures WithFailure(s, code).life == Step(s.life, StopRecording)
    ensures WithFailure(s, code).requestFailed == s.requestFailed && Emits(Answer(s.life, StopRecording)) == []
  {
  }

  /** The first failure, before anything is sent about it. */
  lemma FailureMirrors(prior: Past, t: Turn, code: string)
    requires Mirrors(prior, t)
    ensures Mirrors(prior, Turn(WithFailure(t.s, code), t.out + When(t.s.failure.None?, RetainPartial)))
  {
    var u := Turn(t.s, t.out + When(t.s.failure.None?, RetainPartial));
    if t.s.failure.None? {
      OwnMirrors(prior, t, RetainPartial);
    } else {
      assert u.out == t.out;
      AsideMirrors(prior, t, u);
    }
    StoppedMirrors(prior, u, code);
  }

  lemma StoppedMirrors(prior: Past, t: Turn, code: string)
    requires Mirrors(prior, t)
    ensures Mirrors(prior, Turn(WithFailure(t.s, code), t.out))
  {
    FailureStops(t.s, code);
    CallMirrors(prior, t, StopRecording, Turn(WithFailure(t.s, code), t.out));
  }

  lemma FailCases(t: Turn, code: string, terminate: bool)
    ensures var v := Turn(WithFailure(t.s, code), t.out + When(t.s.failure.None?, RetainPartial));
      FailTurn(t, code, terminate) == if terminate then Turn(SeekTermination(v.s), v.out + TerminateEffects(v.s)) else v
  {
    var retained, w := When(t.s.failure.None?, RetainPartial), WithFailure(t.s, code);
    assert t.out + (retained + TerminateEffects(w)) == (t.out + retained) + TerminateEffects(w);
    assert retained + [] == retained;
  }

  lemma FailMirrors(prior: Past, t: Turn, code: string, terminate: bool)
    requires Mirrors(prior, t)
    ensures Mirrors(prior, FailTurn(t, code, terminate))
  {
    var v := Turn(WithFailure(t.s, code), t.out + When(t.s.failure.None?, RetainPartial));
    FailCases(t, code, terminate);
    FailureMirrors(prior, t, code);
    if terminate {
      SeekMirrors(prior, v);
    }
  }

  lemma FailAloneMirrors(prior: Past, s: Sess, code: string, terminate: bool)
    requires Mirrors(prior, Turn(s, []))
    ensures Mirrors(prior, FailAlone(s, code, terminate))
  {
    FailMirrors(prior, Turn(s, []), code, terminate);
    assert [] + FailEffects(s, code, terminate) == FailEffects(s, code, terminate);
  }

  lemma LifeMirrors(prior: Past, t: Turn, c: Call)
    requires Mirrors(prior, t)
    ensures Mirrors(prior, LifeTurn(t, c))
  {
    CallMirrors(prior, t, c, LifeTurn(t, c));
  }

  lemma LifeAloneMirrors(prior: Past, s: Sess, c: Call)
    requires Mirrors(prior, Turn(s, []))
    ensures Mirrors(prior, LifeAlone(s, c))
  {
    var emitted := Emits(Answer(s.life, c));
    assert [] + emitted == emitted;
    CallMirrors(prior, Turn(s, []), c, LifeAlone(s, c));
  }

  lemma RefusedMirrors(prior: Past, s: Sess, c: Call, code: string, terminate: bool)
    requires Mirrors(prior, Turn(s, [])) && !Admits(s.life, c)
    ensures Mirrors(prior, FailAlone(LifeAlone(s, c).s, code, terminate))
  {
    LifeAloneMirrors(prior, s, c);
    assert LifeAlone(s, c) == Turn(LifeAlone(s, c).s, []);
    FailAloneMirrors(prior, LifeAlone(s, c).s, code, terminate);
  }

  lemma EndMirrors(prior: Past, t: Turn)
    requires Mirrors(prior, t)
    ensures Mirrors(prior, EndTurn(t))
  {
    if EndDue(t.s) {
      CallMirrors(prior, t, AttachmentEnd(t.s.connected), EndTurn(t));
    } else {
      assert t.out + [] == t.out;
    }
  }

  lemma ConcludeMirrors(prior: Past, t: Turn, event: PublicEvent)
    requires Mirrors(prior, t)
    ensures Mirrors(prior, Conclude(t, event))
  {
    if event.Terminated? {
      var kept := Turn(Retained(t.s), t.out);
      AsideMirrors(prior, t, kept);
      FailMirrors(prior, kept, "session-result", false);
      LifeMirrors(prior, if Success(event.result) then kept else FailTurn(kept, "session-result", false), Acknowledge);
    } else {
      FailMirrors(prior, t, "output-finalization", false);
      SeekMirrors(prior, t);
      SeekMirrors(prior, FailTurn(t, "output-finalization", false));
    }
  }

  lemma InterpretMirrors(prior: Past, t: Turn, event: PublicEvent, now: Reading)
    requires Mirrors(prior, t)
    ensures Mirrors(prior, Interpret(t, event, now))
  {
    var seen := LifeTurn(t, Event(Some(event), now));
    LifeMirrors(prior, t, Event(Some(event), now));
    FailMirrors(prior, seen, "client-lifecycle", false);
    EndMirrors(prior, seen);
    FailMirrors(prior, EndTurn(seen), "client-lifecycle", false);
    ConcludeMirrors(prior, EndTurn(seen), event);
  }

  lemma FinishMirrors(prior: Past, t: Turn)
    requires Mirrors(prior, t)
    ensures Mirrors(prior, FinishEnd(t))
  {
    EndMirrors(prior, t);
    FailMirrors(prior, EndTurn(t), "attachment-order", true);
  }

  // ---------- Each report ----------

  lemma RetainedMirrors(prior: Past, kept: Sess, event: PublicEvent, now: Reading, ok: bool)
    requires Mirrors(prior, Turn(kept, []))
    ensures Mirrors(prior, OnRetained(kept, event, now, ok))
  {
    FailAloneMirrors(prior, kept, "event-retention", true);
    if event.ClientError? {
      FailAloneMirrors(prior, kept, event.code, false);
      InterpretMirrors(prior, FailAlone(kept, event.code, false), event, now);
    } else {
      InterpretMirrors(prior, Turn(kept, []), event, now);
    }
  }

  lemma LineMirrors(prior: Past, s: Sess, c: Report)
    requires Mirrors(prior, Turn(s, [])) && Possible(c) && c.Line?
    ensures Mirrors(prior, OnEvent(s, c.line, c.event, c.now, c.written))
  {
    FailAloneMirrors(prior, s, "client-schema", true);
    if c.event.Some? {
      var kept := WithEventLog(s, c.line[..c.written.kept]);
      AsideMirrors(prior, Turn(s, []), Turn(kept, []));
      RetainedMirrors(prior, kept, c.event.value, c.now, c.written.ok);
      InterpretMirrors(prior, Turn(s, []), c.event.value, c.now);
    }
  }

  lemma UpMirrors(prior: Past, s: Sess, now: Reading)
    requires Mirrors(prior, Turn(s, []))
    ensures Mirrors(prior, OnConnected(s, now))
  {
    var c := Connected(now);
    if s.endSeen {
      FailAloneMirrors(prior, s, "attachment-order", true);
    } else if Admits(s.life, c) {
      LifeAloneMirrors(prior, s, c);
      AsideMirrors(prior, LifeAlone(s, c), Turn(NowConnected(LifeAlone(s, c).s), LifeAlone(s, c).out));
    } else {
      RefusedMirrors(prior, s, c, "attachment-connect", true);
    }
  }

  lemma DownMirrors(prior: Past, s: Sess, exitCode: int)
    requires Mirrors(prior, Turn(s, []))
    ensures Mirrors(prior, OnAttachmentEnded(s, exitCode))
  {
    if s.endSeen {
      FailAloneMirrors(prior, s, "attachment-order", true);
    } else {
      AsideMirrors(prior, Turn(s, []), Turn(EndSeen(s), []));
      CauseMirrors(prior, EndSeen(s), exitCode);
      FinishMirrors(prior, EndCause(EndSeen(s), exitCode));
    }
  }

  lemma CauseMirrors(prior: Past, s: Sess, exitCode: int)
    requires Mirrors(prior, Turn(s, []))
    ensures Mirrors(prior, EndCause(s, exitCode))
  {
    if exitCode != 0 {
      FailAloneMirrors(prior, s, "attachment-exit", true);
    } else if !Ending(s.life.state) {
      LifeAloneMirrors(prior, s, StopRecording);
      assert LifeAlone(s, StopRecording) == Turn(StopUnlessEnding(s), []);
    }
  }

  lemma MissingMirrors(prior: Past, s: Sess)
    requires Mirrors(prior, Turn(s, []))
    ensures Mirrors(prior, OnAttachmentFailed(s))
  {
    FailAloneMirrors(prior, s, "attachment-order", true);
    AsideMirrors(prior, Turn(s, []), Turn(EndSeen(s), []));
    FailAloneMirrors(prior, EndSeen(s), "attachment-start", true);
    FinishMirrors(prior, FailAlone(EndSeen(s), "attachment-start", true));
  }

  /** The one line that can be dropped: completion, when the public writer broke. */
  lemma CompleteMirrors(prior: Past, t: Turn)
    requires Mirrors(prior, t)
    ensures Mirrors(prior, CompleteArtifacts(t))
  {
    var done := LifeTurn(t, ArtifactsDone);
    if !Admits(t.s.life, ArtifactsDone) {
      LifeMirrors(prior, t, ArtifactsDone);
      FailMirrors(prior, done, "artifact-order", true);
    } else if t.s.requestFailed {
      DroppedMirrors(prior, t);
    } else {
      LifeMirrors(prior, t, ArtifactsDone);
    }
  }

  lemma DroppedMirrors(prior: Past, t: Turn)
    requires Mirrors(prior, t) && t.s.requestFailed && Admits(t.s.life, ArtifactsDone)
    ensures Mirrors(prior, Turn(LifeTurn(t, ArtifactsDone).s, t.out))
  {
    var calls :| prior.calls <= calls && Mirror(t.s, Lines(prior.out + t.out), After(calls));
    MirrorDropped(t.s, LifeTurn(t, ArtifactsDone).s, Lines(prior.out + t.out), calls);
    Witnessed(prior, Turn(LifeTurn(t, ArtifactsDone).s, t.out), calls + [ArtifactsDone]);
  }

  lemma MirrorDropped(s: Sess, m: Sess, sent: Effects, calls: seq<Call>)
    requires Mirror(s, sent, After(calls)) && s.requestFailed && m.requestFailed
    requires Admits(s.life, ArtifactsDone) && m.life == Step(s.life, ArtifactsDone)
    ensures Mirror(m, sent, After(calls + [ArtifactsDone]))
  {
    AfterSnoc(calls, ArtifactsDone);
    ThinnedDropped(sent, After(calls).emitted);
  }

  lemma ArtifactsMirrors(prior: Past, s: Sess, failed: bool)
    requires Mirrors(prior, Turn(s, []))
    ensures Mirrors(prior, OnArtifactsFinalized(s, failed))
  {
    FailAloneMirrors(prior, s, "artifact-finalization", false);
    CompleteMirrors(prior, if failed then FailAlone(s, "artifact-finalization", false) else Turn(s, []));
  }

  lemma WriterMirrors(prior: Past, s: Sess)
    requires Mirrors(prior, Turn(s, []))
    ensures Mirrors(prior, OnRequestFailed(s))
  {
    var m := WriterBroken(s);
    AsideMirrors(prior, Turn(s, []), Turn(m, []));
    FailAloneMirrors(prior, m, "client-request", false);
  }

  lemma CancelMirrors(prior: Past, s: Sess, id: string)
    requires Mirrors(prior, Turn(s, []))
    ensures Mirrors(prior, OnCancel(s, id))
  {
    var m := WithOp(s, Operation.Step(s.op, Operation.Cancel(id, CanRecord(s.life))));
    AsideMirrors(prior, Turn(s, []), Turn(m, []));
    FailAloneMirrors(prior, m, "operation-cancel", true);
    OwnMirrors(prior, Turn(m, []), CancelOperation(id));
    assert [CancelOperation(id)] == [] + [CancelOperation(id)];
  }

  lemma GoneMirrors(prior: Past, s: Sess, exitCode: int)
    requires Mirrors(prior, Turn(s, []))
    ensures Mirrors(prior, OnClientClosed(s, exitCode))
  {
    var c := BrokerClosed(exitCode);
    if s.requestFailed || !s.resultRetained {
      FailAloneMirrors(prior, s, "client-close", false);
    } else if Admits(s.life, c) {
      LifeAloneMirrors(prior, s, c);
      AsideMirrors(prior, LifeAlone(s, c), Turn(NowClosed(LifeAlone(s, c).s), LifeAlone(s, c).out));
    } else {
      RefusedMirrors(prior, s, c, "client-close", false);
    }
  }

  lemma StartMirrors(prior: Past, s: Sess)
    requires Mirrors(prior, Turn(s, []))
    ensures Mirrors(prior, OnStart(s))
  {
    FailAloneMirrors(prior, s, "client-start", false);
    AsideMirrors(prior, Turn(s, []), Turn(Begun(s), []));
    OwnMirrors(prior, Turn(Begun(s), []), LaunchClient);
    assert [LaunchClient] == [] + [LaunchClient];
  }

  lemma StderrMirrors(prior: Past, s: Sess, data: bytes, w: Written, limit: nat)
    requires Mirrors(prior, Turn(s, [])) && w.kept <= |data|
    ensures Mirrors(prior, OnStderr(s, data, w, limit))
  {
    var m := WithStderr(s, data, data[..w.kept], limit);
    AsideMirrors(prior, Turn(s, []), Turn(m, []));
    FailAloneMirrors(prior, m, "stderr-retention", true);
  }

  /** Reports about the attachment, its evidence and the client's end. */
  predicate Outer(c: Report) {
    c.AttachmentUp? || c.AttachmentDown? || c.AttachmentMissing? || c.Stderr? || c.ArtifactsFinal? || c.ClientGone?
  }

  lemma OuterMirrors(prior: Past, s: Sess, c: Report, limit: nat)
    requires Mirrors(prior, Turn(s, [])) && Possible(c) && Outer(c)
    ensures Mirrors(prior, AfterReport(s, c, limit))
  {
    match c
    case AttachmentUp(now) => UpMirrors(prior, s, now);
    case AttachmentDown(exitCode) => DownMirrors(prior, s, exitCode);
    case AttachmentMissing => MissingMirrors(prior, s);
    case Stderr(data, w) => StderrMirrors(prior, s, data, w, limit);
    case ArtifactsFinal(failed) => ArtifactsMirrors(prior, s, failed);
    case ClientGone(exitCode) => GoneMirrors(prior, s, exitCode);
  }

  lemma InnerMirrors(prior: Past, s: Sess, c: Report, limit: nat)
    requires Mirrors(prior, Turn(s, [])) && Possible(c) && !Outer(c)
    ensures Mirrors(prior, AfterReport(s, c, limit))
  {
    match c
    case Start => StartMirrors(prior, s);
    case Line(_, _, _, _) => LineMirrors(prior, s, c);
    case WriterFailed => WriterMirrors(prior, s);
    case CancelRequest(id) => CancelMirrors(prior, s, id);
    case LocalFailure(code) => FailAloneMirrors(prior, s, code, true);
    case OperationStep(call) => AsideMirrors(prior, Turn(s, []), Turn(WithOp(s, Operation.Step(s.op, call)), []));
    case EnvoyIsReady => LifeAloneMirrors(prior, s, EnvoyReady);
  }

  lemma ReportMirrors(prior: Past, s: Sess, c: Report, limit: nat)
    requires Mirrors(prior, Turn(s, [])) && Possible(c)
    ensures Mirrors(prior, AfterReport(s, c, limit))
  {
    if Outer(c) {
      OuterMirrors(prior, s, c, limit);
    } else {
      InnerMirrors(prior, s, c, limit);
    }
  }

  // ---------- Whole runs ----------

  ghost predicate Behind(t: Turn, calls: seq<Call>) { Mirror(t.s, Lines(t.out), After(calls)) }

  lemma ReportBehind(b: Turn, c: Report, limit: nat, calls: seq<Call>) returns (all: seq<Call>)
    requires Possible(c) && Behind(b, calls)
    ensures var t := AfterReport(b.s, c, limit); calls <= all && Behind(Turn(t.s, b.out + t.out), all)
  {
    var past := Past(b.out, calls);
    assert b.out + [] == b.out;
    Witnessed(past, Turn(b.s, []), calls);
    ReportMirrors(past, b.s, c, limit);
    var t := AfterReport(b.s, c, limit);
    all :| calls <= all && Mirror(t.s, Lines(b.out + t.out), After(all));
  }

  /** A run that goes on is behind it a lifecycle run that goes on. */
  lemma {:induction false} SessionGoesOn(start: Sess, reports: seq<Report>, more: seq<Report>, limit: nat,
                                         calls: seq<Call>)
    returns (all: seq<Call>)
    requires forall c :: c in reports + more ==> Possible(c)
    requires forall c :: c in reports ==> Possible(c)
    requires Behind(AfterAll(start, reports, limit), calls)
    ensures calls <= all && Behind(AfterAll(start, reports + more, limit), all)
    decreases |more|
  {
    if more == [] {
      all := calls;
      assert reports + more == reports;
    } else {
      var front, last := reports + more[..|more| - 1], more[|more| - 1];
      assert (reports + more)[..|reports + more| - 1] == front && last in reports + more;
      var before := SessionGoesOn(start, reports, more[..|more| - 1], limit, calls);
      all := ReportBehind(AfterAll(start, front, limit), last, limit, before);
    }
  }

  /**
   * Every run of the session is a run of its lifecycle: the same state, and the lines sent are the
   * lines authorised, in order; only completion can be missing, and only after the writer broke.
   */
  lemma SessionFollowsLifecycle(start: Sess, reports: seq<Report>, limit: nat) returns (calls: seq<Call>)
    requires New(start)
    requires forall c :: c in reports ==> Possible(c)
    ensures var t, r := AfterAll(start, reports, limit), After(calls);
      && r.life == t.s.life && Thinned(Lines(t.out), r.emitted)
      && (!t.s.requestFailed ==> Lines(t.out) == r.emitted)
  {
    assert [] + reports == reports;
    assert Behind(AfterAll(start, [], limit), []);
    calls := SessionGoesOn(start, [], reports, limit, []);
  }

  lemma CallsNeverGoBack(first: seq<Call>, second: seq<Call>, third: seq<Call>)
    requires first <= second <= third
    ensures var a, b, c := After(first).life, After(second).life, After(third).life;
      (a.result.Some? ==> b.result == a.result) && (CanRecord(a) && !CanRecord(b) ==> !CanRecord(c))
  {
    assert first + second[|first|..] == second && second + third[|second|..] == third;
    ResultNeverChanges(first, second[|first|..]);
    if CanRecord(After(first).life) && !CanRecord(After(second).life) {
      RecordingNeverReopens(first, second[|first|..], third[|second|..]);
    }
  }

  lemma SameLife(t: Turn, calls: seq<Call>)
    requires Behind(t, calls)
    ensures After(calls).life == t.s.life
  {
  }

  lemma {:induction false} ClosedStays(start: Sess, reports: seq<Report>, more: seq<Report>, limit: nat)
    requires forall c :: c in reports + more ==> Possible(c)
    requires forall c :: c in reports ==> Possible(c)
    ensures AfterAll(start, reports, limit).s.closed ==> AfterAll(start, reports + more, limit).s.closed
    decreases |more|
  {
    if more == [] {
      assert reports + more == reports;
    } else {
      var front, last := reports + more[..|more| - 1], more[|more| - 1];
      assert reports + more == front + [last];
      AfterAllSnoc(start, front, last, limit);
      ClosedStays(start, reports, more[..|more| - 1], limit);
      EvidenceOnlyGrows(AfterAll(start, front, limit).s, last, limit);
    }
  }

  /**
   * A stored result is never replaced, and once recording is refused, by the lifecycle, by a failure
   * or by closing, it stays refused.
   */
  lemma SessionNeverGoesBack(start: Sess, reports: seq<Report>, more: seq<Report>, further: seq<Report>, limit: nat)
    requires New(start)
    requires forall c :: c in reports + more + further ==> Possible(c)
    requires forall c :: c in reports ==> Possible(c)
    requires forall c :: c in reports + more ==> Possible(c)
    ensures var a, b, c := AfterAll(start, reports, limit).s.life, AfterAll(start, reports + more, limit).s.life,
                           AfterAll(start, reports + more + further, limit).s.life;
      && (a.result.Some? ==> b.result == a.result)
      && (CanRecord(a) && !CanRecord(b) ==> !CanRecord(c))
    ensures var a, b, c := AfterAll(start, reports, limit).s, AfterAll(start, reports + more, limit).s,
                           AfterAll(start, reports + more + further, limit).s;
      MayRecord(a) && !MayRecord(b) ==> !MayRecord(c)
  {
    FirstFailureStays(start, reports + more, further, limit);
    ClosedStays(start, reports + more, further, limit);
    var first := SessionFollowsLifecycle(start, reports, limit);
    var second := SessionGoesOn(start, reports, more, limit, first);
    var third := SessionGoesOn(start, reports + more, further, limit, second);
    SameLife(AfterAll(start, reports + more, limit), second);
    SameLife(AfterAll(start, reports + more + further, limit), third);
    CallsNeverGoBack(first, second, third);
  }

  /** No public line is sent twice, and while the writer works they keep the protocol's order. */
  lemma LinesFollowProtocol(start: Sess, reports: seq<Report>, limit: nat, e: Effect)
    requires New(start) && Public(e)
    requires forall c :: c in reports ==> Possible(c)
    ensures var t := AfterAll(start, reports, limit);
      && Times(Lines(t.out), e) <= 1
      && (e in Lines(t.out) ==> Latch(t.s.life, e))
      && (Latch(t.s.life, e) && !e.SendComplete? ==> e in Lines(t.out))
      && (!t.s.requestFailed ==> Protocol(Lines(t.out)))
  {
    var calls := SessionFollowsLifecycle(start, reports, limit);
    var t, r := AfterAll(start, reports, limit), After(calls);
    EveryRunFollowsProtocol(calls);
    ThinnedIsFewer(Lines(t.out), r.emitted, e);
    AtMostOnce(r.emitted, e);
    assert Latch(r.life, e) <==> e in r.emitted;
    assert e in Lines(t.out) <==> Times(Lines(t.out), e) > 0;
    assert e in r.emitted <==> Times(r.emitted, e) > 0;
  }

  // ---------- Evidence before acknowledgement ----------

  /** Report `i` brought a terminated line, whole into the sink, where it still is. */
  ghost predicate Evident(start: Sess, reports: seq<Report>, limit: nat, i: nat)
    requires forall c :: c in reports ==> Possible(c)
  {
    && i < |reports| && reports[i].Line? && reports[i].written.ok
    && reports[i].event.Some? && reports[i].event.value.Terminated?
    && AfterAll(start, reports[..i], limit).s.eventLog + reports[i].line <= AfterAll(start, reports, limit).s.eventLog
  }

  lemma StillEvident(start: Sess, reports: seq<Report>, c: Report, limit: nat, i: nat)
    requires forall r :: r in reports + [c] ==> Possible(r)
    requires forall r :: r in reports ==> Possible(r)
    requires Evident(start, reports, limit, i)
    ensures Evident(start, reports + [c], limit, i)
  {
    AfterAllSnoc(start, reports, c, limit);
    assert (reports + [c])[..i] == reports[..i];
    EvidenceOnlyGrows(AfterAll(start, reports, limit).s, c, limit);
  }

  lemma NowEvident(start: Sess, reports: seq<Report>, c: Report, limit: nat)
    requires forall r :: r in reports + [c] ==> Possible(r)
    requires forall r :: r in reports ==> Possible(r)
    requires Acknowledges(AfterAll(start, reports, limit).s, AfterAll(start, reports + [c], limit).s)
    ensures Evident(start, reports + [c], limit, |reports|)
  {
    AfterAllSnoc(start, reports, c, limit);
    assert (reports + [c])[..|reports|] == reports;
    assert c in reports + [c];
    AcknowledgedResultIsRetained(AfterAll(start, reports, limit).s, c, limit);
  }

  lemma NotAtStart(start: Sess, limit: nat)
    requires New(start)
    ensures !AfterAll(start, [], limit).s.life.acknowledged
  {
  }

  lemma FrontAndLast<T>(s: seq<T>)
    requires s != []
    ensures s == s[..|s| - 1] + [s[|s| - 1]]
  {
  }

  lemma {:induction false} AcknowledgedIsEvident(start: Sess, reports: seq<Report>, limit: nat) returns (i: nat)
    requires New(start)
    requires forall c :: c in reports ==> Possible(c)
    requires AfterAll(start, reports, limit).s.life.acknowledged
    ensures Evident(start, reports, limit, i)
  {
    NotAtStart(start, limit);
    var front, last := reports[..|reports| - 1], reports[|reports| - 1];
    FrontAndLast(reports);
    if AfterAll(start, front, limit).s.life.acknowledged {
      i := AcknowledgedIsEvident(start, front, limit);
      StillEvident(start, front, last, limit, i);
    } else {
      NowEvident(start, front, last, limit);
      i := |front|;
    }
  }

  /** Whenever a run has acknowledged its result, some terminated line stands whole in the event sink. */
  lemma AcknowledgementHasEvidence(start: Sess, reports: seq<Report>, limit: nat)
    requires New(start)
    requires forall c :: c in reports ==> Possible(c)
    requires SendAcknowledge in Lines(AfterAll(start, reports, limit).out)
    ensures exists i :: Evident(start, reports, limit, i)
  {
    LinesFollowProtocol(start, reports, limit, SendAcknowledge);
    var i := AcknowledgedIsEvident(start, reports, limit);
  }

  // ---------- Counting ----------

  lemma TimesSnoc(out: Effects, last: Effect, e: Effect)
    ensures Times(out + [last], e) == Times(out, e) + if last == e then 1 else 0
    ensures Times(out, e) > 0 <==> e in out
  {
  }

  lemma ProtocolFront(emitted: Effects, last: Effect)
    requires Protocol(emitted + [last])
    ensures Protocol(emitted) && last !in emitted
  {
    var all := emitted + [last];
    forall j | 0 <= j < |emitted| ensures Permitted(emitted[..j], emitted[j]) {
      assert all[..j] == emitted[..j] && Permitted(all[..j], all[j]);
    }
    assert all[..|emitted|] == emitted && Permitted(all[..|emitted|], all[|emitted|]);
  }

  lemma {:induction false} AtMostOnce(emitted: Effects, e: Effect)
    requires Protocol(emitted)
    ensures Times(emitted, e) <= 1
    decreases |emitted|
  {
    if emitted != [] {
      var front, last := emitted[..|emitted| - 1], emitted[|emitted| - 1];
      assert emitted == front + [last];
      ProtocolFront(front, last);
      AtMostOnce(front, e);
      TimesSnoc(front, last, e);
    }
  }
}
