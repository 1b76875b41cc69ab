/**
 * The attachment may end cleanly at any point among active, terminating and outputs-finalized:
 * the place of that end among the public events changes neither where the session arrives nor
 * which effects it emits.
 */
module Confluence {
  import opened Common
  import opened Evidence
  import opened Reploy
  import opened Session
  import opened SessionRuns

  /** The lifecycle facts an attachment end adds; an early end also stops recording. */
  function OverLife(l: Life, stopped: bool): Life {
    l.(attachmentEnded := Ending(l.state), finalizationRequested := l.state.Finalized?, recordingFailed := stopped)
  }

  /** A session once its attachment end has been taken in. */
  function Ended(s: Sess, stopped: bool): Sess {
    s.(endSeen := true, endReported := Ending(s.life.state), life := OverLife(s.life, stopped))
  }

  /** `m` is `s` after a clean attachment end, however early that end came. */
  predicate Shadows(s: Sess, m: Sess) { m == Ended(s, m.life.recordingFailed) }

  /** Connected, not yet ended, and past readiness. */
  predicate Open(s: Sess) {
    Inv(s) && s.connected && !s.endSeen && (s.life.state.Active? || Ending(s.life.state))
  }

  function Due(s: Sess): Effects { When(s.life.state.Finalized?, FinalizeArtifacts) }

  /** A clean end on an open session is never refused, and asks for finalization only when outputs are final. */
  lemma EndShadows(s: Sess)
    requires Open(s)
    ensures var t := OnAttachmentEnded(s, 0); Shadows(s, t.s) && t.out == Due(s)
  {
    var m := EndCause(EndSeen(s), 0);
    EndIsNeverRefused(m.s);
    if s.life.state.Active? {
      assert EndTurn(m).s == m.s;
    } else {
      assert EndTurn(m).s == EndReported(m.s);
      assert EndReported(m.s).life == TakeEnd(s.life);
    }
  }

  // ---------- One event ----------

  predicate Quiescent(event: PublicEvent)
  {
    event.Diagnostic? || event.WorkloadExit? || event.Terminating? || event.OutputsFinalized?
  }

  lemma SameEventAdmission(l: Life, stopped: bool, event: PublicEvent, now: real)
    requires Coherent(l) && !l.attachmentEnded && (l.state.Active? || Ending(l.state))
    ensures AdmitsEvent(OverLife(l, stopped), event, now) == AdmitsEvent(l, event, now)
    ensures AdmitsEvent(l, event, now) ==> Quiescent(event)
  {
    if event.Terminated? {
      assert !ResultAgrees(l, event.result);
      assert !ResultAgrees(OverLife(l, stopped), event.result);
    }
  }

  /** On an open session the lifecycle admits the same events with and without the end. */
  lemma SameAdmission(l: Life, stopped: bool, event: PublicEvent, now: Reading)
    requires Coherent(l) && !l.attachmentEnded && (l.state.Active? || Ending(l.state))
    ensures var c := Event(Some(event), now);
      Admits(OverLife(l, stopped), c) == Admits(l, c) && (Admits(l, c) ==> Quiescent(event))
  {
    if Timely(l, now) {
      NotedSound(l, now);
      NotedOver(l, stopped, now);
      SameEventAdmission(Noted(l, now), stopped, event, now.seconds);
    }
  }

  /** A session one event later, before its failures and requests are considered. */
  function Seen(s: Sess, event: PublicEvent, now: Reading): Sess {
    WithLife(s, Step(s.life, Event(Some(event), now)))
  }

  lemma LifeShadows(l: Life, stopped: bool, event: PublicEvent, now: real)
    requires Coherent(l) && !l.attachmentEnded && (l.state.Active? || Ending(l.state))
    requires AdmitsEvent(l, event, now) && Quiescent(event)
    ensures var m, n := AfterEvent(l, event, now), AfterEvent(OverLife(l, stopped), event, now);
      && (m.state.Active? || Ending(m.state)) && !m.attachmentEnded && m.acknowledged == l.acknowledged
      && (if event.Terminating? then TakeEnd(n) == OverLife(m, stopped) && !n.attachmentEnded && Ending(n.state)
          else n == OverLife(m, stopped))
      && Emits(EventReply(l, event)) == When(event.Terminating?, SessionTerminating)
      && Emits(EventReply(OverLife(l, stopped), event))
           == When(event.Terminating?, SessionTerminating)
             + When(m.state.Finalized? && !l.state.Finalized?, FinalizeArtifacts)
  {
    match event
    case Diagnostic =>
    case WorkloadExit(status) =>
      assert TakeExit(OverLife(l, stopped), status) == OverLife(TakeExit(l, status), stopped);
    case Terminating(cause) =>
      assert TakeEnd(TakeTerminating(OverLife(l, stopped), cause)) == OverLife(TakeTerminating(l, cause), stopped);
    case OutputsFinalized(status) =>
      assert TakeOutputs(OverLife(l, stopped), status) == OverLife(TakeOutputs(l, status), stopped);
  }

  lemma SeekShadows(s: Sess, m: Sess)
    requires Shadows(s, m)
    ensures Shadows(SeekTermination(s), SeekTermination(m)) && TerminateEffects(s) == TerminateEffects(m)
    ensures Due(SeekTermination(s)) == Due(s)
  {
  }

  /** Failures and requests do not see the attachment end. */
  lemma FailShadows(s: Sess, m: Sess, code: string, terminate: bool)
    requires Shadows(s, m)
    ensures Shadows(AfterFailure(s, code, terminate), AfterFailure(m, code, terminate))
    ensures FailEffects(s, code, terminate) == FailEffects(m, code, terminate)
    ensures Due(AfterFailure(s, code, terminate)) == Due(s)
  {
    assert Shadows(WithFailure(s, code), WithFailure(m, code));
    SeekShadows(WithFailure(s, code), WithFailure(m, code));
  }

  // ---------- Two runs side by side ----------

  /** Since `base`, the same effects, but for a finalization the ended run is told when it falls due. */
  predicate SameEffects(base: Sess, ended: Turn, open: Turn) {
    multiset(ended.out) + multiset(Due(base)) == multiset(open.out) + multiset(Due(open.s))
  }

  /** `ended` had its attachment end already; `open` still awaits it. */
  predicate Paired(base: Sess, ended: Turn, open: Turn) {
    Open(open.s) && Shadows(open.s, ended.s) && SameEffects(base, ended, open)
  }

  predicate Related(base: Sess, ended: Turn, open: Turn) {
    Paired(base, ended, open) || (ended.s.life.state.Failed? && open.s.life.state.Failed?)
  }

  lemma MoreEffects(base: Sess, ended: Turn, open: Turn, e: Turn, o: Turn, more: Effects)
    requires SameEffects(base, ended, open) && Due(o.s) == Due(open.s)
    requires e.out == ended.out + more && o.out == open.out + more
    ensures SameEffects(base, e, o)
  {
    var d := multiset(Due(base));
    assert multiset(e.out) + d == (multiset(ended.out) + d) + multiset(more);
    assert multiset(o.out) + multiset(Due(o.s)) == (multiset(open.out) + multiset(Due(open.s))) + multiset(more);
  }

  lemma FailPaired(base: Sess, ended: Turn, open: Turn, code: string, terminate: bool)
    requires Paired(base, ended, open)
    ensures Paired(base, FailTurn(ended, code, terminate), FailTurn(open, code, terminate))
  {
    FailShadows(open.s, ended.s, code, terminate);
    FailCore(open.s, code, terminate);
    MoreEffects(base, ended, open, FailTurn(ended, code, terminate), FailTurn(open, code, terminate),
                FailEffects(open.s, code, terminate));
  }

  lemma SeekPaired(base: Sess, ended: Turn, open: Turn)
    requires Paired(base, ended, open)
    ensures Paired(base, Turn(SeekTermination(ended.s), ended.out + TerminateEffects(ended.s)),
                   Turn(SeekTermination(open.s), open.out + TerminateEffects(open.s)))
  {
    SeekShadows(open.s, ended.s);
    SeekReported(open.s, Turn(open.s, []));
    MoreEffects(base, ended, open, Turn(SeekTermination(ended.s), ended.out + TerminateEffects(ended.s)),
                Turn(SeekTermination(open.s), open.out + TerminateEffects(open.s)), TerminateEffects(open.s));
  }

  lemma ConcludePaired(base: Sess, ended: Turn, open: Turn, event: PublicEvent)
    requires Paired(base, ended, open) && Quiescent(event)
    ensures Paired(base, Conclude(ended, event), Conclude(open, event))
  {
    if event.OutputsFinalized? && event.status.kind.OutputsFailed? {
      FailPaired(base, ended, open, "output-finalization", false);
      SeekWhenFailed(base, FailTurn(ended, "output-finalization", false), FailTurn(open, "output-finalization", false));
    } else {
      SeekWhenFailed(base, ended, open);
    }
  }

  function SeekTurn(t: Turn): Turn {
    if t.s.failure.Some? then Turn(SeekTermination(t.s), t.out + TerminateEffects(t.s)) else t
  }

  lemma SeekWhenFailed(base: Sess, ended: Turn, open: Turn)
    requires Paired(base, ended, open)
    ensures Paired(base, SeekTurn(ended), SeekTurn(open))
  {
    SeekPaired(base, ended, open);
    assert ended.s.failure == open.s.failure;
  }

  /** An event leaves an open lifecycle open, with its attachment and acknowledgement as they were. */
  predicate KeptOpen(l: Life, m: Life) {
    && Coherent(m) && (m.state.Active? || Ending(m.state))
    && m.attached == l.attached && !m.attachmentEnded && m.acknowledged == l.acknowledged
    && (l.recordingFailed ==> m.recordingFailed)
  }

  lemma EventKeepsOpen(l: Life, event: PublicEvent, now: Reading)
    requires Coherent(l) && !l.attachmentEnded && (l.state.Active? || Ending(l.state))
    requires Admits(l, Event(Some(event), now)) && Quiescent(event)
    ensures KeptOpen(l, Step(l, Event(Some(event), now)))
  {
    var c := Event(Some(event), now);
    NotedSound(l, now);
    LifeShadows(Noted(l, now), false, event, now.seconds);
    StepSound(l, c);
    StepTracks(l, c);
  }

  lemma OpenStays(s: Sess, l: Life)
    requires Open(s) && KeptOpen(s.life, l)
    ensures Open(WithLife(s, l)) && ReportEndReply(WithLife(s, l)).Quiet?
  {
  }

  lemma SeenOpen(s: Sess, event: PublicEvent, now: Reading)
    requires Open(s) && Admits(s.life, Event(Some(event), now)) && Quiescent(event)
    ensures Open(Seen(s, event, now)) && ReportEndReply(Seen(s, event, now)).Quiet?
  {
    EventKeepsOpen(s.life, event, now);
    OpenStays(s, Step(s.life, Event(Some(event), now)));
  }

  lemma AnswerIs(l: Life, event: PublicEvent, now: Reading)
    requires Admits(l, Event(Some(event), now))
    ensures Step(l, Event(Some(event), now)) == AfterEvent(Noted(l, now), event, now.seconds)
    ensures Answer(l, Event(Some(event), now)) == EventReply(Noted(l, now), event)
  {
  }

  lemma NotedOver(l: Life, stopped: bool, now: Reading)
    ensures Noted(OverLife(l, stopped), now) == OverLife(Noted(l, now), stopped)
  {
  }

  lemma ReportedShadows(s: Sess, n: Sess, stopped: bool)
    requires Open(s) && s.life.state.TerminatingState? && TakeEnd(n.life) == OverLife(s.life, stopped)
    requires n == Ended(s, stopped).(endReported := false, life := n.life)
    requires !n.life.attachmentEnded && Ending(n.life.state)
    ensures Shadows(s, ReportEnd(n)) && ReportEndReply(n).Quiet?
  {
    assert Step(n.life, AttachmentEnd(n.connected)) == TakeEnd(n.life);
    assert ReportEnd(n) == EndReported(n);
  }

  /** Giving both sessions their next lifecycles keeps the one the other's shadow. */
  lemma RelifeEnded(s: Sess, stopped: bool, l: Life)
    requires Ending(l.state) == Ending(s.life.state)
    ensures WithLife(Ended(s, stopped), OverLife(l, stopped)) == Ended(WithLife(s, l), stopped)
  {
  }

  lemma EndedIsSettled(s: Sess, stopped: bool)
    ensures var n := Ended(s, stopped); ReportEnd(n) == n && ReportEndReply(n).Quiet?
  {
  }

  lemma RelifeTerminating(s: Sess, stopped: bool, l: Life, n: Life)
    requires s.life.state.Active? && Ending(l.state)
    ensures WithLife(Ended(s, stopped), n) == Ended(WithLife(s, l), stopped).(endReported := false, life := n)
  {
  }

  lemma SeenShadows(s: Sess, m: Sess, event: PublicEvent, now: Reading)
    requires Open(s) && Shadows(s, m) && Quiescent(event)
    requires Admits(s.life, Event(Some(event), now)) && Admits(m.life, Event(Some(event), now))
    ensures var n := Seen(m, event, now);
      Shadows(Seen(s, event, now), ReportEnd(n)) && ReportEndReply(n).Quiet?
  {
    var l, stopped := Noted(s.life, now), m.life.recordingFailed;
    NotedSound(s.life, now);
    NotedOver(s.life, stopped, now);
    LifeShadows(l, stopped, event, now.seconds);
    AnswerIs(s.life, event, now);
    AnswerIs(m.life, event, now);
    SeenOpen(s, event, now);
    ShadowsAfter(s, stopped, event, AfterEvent(l, event, now.seconds),
                 AfterEvent(OverLife(l, stopped), event, now.seconds),
                 l, now.seconds);
  }

  lemma ShadowsAfter(s: Sess, stopped: bool, event: PublicEvent, o: Life, n: Life, l: Life, now: real)
    requires Open(s) && Quiescent(event) && l.state == s.life.state && o == AfterEvent(l, event, now)
      && AdmitsEvent(l, event, now)
    requires Open(WithLife(s, o))
    requires if event.Terminating? then TakeEnd(n) == OverLife(o, stopped) && !n.attachmentEnded && Ending(n.state)
             else n == OverLife(o, stopped)
    ensures var m := WithLife(Ended(s, stopped), n);
      Shadows(WithLife(s, o), ReportEnd(m)) && ReportEndReply(m).Quiet?
  {
    if event.Terminating? {
      assert TakeTerminating(l, event.cause).state.TerminatingState?;
      RelifeTerminating(s, stopped, o, n);
      ReportedShadows(WithLife(s, o), WithLife(Ended(s, stopped), n), stopped);
    } else {
      SameEnding(l, event, now);
      RelifeEnded(s, stopped, o);
      EndedIsSettled(WithLife(s, o), stopped);
    }
  }

  lemma SameEnding(l: Life, event: PublicEvent, now: real)
    requires AdmitsEvent(l, event, now) && Quiescent(event) && !event.Terminating?
    ensures Ending(AfterEvent(l, event, now).state) == Ending(l.state)
    ensures l.state.Finalized? ==> AfterEvent(l, event, now).state.Finalized?
  {
    if event.WorkloadExit? {
      assert TakeExit(l, event.status).state == l.state;
    } else if event.OutputsFinalized? {
      assert TakeOutputs(l, event.status).state.Finalized?;
    }
  }

  /** A finalization falls due once, whichever side has already emitted it. */
  lemma DueOnce(terminating: bool, was: bool, final: bool)
    requires was ==> final
    ensures multiset(When(terminating, SessionTerminating) + When(final && !was, FinalizeArtifacts))
      + multiset(When(was, FinalizeArtifacts))
         == multiset(When(terminating, SessionTerminating)) + multiset(When(final, FinalizeArtifacts))
  {
  }

  lemma LifeEffects(l: Life, stopped: bool, event: PublicEvent, now: real)
    requires Coherent(l) && !l.attachmentEnded && (l.state.Active? || Ending(l.state))
    requires AdmitsEvent(l, event, now) && Quiescent(event)
    ensures multiset(Emits(EventReply(OverLife(l, stopped), event)))
      + multiset(When(l.state.Finalized?, FinalizeArtifacts))
         == multiset(Emits(EventReply(l, event)))
           + multiset(When(AfterEvent(l, event, now).state.Finalized?, FinalizeArtifacts))
  {
    LifeShadows(l, stopped, event, now);
    if !event.Terminating? {
      SameEnding(l, event, now);
    }
    DueOnce(event.Terminating?, l.state.Finalized?, AfterEvent(l, event, now).state.Finalized?);
  }

  lemma SeenEffects(s: Sess, m: Sess, event: PublicEvent, now: Reading)
    requires Open(s) && Shadows(s, m) && Quiescent(event)
    requires Admits(s.life, Event(Some(event), now)) && Admits(m.life, Event(Some(event), now))
    ensures var c := Event(Some(event), now);
      multiset(Emits(Answer(m.life, c))) + multiset(Due(s))
        == multiset(Emits(Answer(s.life, c))) + multiset(Due(Seen(s, event, now)))
  {
    NotedSound(s.life, now);
    NotedOver(s.life, m.life.recordingFailed, now);
    AnswerIs(s.life, event, now);
    AnswerIs(m.life, event, now);
    LifeEffects(Noted(s.life, now), m.life.recordingFailed, event, now.seconds);
  }

  lemma QuietEnd(t: Turn)
    requires ReportEndReply(t.s).Quiet?
    ensures EndTurn(t) == Turn(ReportEnd(t.s), t.out)
  {
    assert t.out + [] == t.out;
  }

  lemma EffectsChain(a: Effects, b: Effects, x: Effects, y: Effects, base: Effects, due: Effects, later: Effects)
    requires multiset(a) + multiset(base) == multiset(b) + multiset(due)
    requires multiset(x) + multiset(due) == multiset(y) + multiset(later)
    ensures multiset(a + x) + multiset(base) == multiset(b + y) + multiset(later)
  {
    assert multiset(a + x) + multiset(base) == (multiset(a) + multiset(base)) + multiset(x);
    assert multiset(b + y) + multiset(later) == multiset(b) + (multiset(y) + multiset(later));
  }

  lemma SeenPaired(base: Sess, ended: Turn, open: Turn, event: PublicEvent, now: Reading)
    requires Paired(base, ended, open) && Quiescent(event)
    requires Admits(open.s.life, Event(Some(event), now)) && Admits(ended.s.life, Event(Some(event), now))
    ensures var c := Event(Some(event), now);
      && Paired(base, EndTurn(LifeTurn(ended, c)), EndTurn(LifeTurn(open, c)))
      && ReportEndReply(LifeTurn(ended, c).s).Quiet? && ReportEndReply(LifeTurn(open, c).s).Quiet?
  {
    var c := Event(Some(event), now);
    SeenOpen(open.s, event, now);
    SeenShadows(open.s, ended.s, event, now);
    SeenEffects(open.s, ended.s, event, now);
    var a, b := LifeTurn(ended, c), LifeTurn(open, c);
    QuietEnd(a);
    QuietEnd(b);
    EffectsChain(ended.out, open.out, Emits(Answer(ended.s.life, c)), Emits(Answer(open.s.life, c)),
                 Due(base), Due(open.s), Due(b.s));
  }

  lemma InterpretRelated(base: Sess, ended: Turn, open: Turn, event: PublicEvent, now: Reading)
    requires Paired(base, ended, open)
    ensures Related(base, Interpret(ended, event, now), Interpret(open, event, now))
  {
    var c := Event(Some(event), now);
    SameAdmission(open.s.life, ended.s.life.recordingFailed, event, now);
    if Admits(open.s.life, c) {
      SeenPaired(base, ended, open, event, now);
      ConcludePaired(base, EndTurn(LifeTurn(ended, c)), EndTurn(LifeTurn(open, c)), event);
    } else {
      RefusedFails(ended, c);
      RefusedFails(open, c);
    }
  }

  lemma RefusedFails(t: Turn, c: Call)
    requires c.Event? && !Admits(t.s.life, c)
    ensures FailTurn(LifeTurn(t, c), "client-lifecycle", false).s.life.state.Failed?
  {
  }

  lemma RetainedRelated(base: Sess, s: Sess, m: Sess, event: PublicEvent, now: Reading, ok: bool)
    requires Open(s) && Shadows(s, m) && Due(base) == Due(s)
    ensures Related(base, OnRetained(m, event, now, ok), OnRetained(s, event, now, ok))
  {
    if !ok {
      FailAloneRelated(s, m, base, "event-retention", true);
    } else if event.ClientError? {
      FailAloneRelated(s, m, base, event.code, false);
      InterpretRelated(base, FailAlone(m, event.code, false), FailAlone(s, event.code, false), event, now);
    } else {
      InterpretRelated(base, Turn(m, []), Turn(s, []), event, now);
    }
  }

  lemma EvidenceShadows(s: Sess, m: Sess, kept: bytes)
    requires Open(s) && Shadows(s, m)
    ensures Open(WithEventLog(s, kept)) && Shadows(WithEventLog(s, kept), WithEventLog(m, kept))
    ensures Due(WithEventLog(s, kept)) == Due(s)
  {
  }

  /** One public event line, with or without the attachment end before it. */
  lemma LineRelated(s: Sess, m: Sess, c: Report)
    requires Open(s) && Shadows(s, m) && Possible(c) && c.Line?
    ensures Related(s, AfterReport(m, c, 0), AfterReport(s, c, 0))
  {
    if c.event.None? {
      FailAloneRelated(s, m, s, "client-schema", true);
    } else if !Retains(c.event.value) {
      InterpretRelated(s, Turn(m, []), Turn(s, []), c.event.value, c.now);
    } else {
      var kept := c.line[..c.written.kept];
      EvidenceShadows(s, m, kept);
      RetainedRelated(s, WithEventLog(s, kept), WithEventLog(m, kept), c.event.value, c.now, c.written.ok);
    }
  }

  lemma FailAloneRelated(s: Sess, m: Sess, base: Sess, code: string, terminate: bool)
    requires Open(s) && Shadows(s, m) && Due(base) == Due(s)
    ensures Paired(base, FailAlone(m, code, terminate), FailAlone(s, code, terminate))
  {
    FailShadows(s, m, code, terminate);
    FailCore(s, code, terminate);
  }

  // ---------- Any number of events ----------

  ghost predicate Lines(reports: seq<Report>) {
    forall c :: c in reports ==> Possible(c) && c.Line?
  }

  /** A session and the bag of effects of its reports. */
  datatype Bagged = Bagged(s: Sess, bag: multiset<Effect>)

  function Feed(b: Bagged, reports: seq<Report>): Bagged
    requires forall c :: c in reports ==> Possible(c)
    decreases |reports|
  {
    if reports == [] then b
    else Feed(FeedOne(b, reports[0]), reports[1..])
  }

  /** The two runs after the same lines: with the end taken in, and without. */
  predicate RunsRelated(a: Bagged, b: Bagged) {
    || (a.s.life.state.Failed? && b.s.life.state.Failed?)
    || (Open(b.s) && Shadows(b.s, a.s) && a.bag == b.bag + multiset(Due(b.s)))
  }

  function FeedOne(b: Bagged, c: Report): Bagged
    requires Possible(c)
  {
    var t := AfterReport(b.s, c, 0);
    Bagged(t.s, b.bag + multiset(t.out))
  }

  lemma FeedOneRelated(a: Bagged, b: Bagged, c: Report)
    requires RunsRelated(a, b) && Possible(c) && c.Line?
    ensures RunsRelated(FeedOne(a, c), FeedOne(b, c))
  {
    if a.s.life.state.Failed? && b.s.life.state.Failed? {
      LineStaysFailed(a.s, c);
      LineStaysFailed(b.s, c);
    } else {
      LineRelated(b.s, a.s, c);
      BagsAgree(a.bag, b.bag, AfterReport(a.s, c, 0).out, AfterReport(b.s, c, 0).out, Due(b.s),
                Due(AfterReport(b.s, c, 0).s));
    }
  }

  lemma BagsAgree(a: multiset<Effect>, b: multiset<Effect>, x: Effects, y: Effects, due: Effects, later: Effects)
    requires a == b + multiset(due)
    ensures multiset(x) + multiset(due) == multiset(y) + multiset(later) ==>
      a + multiset(x) == (b + multiset(y)) + multiset(later)
  {
    if multiset(x) + multiset(due) == multiset(y) + multiset(later) {
      assert a + multiset(x) == b + (multiset(x) + multiset(due));
    }
  }

  lemma {:induction false} FeedRelated(a: Bagged, b: Bagged, reports: seq<Report>)
    requires RunsRelated(a, b) && Lines(reports)
    ensures RunsRelated(Feed(a, reports), Feed(b, reports))
    decreases |reports|
  {
    if reports != [] {
      FeedOneRelated(a, b, reports[0]);
      FeedRelated(FeedOne(a, reports[0]), FeedOne(b, reports[0]), reports[1..]);
    }
  }

  lemma InterpretStaysFailed(t: Turn, event: PublicEvent, now: Reading)
    requires t.s.life.state.Failed?
    ensures Interpret(t, event, now).s.life.state.Failed?
  {
    assert !Admits(t.s.life, Event(Some(event), now));
    RefusedFails(t, Event(Some(event), now));
  }

  lemma FailStaysFailed(s: Sess, code: string, terminate: bool)
    requires s.life.state.Failed?
    ensures FailAlone(s, code, terminate).s.life.state.Failed?
  {
  }

  lemma LineStaysFailed(s: Sess, c: Report)
    requires s.life.state.Failed? && Possible(c) && c.Line?
    ensures AfterReport(s, c, 0).s.life.state.Failed?
  {
    if c.event.None? {
      FailStaysFailed(s, "client-schema", true);
    } else if !Retains(c.event.value) {
      InterpretStaysFailed(Turn(s, []), c.event.value, c.now);
    } else {
      var kept := WithEventLog(s, c.line[..c.written.kept]);
      if !c.written.ok {
        FailStaysFailed(kept, "event-retention", true);
      } else if c.event.value.ClientError? {
        FailStaysFailed(kept, c.event.value.code, false);
        InterpretStaysFailed(FailAlone(kept, c.event.value.code, false), c.event.value, c.now);
      } else {
        InterpretStaysFailed(Turn(kept, []), c.event.value, c.now);
      }
    }
  }

  lemma {:induction false} FeedAppend(b: Bagged, xs: seq<Report>, ys: seq<Report>)
    requires Lines(xs) && forall c :: c in ys ==> Possible(c)
    ensures forall c :: c in xs + ys ==> Possible(c)
    ensures Feed(b, xs + ys) == Feed(Feed(b, xs), ys)
    decreases |xs|
  {
    if xs == [] {
      assert xs + ys == ys;
    } else {
      assert (xs + ys)[1..] == xs[1..] + ys;
      FeedAppend(FeedOne(b, xs[0]), xs[1..], ys);
    }
  }

  /**
   * Race confluence: on an open session, wherever a clean attachment end falls among public events,
   * either both orders fail, or the session arrives in the same place (up to the recording flag)
   * having emitted the same effects, and finalization was asked for once, exactly if outputs are final.
   */
  lemma AttachmentEndCommutes(s: Sess, before: seq<Report>, after: seq<Report>)
    requires Open(s) && Lines(before) && Lines(after)
    ensures forall c :: c in before + ([AttachmentDown(0)] + after) ==> Possible(c)
    ensures RunsRelated(Feed(Bagged(s, multiset{}), before + ([AttachmentDown(0)] + after)),
                        Feed(Bagged(s, multiset{}), before + after))
  {
    var start, up := Bagged(s, multiset{}), AttachmentDown(0);
    FeedAppend(start, before, after);
    FeedAppend(start, before, [up] + after);
    var mid := Feed(start, before);
    FeedRelated(Bagged(Ended(s, false), multiset(Due(s))), start, before);
    EndRelated(mid);
    assert ([up] + after)[0] == up && ([up] + after)[1..] == after;
    FeedRelated(FeedOne(mid, up), mid, after);
  }

  lemma EndRelated(b: Bagged)
    requires b.s.life.state.Failed? || Open(b.s)
    ensures RunsRelated(FeedOne(b, AttachmentDown(0)), b)
  {
    if b.s.life.state.Failed? {
      EndStaysFailed(b.s);
    } else {
      EndShadows(b.s);
    }
  }

  lemma EndStaysFailed(s: Sess)
    requires s.life.state.Failed?
    ensures OnAttachmentEnded(s, 0).s.life.state.Failed?
  {
    FailStaysFailed(s, "attachment-order", true);
    FailStaysFailed(EndTurn(EndCause(EndSeen(s), 0)).s, "attachment-order", true);
  }
}
