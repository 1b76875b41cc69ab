/** The public session lifecycle (`ReployLifecycle`): which local action each public event permits. */
module Reploy {
  import opened Common

  /** The operations granted when the session opens; each appears at most once on the wire. */
  datatype Grants = Grants(input: bool, resize: bool, terminate: bool, complete: bool)

  datatype Cause =
    | ControllerTerminate | WorkloadExited | HostCancel | ControllerLost
    | ObservationLost | ContainmentLost | StartupFailure

  datatype StatusKind = Unknown | Exited | Killed | Unavailable | Drained | OutputsFailed

  /** A process or output status; an absent reason reads as the empty one. */
  datatype Status = Status(kind: StatusKind, code: Option<int>, reason: Option<string>)

  predicate SameStatus(a: Status, b: Status) {
    a.kind == b.kind && a.code == b.code && Reason(a) == Reason(b)
  }

  function Reason(s: Status): string {
    if s.reason.Some? then s.reason.value else ""
  }

  datatype SessionResult = SessionResult(
    cause: Cause, workload: Status, outputs: Status,
    maintained: bool, controllerCompleted: bool, cleanedUp: bool, needsRecovery: bool)

  /** A decoded public event. */
  datatype PublicEvent =
    | BrokerReady
    | Opened(grants: Grants)
    | ReadyEvent
    | WorkloadExit(status: Status)
    | Terminating(cause: Cause)
    | Diagnostic
    | ClientError(code: string)
    | OutputsFinalized(status: Status)
    | Terminated(result: SessionResult)

  datatype Effect =
    | Attach | BootstrapEnvoy | SessionTerminating | FinalizeArtifacts
    | SendTerminate | SendComplete | ResultReady | SendAcknowledge
    | LaunchClient | RetainPartial | CancelOperation(id: string)

  /** How a lifecycle call ends: an error, or success with at most one authorised effect. */
  datatype Reply = Raised | Quiet | Emit(effect: Effect)

  function Emits(r: Reply): seq<Effect> {
    if r.Emit? then [r.effect] else []
  }

  datatype State = WaitBroker | WaitOpened | WaitReady | Active | TerminatingState | Finalized | Result | Failed

  predicate Starting(s: State) { s.WaitOpened? || s.WaitReady? }
  predicate Running(s: State) { s.Active? || s.TerminatingState? }
  predicate Ending(s: State) { s.TerminatingState? || s.Finalized? }

  /** A monotonic clock reading, or none. */
  datatype Reading = Never | At(seconds: real)

  const ATTACH_TIMEOUT_SECONDS: real := 10.0

  /** The retained facts of a lifecycle. */
  datatype Life = Life(
    state: State, grants: Option<Grants>, result: Option<SessionResult>,
    deadline: Reading, lastTime: Reading,
    attached: bool, attachmentEnded: bool, bootstrapSent: bool, envoyReady: bool,
    workload: Option<Status>, cause: Option<Cause>, outputs: Option<Status>,
    finalizationRequested: bool, completeSent: bool, recordingFailed: bool,
    terminationRequested: bool, acknowledged: bool, brokerClosed: bool)

  const Fresh := Life(WaitBroker, None, None, Never, Never, false, false, false, false,
                      None, None, None, false, false, false, false, false, false)

  predicate CanRecord(l: Life) {
    l.state.Active? && l.envoyReady && !l.recordingFailed && !l.terminationRequested
  }

  predicate MayInput(g: Option<Grants>) { g.Some? && g.value.input }
  predicate MayTerminate(g: Option<Grants>) { g.Some? && g.value.terminate }
  predicate MayComplete(g: Option<Grants>) { g.Some? && g.value.complete }

  predicate Live(l: Life) { !l.state.Result? && !l.state.Failed? }

  /** A usable observation time is finite and does not precede the last one; `Never` stands for any unusable value. */
  predicate Monotonic(l: Life, now: Reading) {
    now.At? && (l.lastTime.At? ==> l.lastTime.seconds <= now.seconds)
  }

  predicate InTime(l: Life, now: real) {
    l.attached || l.deadline.Never? || now < l.deadline.seconds
  }

  /** Bootstrap is due once the session is active and attached, unless recording has stopped. */
  predicate BootstrapDue(l: Life) { !l.bootstrapSent && !l.recordingFailed }

  // ---------- One call ----------

  datatype Call =
    | Event(event: Option<PublicEvent>, now: Reading)
    | Connected(now: Reading)
    | CheckDeadline(now: Reading)
    | StopRecording
    | EnvoyReady
    | AttachmentEnd(connected: bool)
    | ArtifactsDone
    | RequestTermination
    | Acknowledge
    | BrokerClosed(exitCode: int)

  predicate AdmitsEvent(l: Life, event: PublicEvent, now: real) {
    match event
    case BrokerReady => l.state.WaitBroker?
    case Opened(_) => l.state.WaitOpened?
    case ReadyEvent => l.state.WaitReady? && InTime(l, now) && (l.attached && BootstrapDue(l) ==> MayInput(l.grants))
    case Diagnostic => !l.state.WaitBroker?
    case ClientError(_) => false
    case WorkloadExit(_) => Running(l.state) && l.workload.None?
    case Terminating(cause) => l.state.Active? && (cause.WorkloadExited? ==> l.workload.Some?)
    case OutputsFinalized(_) => l.state.TerminatingState?
    case Terminated(result) => ResultAgrees(l, result)
  }

  predicate StartupFailed(l: Life, result: SessionResult) {
    Starting(l.state) && result.cause.StartupFailure?
  }

  predicate CompletedAgrees(l: Life, result: SessionResult) {
    && l.state.Finalized? && l.completeSent
    && l.cause.Some? && l.cause.value == result.cause
    && l.outputs.Some? && SameStatus(result.outputs, l.outputs.value)
  }

  /** When the authoritative result may be taken. */
  predicate ResultAgrees(l: Life, result: SessionResult) {
    && (StartupFailed(l, result) || CompletedAgrees(l, result))
    && (l.workload.Some? ==> SameStatus(result.workload, l.workload.value))
  }

  predicate Timely(l: Life, now: Reading) { Live(l) && Monotonic(l, now) }

  predicate ConnectsNow(l: Life, now: Reading) {
    Timely(l, now) && InTime(l, now.seconds) && l.deadline.At? && !l.attached
  }

  predicate Admits(l: Life, c: Call) {
    match c
    case Event(event, now) => event.Some? && Timely(l, now) && AdmitsEvent(Noted(l, now), event.value, now.seconds)
    case Connected(now) => ConnectsNow(l, now) && (l.state.Active? && BootstrapDue(l) ==> MayInput(l.grants))
    case CheckDeadline(now) => Timely(l, now) && InTime(l, now.seconds)
    case StopRecording => true
    case EnvoyReady => l.state.Active? && l.bootstrapSent && l.attached && !l.envoyReady
    case AttachmentEnd(connected) => l.attached == connected && !l.attachmentEnded && Ending(l.state)
    case ArtifactsDone => l.state.Finalized? && l.finalizationRequested && !l.completeSent && MayComplete(l.grants)
    case RequestTermination => l.state.Active? && MayTerminate(l.grants)
    case Acknowledge => l.state.Result? && !l.acknowledged
    case BrokerClosed(exitCode) => exitCode == 0 && l.state.Result? && l.acknowledged && !l.brokerClosed
  }

  function TakeBrokerReady(l: Life, now: real): Life {
    l.(deadline := At(now + ATTACH_TIMEOUT_SECONDS), state := WaitOpened)
  }
  function Noted(l: Life, now: Reading): Life { l.(lastTime := now) }
  function TakeOpened(l: Life, given: Grants): Life {
    l.(grants := Some(given), state := WaitReady)
  }
  function TakeReady(l: Life): Life {
    l.(state := Active, bootstrapSent := l.bootstrapSent || (l.attached && BootstrapDue(l)))
  }
  function TakeExit(l: Life, status: Status): Life { l.(workload := Some(status)) }
  function TakeTerminating(l: Life, cause: Cause): Life {
    l.(cause := Some(cause), state := TerminatingState)
  }
  function TakeOutputs(l: Life, status: Status): Life {
    l.(outputs := Some(status), state := Finalized,
       finalizationRequested := l.finalizationRequested || l.attachmentEnded)
  }
  function TakeResult(l: Life, result: SessionResult): Life {
    l.(result := Some(result), state := Result)
  }

  function AfterEvent(l: Life, event: PublicEvent, now: real): Life {
    match event
    case BrokerReady => TakeBrokerReady(l, now)
    case Opened(given) => TakeOpened(l, given)
    case ReadyEvent => TakeReady(l)
    case Diagnostic => l
    case ClientError(_) => l
    case WorkloadExit(status) => TakeExit(l, status)
    case Terminating(cause) => TakeTerminating(l, cause)
    case OutputsFinalized(status) => TakeOutputs(l, status)
    case Terminated(result) => TakeResult(l, result)
  }

  function TakeConnection(l: Life, now: Reading): Life {
    l.(lastTime := now, attached := true, bootstrapSent := l.bootstrapSent || (l.state.Active? && BootstrapDue(l)))
  }
  function TakeEnd(l: Life): Life {
    l.(attachmentEnded := true, finalizationRequested := l.finalizationRequested || l.state.Finalized?)
  }
  function SetRecordingFailed(l: Life): Life { l.(recordingFailed := true) }
  function SetEnvoyReady(l: Life): Life { l.(envoyReady := true) }
  function SetComplete(l: Life): Life { l.(completeSent := true) }
  function SetTermination(l: Life): Life { l.(terminationRequested := true) }
  function SetAcknowledged(l: Life): Life { l.(acknowledged := true) }
  function SetBrokerClosed(l: Life): Life { l.(brokerClosed := true) }

  /** The state after an admitted call. */
  function Next(l: Life, c: Call): Life
    requires Admits(l, c)
  {
    match c
    case Event(event, now) => AfterEvent(Noted(l, now), event.value, now.seconds)
    case Connected(now) => TakeConnection(l, now)
    case CheckDeadline(now) => Noted(l, now)
    case StopRecording => SetRecordingFailed(l)
    case EnvoyReady => SetEnvoyReady(l)
    case AttachmentEnd(_) => TakeEnd(l)
    case ArtifactsDone => SetComplete(l)
    case RequestTermination => SetTermination(l)
    case Acknowledge => SetAcknowledged(l)
    case BrokerClosed(_) => SetBrokerClosed(l)
  }

  /** A refused call fails the session for good; a valid time has still been recorded. */
  function Broken(l: Life, c: Call): Life {
    match c
    case Event(event, now) => Fail(if event.Some? && Timely(l, now) then Noted(l, now) else l)
    case Connected(now) => FailConnection(if Timely(l, now) then Noted(l, now) else l, ConnectsNow(l, now))
    case CheckDeadline(now) => Fail(if Timely(l, now) then Noted(l, now) else l)
    case _ => Fail(l)
  }

  function Fail(l: Life): Life { l.(state := Failed) }
  function FailConnection(l: Life, connected: bool): Life { l.(state := Failed, attached := l.attached || connected) }

  function EventReply(l: Life, event: PublicEvent): Reply {
    match event
    case BrokerReady => Emit(Attach)
    case ReadyEvent => if l.attached && BootstrapDue(l) then Emit(BootstrapEnvoy) else Quiet
    case Terminating(_) => Emit(SessionTerminating)
    case OutputsFinalized(_) => if l.attachmentEnded && !l.finalizationRequested then Emit(FinalizeArtifacts) else Quiet
    case Terminated(_) => Emit(ResultReady)
    case _ => Quiet
  }

  /** What an admitted call authorises. */
  function Authorised(l: Life, c: Call): Reply
    requires Admits(l, c)
  {
    match c
    case Event(event, now) => EventReply(Noted(l, now), event.value)
    case Connected(_) => if l.state.Active? && BootstrapDue(l) then Emit(BootstrapEnvoy) else Quiet
    case AttachmentEnd(_) => if l.state.Finalized? && !l.finalizationRequested then Emit(FinalizeArtifacts) else Quiet
    case ArtifactsDone => Emit(SendComplete)
    case RequestTermination => if l.terminationRequested then Quiet else Emit(SendTerminate)
    case Acknowledge => Emit(SendAcknowledge)
    case _ => Quiet
  }

  function Step(l: Life, c: Call): Life {
    if Admits(l, c) then Next(l, c) else Broken(l, c)
  }

  function Answer(l: Life, c: Call): Reply {
    if Admits(l, c) then Authorised(l, c) else Raised
  }

  // ---------- Any sequence of calls ----------

  /** A lifecycle together with every effect it has emitted. */
  datatype Run = Run(life: Life, emitted: seq<Effect>)

  function Extend(r: Run, c: Call): Run {
    Run(Step(r.life, c), r.emitted + Emits(Answer(r.life, c)))
  }

  function After(calls: seq<Call>): Run {
    if calls == [] then Run(Fresh, []) else Extend(After(calls[..|calls| - 1]), calls[|calls| - 1])
  }

  /** The public protocol: what must, and must not, have been emitted before an effect. */
  predicate Permitted(before: seq<Effect>, e: Effect) {
    && e !in before
    && match e
       case Attach => true
       case BootstrapEnvoy => Attach in before && SessionTerminating !in before
       case SendTerminate => Attach in before && SessionTerminating !in before
       case SessionTerminating => Attach in before
       case FinalizeArtifacts => SessionTerminating in before
       case SendComplete => FinalizeArtifacts in before
       case ResultReady =>
         || SendComplete in before
         || (Attach in before && SessionTerminating !in before && BootstrapEnvoy !in before && SendTerminate !in before)
       case SendAcknowledge => ResultReady in before
       case _ => false
  }

  ghost predicate Protocol(emitted: seq<Effect>) {
    forall j :: 0 <= j < |emitted| ==> Permitted(emitted[..j], emitted[j])
  }

  lemma ProtocolSnoc(h: seq<Effect>, e: Effect)
    requires Protocol(h) && Permitted(h, e)
    ensures Protocol(h + [e])
  {
    forall j | 0 <= j < |h + [e]| ensures Permitted((h + [e])[..j], (h + [e])[j]) {
      assert (h + [e])[..j] == if j < |h| then h[..j] else h;
    }
  }

  /** The latch a lifecycle keeps for each effect. */
  predicate Latch(l: Life, e: Effect) {
    match e
    case Attach => l.deadline.At?
    case BootstrapEnvoy => l.bootstrapSent
    case SessionTerminating => l.cause.Some?
    case FinalizeArtifacts => l.finalizationRequested
    case SendComplete => l.completeSent
    case SendTerminate => l.terminationRequested
    case ResultReady => l.result.Some?
    case SendAcknowledge => l.acknowledged
    case _ => false
  }

  /** Each latch is set exactly when its effect has been emitted. */
  ghost predicate Latched(l: Life, h: seq<Effect>) {
    forall e :: Latch(l, e) <==> e in h
  }

  predicate Opening(s: State) { s.WaitBroker? || Starting(s) }

  predicate Coherent(l: Life) {
    && (l.state.WaitBroker? ==> l.deadline.Never?)
    && (!l.state.WaitBroker? && !l.state.Failed? ==> l.deadline.At?)
    && (Opening(l.state) ==> !l.bootstrapSent && !l.terminationRequested && l.workload.None? && !l.envoyReady)
    && (l.state.WaitReady? || l.state.Active? || Ending(l.state) ==> l.grants.Some?)
    && (Opening(l.state) || l.state.Active? ==> l.cause.None? && !l.attachmentEnded)
    && (Ending(l.state) ==> l.cause.Some?)
    && (Opening(l.state) || Running(l.state) ==> l.outputs.None? && !l.finalizationRequested && !l.completeSent)
    && (l.state.Finalized? ==> l.outputs.Some? && l.finalizationRequested == l.attachmentEnded)
    && (Live(l) ==> l.result.None? && !l.acknowledged)
    && (l.state.Result? ==> l.result.Some?)
    && (l.bootstrapSent ==> l.attached && MayInput(l.grants))
    && (l.terminationRequested ==> MayTerminate(l.grants))
    && (l.completeSent ==> MayComplete(l.grants) && l.finalizationRequested)
    && (l.result.Some? ==> RetainedAgrees(l.result.value, l.cause, l.completeSent, l.outputs, l.workload))
    && (l.acknowledged ==> l.result.Some?)
  }

  /** The stored result agrees with what the session had observed. */
  predicate RetainedAgrees(
    result: SessionResult, cause: Option<Cause>, completed: bool, outputs: Option<Status>, workload: Option<Status>)
  {
    && (cause.None? ==> result.cause.StartupFailure? && workload.None?)
    && (cause.Some? ==>
          completed && cause.value == result.cause && outputs.Some? && SameStatus(result.outputs, outputs.value))
    && (workload.Some? ==> SameStatus(result.workload, workload.value))
  }

  ghost predicate Good(r: Run) {
    Protocol(r.emitted) && Latched(r.life, r.emitted) && Coherent(r.life)
  }

  predicate Spent(l: Life) {
    l.recordingFailed || l.terminationRequested || !(Opening(l.state) || l.state.Active?)
  }

  /** What one call can never undo. */
  predicate Keeps(l: Life, m: Life) {
    && (l.result.Some? ==> m.result == l.result)
    && (Spent(l) ==> Spent(m))
    && (l.envoyReady ==> m.envoyReady)
    && (!Opening(l.state) ==> !Opening(m.state))
    && (l.state.Failed? ==> m.state.Failed?)
  }

  /** A call sets exactly the latch of the effect it authorises. */
  predicate SetsLatch(l: Life, m: Life, r: Reply) {
    && m.deadline.At? == (l.deadline.At? || (r.Emit? && r.effect.Attach?))
    && m.bootstrapSent == (l.bootstrapSent || (r.Emit? && r.effect.BootstrapEnvoy?))
    && m.cause.Some? == (l.cause.Some? || (r.Emit? && r.effect.SessionTerminating?))
    && m.finalizationRequested == (l.finalizationRequested || (r.Emit? && r.effect.FinalizeArtifacts?))
    && m.completeSent == (l.completeSent || (r.Emit? && r.effect.SendComplete?))
    && m.terminationRequested == (l.terminationRequested || (r.Emit? && r.effect.SendTerminate?))
    && m.result.Some? == (l.result.Some? || (r.Emit? && r.effect.ResultReady?))
    && m.acknowledged == (l.acknowledged || (r.Emit? && r.effect.SendAcknowledge?))
    && (r.Emit? ==> !(r.effect.LaunchClient? || r.effect.RetainPartial? || r.effect.CancelOperation?))
  }

  predicate Sound(l: Life, m: Life, r: Reply) { Coherent(m) && Keeps(l, m) && SetsLatch(l, m, r) }

  lemma NotedSound(l: Life, now: Reading)
    requires Coherent(l)
    ensures Sound(l, Noted(l, now), Quiet)
  {
  }

  lemma PlainFailSound(l: Life)
    requires Coherent(l)
    ensures Sound(l, Fail(l), Raised)
  {
  }

  lemma FailSound(l: Life, connected: bool)
    requires Coherent(l)
    ensures Sound(l, Fail(l), Raised) && Sound(l, FailConnection(l, connected), Raised)
  {
    PlainFailSound(l);
    assert Coherent(FailConnection(l, connected)) && Keeps(l, FailConnection(l, connected));
  }

  lemma OpeningSound(l: Life, event: PublicEvent, now: real)
    requires Coherent(l) && AdmitsEvent(l, event, now)
    ensures event.BrokerReady? ==> Sound(l, TakeBrokerReady(l, now), Emit(Attach))
    ensures event.Opened? ==> Sound(l, TakeOpened(l, event.grants), Quiet)
    ensures event.ReadyEvent? ==> Sound(l, TakeReady(l), EventReply(l, event))
  {
  }

  lemma EndingSound(l: Life, event: PublicEvent, now: real)
    requires Coherent(l) && AdmitsEvent(l, event, now)
    ensures event.WorkloadExit? ==> Sound(l, TakeExit(l, event.status), Quiet)
    ensures event.Terminating? ==> Sound(l, TakeTerminating(l, event.cause), Emit(SessionTerminating))
    ensures event.OutputsFinalized? ==> Sound(l, TakeOutputs(l, event.status), EventReply(l, event))
  {
  }

  lemma ResultSound(l: Life, result: SessionResult)
    requires Coherent(l) && ResultAgrees(l, result)
    ensures Sound(l, TakeResult(l, result), Emit(ResultReady))
  {
  }

  lemma EventSound(l: Life, event: PublicEvent, now: real)
    requires Coherent(l) && AdmitsEvent(l, event, now)
    ensures Sound(l, AfterEvent(l, event, now), EventReply(l, event))
  {
    if event.BrokerReady? || event.Opened? || event.ReadyEvent? {
      OpeningSound(l, event, now);
    } else if event.Terminated? {
      ResultSound(l, event.result);
    } else {
      EndingSound(l, event, now);
    }
  }

  lemma AttachmentSound(l: Life, c: Call)
    requires Coherent(l) && Admits(l, c)
    ensures c.Connected? ==> Sound(l, TakeConnection(l, c.now), Authorised(l, c))
    ensures c.AttachmentEnd? ==> Sound(l, TakeEnd(l), Authorised(l, c))
    ensures c.EnvoyReady? ==> Sound(l, SetEnvoyReady(l), Quiet)
  {
  }

  lemma RequestSound(l: Life, c: Call)
    requires Coherent(l) && Admits(l, c)
    ensures c.ArtifactsDone? ==> Sound(l, SetComplete(l), Emit(SendComplete))
    ensures c.RequestTermination? ==> Sound(l, SetTermination(l), Authorised(l, c))
    ensures c.Acknowledge? ==> Sound(l, SetAcknowledged(l), Emit(SendAcknowledge))
  {
  }

  lemma FlagSound(l: Life, c: Call)
    requires Coherent(l)
    ensures c.StopRecording? ==> Sound(l, SetRecordingFailed(l), Quiet)
    ensures c.BrokerClosed? ==> Sound(l, SetBrokerClosed(l), Quiet)
  {
    StopSound(l);
    ClosedSound(l);
  }

  lemma StopSound(l: Life)
    requires Coherent(l)
    ensures Sound(l, SetRecordingFailed(l), Quiet)
  {
  }

  lemma ClosedSound(l: Life)
    requires Coherent(l)
    ensures Sound(l, SetBrokerClosed(l), Quiet)
  {
  }

  lemma SoundChain(l: Life, m: Life, n: Life, r: Reply)
    requires Sound(l, m, Quiet) && Sound(m, n, r)
    ensures Sound(l, n, r)
  {
  }

  lemma BrokenSound(l: Life, c: Call, now: Reading)
    requires Coherent(l)
    requires now == match c case Event(_, t) => t case Connected(t) => t case CheckDeadline(t) => t case _ => Never
    ensures Sound(l, Broken(l, c), Raised)
  {
    var m, k := Noted(l, now), ConnectsNow(l, now);
    NotedSound(l, now);
    FailSound(l, k);
    FailSound(m, k);
    SoundChain(l, m, Fail(m), Raised);
    SoundChain(l, m, FailConnection(m, k), Raised);
  }

  lemma StepSound(l: Life, c: Call)
    requires Coherent(l)
    ensures Sound(l, Step(l, c), Answer(l, c))
  {
    if !Admits(l, c) {
      var now := match c case Event(_, t) => t case Connected(t) => t case CheckDeadline(t) => t case _ => Never;
      BrokenSound(l, c, now);
    } else if c.Event? {
      var m := Noted(l, c.now);
      NotedSound(l, c.now);
      EventSound(m, c.event.value, c.now.seconds);
      SoundChain(l, m, Next(l, c), Answer(l, c));
    } else {
      NextSound(l, c);
    }
  }

  lemma NextSound(l: Life, c: Call)
    requires Coherent(l) && Admits(l, c) && !c.Event?
    ensures Sound(l, Next(l, c), Authorised(l, c))
  {
    AttachmentSound(l, c);
    RequestSound(l, c);
    FlagSound(l, c);
    if c.CheckDeadline? {
      NotedSound(l, c.now);
    }
  }

  lemma StepPermitted(l: Life, h: seq<Effect>, c: Call)
    requires Coherent(l) && Latched(l, h)
    ensures Answer(l, c).Emit? ==> Permitted(h, Answer(l, c).effect)
  {
    if Answer(l, c).Emit? {
      assert Latch(l, Attach) <==> Attach in h;
      assert Latch(l, SessionTerminating) <==> SessionTerminating in h;
      assert Latch(l, BootstrapEnvoy) <==> BootstrapEnvoy in h;
      assert Latch(l, FinalizeArtifacts) <==> FinalizeArtifacts in h;
      assert Latch(l, SendComplete) <==> SendComplete in h;
      assert Latch(l, SendTerminate) <==> SendTerminate in h;
      assert Latch(l, ResultReady) <==> ResultReady in h;
      assert Latch(l, SendAcknowledge) <==> SendAcknowledge in h;
    }
  }

  lemma LatchesKept(r: Run, c: Call)
    requires Good(r) && Sound(r.life, Step(r.life, c), Answer(r.life, c))
    ensures forall e :: Latch(Step(r.life, c), e) <==> e in r.emitted + Emits(Answer(r.life, c))
  {
    forall e ensures Latch(Step(r.life, c), e) <==> e in r.emitted + Emits(Answer(r.life, c)) {
      assert Latch(r.life, e) <==> e in r.emitted;
    }
  }

  lemma StepGood(r: Run, c: Call)
    requires Good(r)
    ensures Good(Extend(r, c))
  {
    StepSound(r.life, c);
    StepPermitted(r.life, r.emitted, c);
    var answer, h := Answer(r.life, c), r.emitted;
    if answer.Emit? {
      ProtocolSnoc(h, answer.effect);
    } else {
      assert h + Emits(answer) == h;
    }
    LatchesKept(r, c);
  }

  /**
   * Over every sequence of calls: each effect is emitted at most once and in protocol order,
   * terminate never follows session-terminating, and the retained result agrees with the
   * observed cause and statuses.
   */
  lemma {:induction false} EveryRunFollowsProtocol(calls: seq<Call>)
    ensures Good(After(calls))
  {
    if calls != [] {
      EveryRunFollowsProtocol(calls[..|calls| - 1]);
      StepGood(After(calls[..|calls| - 1]), calls[|calls| - 1]);
    }
  }

  /** Protocol order read as positions: nothing is emitted twice. */
  lemma EmittedOnce(calls: seq<Call>, i: nat, j: nat)
    requires i < j < |After(calls).emitted|
    ensures After(calls).emitted[i] != After(calls).emitted[j]
  {
    EveryRunFollowsProtocol(calls);
    var h := After(calls).emitted;
    assert Permitted(h[..j], h[j]);
    assert h[..j][i] == h[i];
  }

  lemma AfterSnoc(calls: seq<Call>, c: Call)
    ensures After(calls + [c]) == Extend(After(calls), c)
  {
    assert (calls + [c])[..|calls|] == calls;
  }

  lemma KeepsChain(l: Life, m: Life, n: Life)
    requires Keeps(l, m) && Keeps(m, n)
    ensures Keeps(l, n)
  {
  }

  lemma CallKeeps(calls: seq<Call>, c: Call)
    ensures Keeps(After(calls).life, After(calls + [c]).life)
  {
    EveryRunFollowsProtocol(calls);
    StepSound(After(calls).life, c);
    AfterSnoc(calls, c);
  }

  lemma {:induction false} MoreKeeps(calls: seq<Call>, more: seq<Call>)
    ensures Keeps(After(calls).life, After(calls + more).life)
    decreases |more|
  {
    if more == [] {
      assert calls + more == calls;
    } else {
      var front, last := more[..|more| - 1], more[|more| - 1];
      assert calls + more == (calls + front) + [last];
      MoreKeeps(calls, front);
      CallKeeps(calls + front, last);
      KeepsChain(After(calls).life, After(calls + front).life, After(calls + more).life);
    }
  }

  /** A stored result is never replaced, whatever is called afterwards; failure is final. */
  lemma ResultNeverChanges(calls: seq<Call>, more: seq<Call>)
    ensures After(calls).life.result.Some? ==> After(calls + more).life.result == After(calls).life.result
    ensures After(calls).life.state.Failed? ==> After(calls + more).life.state.Failed?
  {
    MoreKeeps(calls, more);
  }

  /** Admission of recording falls at most once. */
  lemma RecordingNeverReopens(calls: seq<Call>, more: seq<Call>, further: seq<Call>)
    requires CanRecord(After(calls).life) && !CanRecord(After(calls + more).life)
    ensures !CanRecord(After(calls + more + further).life)
  {
    MoreKeeps(calls, more);
    MoreKeeps(calls + more, further);
  }

  /** Call `j` of the run was refused. */
  ghost predicate RefusedAt(calls: seq<Call>, j: nat) {
    j < |calls| && !Admits(After(calls[..j]).life, calls[j])
  }

  lemma EventNeverFails(l: Life, event: PublicEvent, now: real)
    requires !l.state.Failed?
    ensures !AfterEvent(l, event, now).state.Failed?
  {
    match event
    case BrokerReady => assert !TakeBrokerReady(l, now).state.Failed?;
    case Opened(given) => assert !TakeOpened(l, given).state.Failed?;
    case ReadyEvent => assert !TakeReady(l).state.Failed?;
    case WorkloadExit(status) => assert TakeExit(l, status).state == l.state;
    case Terminating(cause) => assert !TakeTerminating(l, cause).state.Failed?;
    case OutputsFinalized(status) => assert !TakeOutputs(l, status).state.Failed?;
    case Terminated(result) => assert !TakeResult(l, result).state.Failed?;
    case _ =>
  }

  /** A call fails a lifecycle, whatever its state, exactly by being refused. */
  lemma FailsByRefusal(l: Life, c: Call)
    ensures Step(l, c).state.Failed? <==> l.state.Failed? || !Admits(l, c)
  {
    if Admits(l, c) && c.Event? {
      EventNeverFails(Noted(l, c.now), c.event.value, c.now.seconds);
    }
  }

  lemma RefusedSnoc(front: seq<Call>, c: Call)
    ensures (exists j :: RefusedAt(front + [c], j))
      <==> (exists j :: RefusedAt(front, j)) || !Admits(After(front).life, c)
  {
    var calls := front + [c];
    assert calls[..|front|] == front && calls[|front|] == c;
    forall j: nat | j < |front| ensures RefusedAt(calls, j) <==> RefusedAt(front, j) {
      assert calls[..j] == front[..j];
    }
    assert RefusedAt(calls, |front|) <==> !Admits(After(front).life, c);
  }

  /** A session has failed exactly if one of its calls was refused, even after its result. */
  lemma {:induction false} FailedExactly(calls: seq<Call>)
    ensures After(calls).life.state.Failed? <==> exists j :: RefusedAt(calls, j)
    decreases |calls|
  {
    if calls != [] {
      var front, c := calls[..|calls| - 1], calls[|calls| - 1];
      assert calls == front + [c];
      FailedExactly(front);
      FailsByRefusal(After(front).life, c);
      RefusedSnoc(front, c);
    }
  }

  /** A finished session that a late line moves to its failed state; the result stays. */
  lemma FinishedCanFail(result: SessionResult) returns (calls: seq<Call>, late: Call)
    requires result.cause.StartupFailure?
    ensures After(calls).life.state.Result? && After(calls).life.result == Some(result)
    ensures After(calls + [late]).life.state.Failed? && After(calls + [late]).life.result == Some(result)
  {
    var ready, end := Event(Some(BrokerReady), At(0.0)), Event(Some(PublicEvent.Terminated(result)), At(0.0));
    late := Event(Some(Diagnostic), At(0.0));
    calls := [ready, end];
    var l := TakeBrokerReady(Noted(Fresh, At(0.0)), 0.0);
    assert [ready][..0] == [] && calls[..1] == [ready] && (calls + [late])[..2] == calls;
    assert After([ready]).life == l;
    assert After(calls).life == TakeResult(Noted(l, At(0.0)), result);
  }

  // ---------- The mutable owner ----------

  lemma EventCases(l: Life, event: Option<PublicEvent>, now: Reading)
    ensures var c := Event(event, now);
      if event.None? || !Timely(l, now) then Step(l, c) == Fail(l) && Answer(l, c) == Raised
      else if AdmitsEvent(Noted(l, now), event.value, now.seconds)
      then Step(l, c) == AfterEvent(Noted(l, now), event.value, now.seconds)
        && Answer(l, c) == EventReply(Noted(l, now), event.value)
      else Step(l, c) == Fail(Noted(l, now)) && Answer(l, c) == Raised
  {
  }

  /** The state once a connection is confirmed, and its bootstrap is due, refused or not. */
  function Attaching(l: Life, r: Reply): Life {
    l.(attached := true, state := if r.Raised? then Failed else l.state, bootstrapSent := l.bootstrapSent || r.Emit?)
  }

  function BootstrapReply(l: Life): Reply {
    if !(l.state.Active? && BootstrapDue(l)) then Quiet else if MayInput(l.grants) then Emit(BootstrapEnvoy) else Raised
  }

  /** A timely confirmation is refused, or attaches. */
  lemma ConnectionCases(l: Life, now: Reading)
    requires Timely(l, now) && InTime(l, now.seconds)
    ensures var n, c := Noted(l, now), Connected(now);
      if l.deadline.At? && !l.attached
      then Answer(l, c) == BootstrapReply(n) && Step(l, c) == Attaching(n, BootstrapReply(n))
      else Answer(l, c) == Raised && Step(l, c) == Fail(n)
  {
  }

  class ReployLifecycle {
    var state: State
    var grants: Option<Grants>
    var result: Option<SessionResult>
    var attachmentDeadline: Reading
    var lastTime: Reading
    var attached: bool
    var attachmentEnded: bool
    var bootstrapSent: bool
    var envoyReady: bool
    var workloadStatus: Option<Status>
    var cause: Option<Cause>
    var outputStatus: Option<Status>
    var finalizationRequested: bool
    var completeSent: bool
    var recordingFailed: bool
    var terminationRequested: bool
    var acknowledged: bool
    var brokerClosed: bool

    function View(): Life
      reads this
    {
      Life(state, grants, result, attachmentDeadline, lastTime, attached, attachmentEnded, bootstrapSent,
           envoyReady, workloadStatus, cause, outputStatus, finalizationRequested, completeSent,
           recordingFailed, terminationRequested, acknowledged, brokerClosed)
    }

    constructor ()
      ensures View() == Fresh
    {
      state, grants, result, attachmentDeadline, lastTime := WaitBroker, None, None, Never, Never;
      attached, attachmentEnded, bootstrapSent, envoyReady := false, false, false, false;
      workloadStatus, cause, outputStatus := None, None, None;
      finalizationRequested, completeSent, recordingFailed := false, false, false;
      terminationRequested, acknowledged, brokerClosed := false, false, false;
    }

    method Time(now: Reading) returns (ok: bool)
      modifies this`state, this`lastTime
      ensures ok == Monotonic(old(View()), now)
      ensures View() == if ok then Noted(old(View()), now) else Fail(old(View()))
    {
      ok := now.At? && (lastTime.Never? || now.seconds >= lastTime.seconds);
      if ok {
        lastTime := now;
      } else {
        state := Failed;
      }
    }

    method StopRecordingNow()
      modifies this`recordingFailed
      ensures View() == Step(old(View()), StopRecording)
    {
      recordingFailed := true;
    }

    method CheckAttachmentDeadline(now: Reading) returns (r: Reply)
      modifies this`state, this`lastTime
      ensures r.Quiet? || (r.Raised? && View() == Broken(old(View()), CheckDeadline(now)))
      ensures r.Quiet? <==> Timely(old(View()), now) && InTime(old(View()), now.seconds)
      ensures r.Quiet? ==> View() == Noted(old(View()), now)
    {
      if state.Result? || state.Failed? {
        state := Failed;
        return Raised;
      }
      var ok := Time(now);
      if !ok {
        return Raised;
      }
      if !(attached || attachmentDeadline.Never? || now.seconds < attachmentDeadline.seconds) {
        state := Failed;
        return Raised;
      }
      r := Quiet;
    }

    method AttachmentConnected(now: Reading) returns (r: Reply)
      modifies this
      ensures View() == Step(old(View()), Connected(now)) && r == Answer(old(View()), Connected(now))
    {
      r := CheckAttachmentDeadline(now);
      if r.Raised? {
        assert View() == Broken(old(View()), Connected(now));
        return;
      }
      ConnectionCases(old(View()), now);
      r := ConfirmAttachment();
    }

    /** The confirmation itself, once the clock and the deadline allow it. */
    method ConfirmAttachment() returns (r: Reply)
      modifies this`attached, this`state, this`bootstrapSent
      ensures var l := old(View());
        if l.deadline.At? && !l.attached then r == BootstrapReply(l) && View() == Attaching(l, r)
        else r.Raised? && View() == Fail(l)
    {
      if !(attachmentDeadline.At? && !attached) {
        state := Failed;
        return Raised;
      }
      r := TakeAttachment();
    }

    method TakeAttachment() returns (r: Reply)
      modifies this`attached, this`state, this`bootstrapSent
      ensures var l := old(View());
        r == BootstrapReply(l) && View() == Attaching(l, r)
    {
      attached := true;
      r := SendBootstrap();
    }

    method SendBootstrap() returns (r: Reply)
      modifies this`state, this`bootstrapSent
      ensures var due := old(state.Active? && attached && BootstrapDue(View()));
        && r == (if !due then Quiet else if MayInput(grants) then Emit(BootstrapEnvoy) else Raised)
        && state == (if r.Raised? then Failed else old(state))
        && bootstrapSent == (old(bootstrapSent) || r.Emit?)
    {
      if state.Active? && attached && !bootstrapSent && !recordingFailed {
        if !(grants.Some? && grants.value.input) {
          state := Failed;
          return Raised;
        }
        bootstrapSent := true;
        return Emit(BootstrapEnvoy);
      }
      r := Quiet;
    }

    method ConfirmEnvoyReady() returns (r: Reply)
      modifies this
      ensures View() == Step(old(View()), EnvoyReady) && r == Answer(old(View()), EnvoyReady)
    {
      if !(!state.Result? && !state.Failed?) {
        state := Failed;
        return Raised;
      }
      if !(state.Active? && bootstrapSent && attached && !envoyReady) {
        state := Failed;
        return Raised;
      }
      envoyReady := true;
      r := Quiet;
    }

    method OnEvent(event: Option<PublicEvent>, now: Reading) returns (r: Reply)
      modifies this
      ensures View() == Step(old(View()), Event(event, now)) && r == Answer(old(View()), Event(event, now))
    {
      EventCases(View(), event, now);
      var ok := BeginEvent(event, now);
      if !ok {
        return Raised;
      }
      r := Observe(event.value, now.seconds);
    }

    /** An event counts only while the session lives and the clock has not gone back. */
    method BeginEvent(event: Option<PublicEvent>, now: Reading) returns (ok: bool)
      modifies this`state, this`lastTime
      ensures ok == (event.Some? && Timely(old(View()), now))
      ensures View() == if ok then Noted(old(View()), now) else Fail(old(View()))
    {
      ok := event.Some? && !state.Result? && !state.Failed?;
      if ok {
        ok := Time(now);
      } else {
        Refuse();
      }
    }

    method Refuse()
      modifies this`state
      ensures View() == Fail(old(View()))
    {
      state := Failed;
    }

    /** The branches of an event that arrived in time. */
    method Observe(event: PublicEvent, now: real) returns (r: Reply)
      requires lastTime == At(now) && !state.Result? && !state.Failed?
      modifies this
      ensures AdmitsEvent(old(View()), event, now) ==>
        View() == AfterEvent(old(View()), event, now) && r == EventReply(old(View()), event)
      ensures !AdmitsEvent(old(View()), event, now) ==> View() == Fail(old(View())) && r == Raised
    {
      if event.BrokerReady? || event.Opened? {
        r := ObserveOpening(event, now);
      } else if event.ReadyEvent? {
        r := ObserveReady(now);
      } else if event.Diagnostic? && !state.WaitBroker? {
        r := Quiet;
      } else if event.Diagnostic? || event.ClientError? {
        state := Failed;
        r := Raised;
      } else if event.WorkloadExit? || event.Terminating? {
        r := ObserveExit(event, now);
      } else {
        r := ObserveFinal(event, now);
      }
    }

    method ObserveOpening(event: PublicEvent, now: real) returns (r: Reply)
      requires event.BrokerReady? || event.Opened?
      modifies this
      ensures AdmitsEvent(old(View()), event, now) ==>
        View() == AfterEvent(old(View()), event, now) && r == EventReply(old(View()), event)
      ensures !AdmitsEvent(old(View()), event, now) ==> View() == Fail(old(View())) && r == Raised
    {
      if event.BrokerReady? && state.WaitBroker? {
        attachmentDeadline := At(now + ATTACH_TIMEOUT_SECONDS);
        state := WaitOpened;
        assert View() == TakeBrokerReady(old(View()), now);
        return Emit(Attach);
      }
      if event.Opened? && state.WaitOpened? {
        grants := Some(event.grants);
        state := WaitReady;
        assert View() == TakeOpened(old(View()), event.grants);
        return Quiet;
      }
      state := Failed;
      r := Raised;
    }

    method ObserveReady(now: real) returns (r: Reply)
      requires lastTime == At(now) && !state.Result? && !state.Failed?
      modifies this
      ensures AdmitsEvent(old(View()), ReadyEvent, now) ==>
        View() == TakeReady(old(View())) && r == EventReply(old(View()), ReadyEvent)
      ensures !AdmitsEvent(old(View()), ReadyEvent, now) ==> View() == Fail(old(View())) && r == Raised
    {
      if !state.WaitReady? {
        state := Failed;
        return Raised;
      }
      r := CheckAttachmentDeadline(At(now));
      if r.Raised? {
        assert View() == Fail(old(View()));
        return;
      }
      assert View() == old(View());
      r := Activate();
    }

    method Activate() returns (r: Reply)
      requires state.WaitReady?
      modifies this
      ensures var due := old(attached && BootstrapDue(View()));
        && r == (if !due then Quiet else if MayInput(grants) then Emit(BootstrapEnvoy) else Raised)
        && View() == if r.Raised? then Fail(old(View())) else TakeReady(old(View()))
    {
      state := Active;
      r := SendBootstrap();
    }

    method ObserveExit(event: PublicEvent, now: real) returns (r: Reply)
      requires event.WorkloadExit? || event.Terminating?
      modifies this`workloadStatus, this`cause, this`state
      ensures AdmitsEvent(old(View()), event, now) ==>
        View() == AfterEvent(old(View()), event, now) && r == EventReply(old(View()), event)
      ensures !AdmitsEvent(old(View()), event, now) ==> View() == Fail(old(View())) && r == Raised
    {
      if event.WorkloadExit? {
        if !(Running(state) && workloadStatus.None?) {
          state := Failed;
          return Raised;
        }
        workloadStatus := Some(event.status);
        assert View() == TakeExit(old(View()), event.status);
        r := Quiet;
      } else {
        if !state.Active? || (event.cause.WorkloadExited? && workloadStatus.None?) {
          state := Failed;
          return Raised;
        }
        cause := Some(event.cause);
        state := TerminatingState;
        assert View() == TakeTerminating(old(View()), event.cause);
        r := Emit(SessionTerminating);
      }
    }

    method ObserveFinal(event: PublicEvent, now: real) returns (r: Reply)
      requires event.OutputsFinalized? || event.Terminated?
      modifies this
      ensures AdmitsEvent(old(View()), event, now) ==>
        View() == AfterEvent(old(View()), event, now) && r == EventReply(old(View()), event)
      ensures !AdmitsEvent(old(View()), event, now) ==> View() == Fail(old(View())) && r == Raised
    {
      if event.OutputsFinalized? {
        r := ObserveOutputs(event.status);
      } else {
        r := TakeTerminated(event.result);
        assert View() == if r.Emit? then TakeResult(old(View()), event.result) else Fail(old(View()));
      }
    }

    method ObserveOutputs(status: Status) returns (r: Reply)
      modifies this
      ensures old(state.TerminatingState?) ==>
        View() == TakeOutputs(old(View()), status) && r == EventReply(old(View()), OutputsFinalized(status))
      ensures !old(state.TerminatingState?) ==> View() == Fail(old(View())) && r == Raised
    {
      if !state.TerminatingState? {
        state := Failed;
        return Raised;
      }
      outputStatus := Some(status);
      state := Finalized;
      r := FinalizeWhenDue();
      assert View() == TakeOutputs(old(View()), status);
    }

    method TakeTerminated(final: SessionResult) returns (r: Reply)
      modifies this`state, this`result
      ensures var agrees := ResultAgrees(old(View()), final);
        && r == (if agrees then Emit(ResultReady) else Raised)
        && state == (if agrees then Result else Failed)
        && result == (if agrees then Some(final) else old(result))
    {
      var startup := Starting(state) && final.cause.StartupFailure?;
      if !(startup || (state.Finalized? && completeSent)) {
        state := Failed;
        return Raised;
      }
      if !startup {
        if !(cause == Some(final.cause)) {
          state := Failed;
          return Raised;
        }
        if !(outputStatus.Some? && SameStatus(final.outputs, outputStatus.value)) {
          state := Failed;
          return Raised;
        }
      }
      if workloadStatus.Some? {
        if !(SameStatus(final.workload, workloadStatus.value)) {
          state := Failed;
          return Raised;
        }
      }
      result := Some(final);
      state := Result;
      r := Emit(ResultReady);
    }

    method FinalizeWhenDue() returns (r: Reply)
      modifies this`finalizationRequested
      ensures r == if state.Finalized? && attachmentEnded && !old(finalizationRequested)
                   then Emit(FinalizeArtifacts) else Quiet
      ensures finalizationRequested == (old(finalizationRequested) || r.Emit?)
    {
      if state.Finalized? && attachmentEnded && !finalizationRequested {
        finalizationRequested := true;
        return Emit(FinalizeArtifacts);
      }
      r := Quiet;
    }

    method TakeEndNow() returns (r: Reply)
      modifies this`attachmentEnded, this`finalizationRequested
      ensures View() == TakeEnd(old(View()))
      ensures r == if old(state.Finalized? && !finalizationRequested) then Emit(FinalizeArtifacts) else Quiet
    {
      attachmentEnded := true;
      r := FinalizeWhenDue();
    }

    method AttachmentEnded() returns (r: Reply)
      modifies this
      ensures View() == Step(old(View()), AttachmentEnd(true)) && r == Answer(old(View()), AttachmentEnd(true))
    {
      if !(!state.Result? && !state.Failed?) {
        state := Failed;
        return Raised;
      }
      if !(attached && !attachmentEnded && Ending(state)) {
        state := Failed;
        return Raised;
      }
      r := TakeEndNow();
    }

    method AttachmentUnavailable() returns (r: Reply)
      modifies this
      ensures View() == Step(old(View()), AttachmentEnd(false)) && r == Answer(old(View()), AttachmentEnd(false))
    {
      if !(!state.Result? && !state.Failed?) {
        state := Failed;
        return Raised;
      }
      if !(!attached && !attachmentEnded && Ending(state)) {
        state := Failed;
        return Raised;
      }
      r := TakeEndNow();
    }

    method ArtifactsFinalized() returns (r: Reply)
      modifies this
      ensures View() == Step(old(View()), ArtifactsDone) && r == Answer(old(View()), ArtifactsDone)
    {
      if !(!state.Result? && !state.Failed?) {
        state := Failed;
        return Raised;
      }
      if !(state.Finalized? && finalizationRequested && !completeSent) {
        state := Failed;
        return Raised;
      }
      if !(grants.Some? && grants.value.complete) {
        state := Failed;
        return Raised;
      }
      completeSent := true;
      r := Emit(SendComplete);
    }

    method RequestTerminationNow() returns (r: Reply)
      modifies this
      ensures View() == Step(old(View()), RequestTermination) && r == Answer(old(View()), RequestTermination)
    {
      if !(state.Active?) {
        state := Failed;
        return Raised;
      }
      if !(grants.Some? && grants.value.terminate) {
        state := Failed;
        return Raised;
      }
      if terminationRequested {
        return Quiet;
      }
      terminationRequested := true;
      r := Emit(SendTerminate);
    }

    method AcknowledgeTerminated() returns (r: Reply)
      modifies this
      ensures View() == Step(old(View()), Acknowledge) && r == Answer(old(View()), Acknowledge)
    {
      if !(state.Result? && !acknowledged) {
        state := Failed;
        return Raised;
      }
      acknowledged := true;
      r := Emit(SendAcknowledge);
    }

    method ClientClosed(exitCode: int) returns (r: Reply)
      modifies this
      ensures View() == Step(old(View()), BrokerClosed(exitCode)) && r == Answer(old(View()), BrokerClosed(exitCode))
    {
      if !(exitCode == 0 && state.Result? && acknowledged && !brokerClosed) {
        state := Failed;
        return Raised;
      }
      brokerClosed := true;
      r := Quiet;
    }
  }
}
