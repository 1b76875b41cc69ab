/**
 * One operation at a time on the Envoy session (`OperationLifecycle`). The source keeps a single
 * state plus a pending phase; here that representation refines a product of two machines: where
 * the operation stands on the wire, and which lifecycle request the controller has pending.
 */
module Operation {
  import opened Common
  import Reploy

  datatype Outcome = OpCompleted | OpFailed | OpFinalized | OpCancelled

  datatype Phase = Starting | Running | Gated(gate: string) | Continuing(gate: string)

  datatype Pending = NoRequest | FinalizePending | CancelPending

  datatype Proto =
    | Idle(shellEnded: bool)
    | Busy(id: string, phase: Phase, pending: Pending, seen: set<string>)
    | ShutdownSent(reason: string)
    | Draining(drain: string, closedSeen: bool, eofSeen: bool)
    | Closed
    | Broken(active: Option<string>, atGate: Option<string>)

  const SHELL_ENDED := "shell_ended"

  datatype Call =
    | Execute(id: string, mayRecord: bool)
    | Started(id: string)
    | GateReady(id: string, gate: string)
    | Continue(id: string, gate: string, mayRecord: bool)
    | Continued(id: string, gate: string)
    | GateInterrupted(id: string, gate: string)
    | Finalize(id: string, mayRecord: bool)
    | Cancel(id: string, mayRecord: bool)
    | TerminalResult(id: string, outcome: Outcome, shellEnded: bool)
    | Shutdown(reason: string, mayRecord: bool)
    | Drained(reason: string)
    | SessionClosed(reason: string)
    | TerminalEof

  /** Observations of a running operation, as against requests and endings. */
  predicate Observation(c: Call) { c.Started? || c.GateReady? || c.Continued? || c.GateInterrupted? }

  predicate AtGate(phase: Phase) { phase.Gated? || phase.Continuing? }

  /** Which outcomes can resolve an operation. */
  predicate Resolves(phase: Phase, pending: Pending, o: Outcome) {
    match o
    case OpFailed => true
    case OpCompleted => !AtGate(phase) && !phase.Starting?
    case OpFinalized => !pending.NoRequest? && !phase.Starting?
    case OpCancelled => pending.CancelPending?
  }

  predicate Admits(p: Proto, c: Call) {
    match c
    case Execute(id, rec) => p.Idle? && !p.shellEnded && rec && |id| > 0
    case Started(id) => p.Busy? && p.id == id && p.phase.Starting?
    case GateReady(id, gate) => p.Busy? && p.id == id && p.phase.Running? && |gate| > 0 && gate !in p.seen
    case Continue(id, gate, rec) =>
      p.Busy? && p.id == id && rec && p.pending.NoRequest? && p.phase.Gated? && p.phase.gate == gate
    case Continued(id, gate) => p.Busy? && p.id == id && p.phase.Continuing? && p.phase.gate == gate
    case GateInterrupted(id, gate) => p.Busy? && p.id == id && AtGate(p.phase) && p.phase.gate == gate
    case Finalize(id, rec) => p.Busy? && p.id == id && rec && p.pending.NoRequest? && !p.phase.Starting?
    case Cancel(id, rec) => p.Busy? && p.id == id && rec && !p.pending.CancelPending?
    case TerminalResult(id, outcome, _) => p.Busy? && p.id == id && Resolves(p.phase, p.pending, outcome)
    case Shutdown(reason, rec) => p.Idle? && !p.shellEnded && rec && |reason| > 0
    case Drained(reason) =>
      || (p.Idle? && reason == SHELL_ENDED)
      || (p.ShutdownSent? && (reason == p.reason || reason == SHELL_ENDED))
      || (p.Busy? && p.phase.Starting? && reason == SHELL_ENDED)
    case SessionClosed(reason) => p.Draining? && !p.closedSeen && reason == p.drain
    case TerminalEof => p.Draining? && !p.eofSeen
  }

  function Next(p: Proto, c: Call): Proto
    requires Admits(p, c)
  {
    match c
    case Execute(id, _) => Busy(id, Starting, NoRequest, {})
    case Started(_) => p.(phase := Running)
    case GateReady(_, gate) => p.(phase := Gated(gate), seen := p.seen + {gate})
    case Continue(_, gate, _) => p.(phase := Continuing(gate))
    case Continued(_, _) => p.(phase := Running)
    case GateInterrupted(_, _) => p.(phase := Running)
    case Finalize(_, _) => p.(pending := FinalizePending)
    case Cancel(_, _) => p.(pending := CancelPending)
    case TerminalResult(_, _, shellEnded) => Idle(shellEnded)
    case Shutdown(reason, _) => ShutdownSent(reason)
    case Drained(reason) => Draining(reason, false, false)
    case SessionClosed(_) => if p.eofSeen then Closed else p.(closedSeen := true)
    case TerminalEof => if p.closedSeen then Closed else p.(eofSeen := true)
  }

  function ActiveId(p: Proto): Option<string> {
    if p.Busy? then Some(p.id) else if p.Broken? then p.active else None
  }

  function GateId(p: Proto): Option<string> {
    if p.Busy? && AtGate(p.phase) then Some(p.phase.gate) else if p.Broken? then p.atGate else None
  }

  /** A refused call is final; the identities stay readable for diagnosis. */
  function Break(p: Proto): Proto { Broken(ActiveId(p), GateId(p)) }

  function Step(p: Proto, c: Call): Proto {
    if Admits(p, c) then Next(p, c) else Break(p)
  }

  function RunFrom(p: Proto, calls: seq<Call>): Proto
    decreases |calls|
  {
    if calls == [] then p else RunFrom(Step(p, calls[0]), calls[1..])
  }

  lemma {:induction false} BrokenForever(p: Proto, calls: seq<Call>)
    requires p.Broken?
    ensures RunFrom(p, calls) == p
    decreases |calls|
  {
    if calls != [] {
      BrokenForever(Step(p, calls[0]), calls[1..]);
    }
  }

  lemma {:induction false} RunSnoc(p: Proto, calls: seq<Call>, c: Call)
    ensures RunFrom(p, calls + [c]) == Step(RunFrom(p, calls), c)
    decreases |calls|
  {
    if calls == [] {
      assert ([] + [c])[1..] == [];
    } else {
      assert (calls + [c])[1..] == calls[1..] + [c];
      RunSnoc(Step(p, calls[0]), calls[1..], c);
    }
  }

  // ---------- Pending requests do not disturb observations ----------

  ghost predicate Observations(calls: seq<Call>) {
    forall c :: c in calls ==> Observation(c)
  }

  /** The same operation with another request pending. */
  function WithPending(p: Proto, q: Pending): Proto {
    if p.Busy? then p.(pending := q) else p
  }

  lemma {:induction false} PendingIsInvisible(p: Proto, q: Pending, observed: seq<Call>)
    requires Observations(observed)
    ensures RunFrom(WithPending(p, q), observed) == WithPending(RunFrom(p, observed), q)
    decreases |observed|
  {
    if observed != [] {
      assert Observation(observed[0]);
      assert Step(WithPending(p, q), observed[0]) == WithPending(Step(p, observed[0]), q);
      PendingIsInvisible(Step(p, observed[0]), q, observed[1..]);
    }
  }

  ghost predicate Requests(p: Proto, requests: seq<Call>) {
    || (exists id :: requests == [Cancel(id, true)] && Admits(p, requests[0]))
    || (exists id :: requests == [Finalize(id, true)] && Admits(p, requests[0]))
    || (exists id :: requests == [Finalize(id, true), Cancel(id, true)] && Admits(p, requests[0]))
  }

  /**
   * An admitted cancel, finalize, or finalize-then-cancel inserted before any observations changes
   * neither whether they are accepted nor the phase, gate and seen gates they lead to, and no
   * gate can be continued afterwards.
   */
  lemma {:induction false} RequestTransparency(p: Proto, requests: seq<Call>, observed: seq<Call>, id: string,
                                               gate: string)
    requires Requests(p, requests) && Observations(observed)
    ensures p.Busy?
    ensures var plain, crossed := RunFrom(p, observed), RunFrom(p, requests + observed);
      && (plain.Broken? <==> crossed.Broken?)
      && (!plain.Broken? ==>
            && plain.Busy? && crossed.Busy? && crossed.id == plain.id
            && crossed.phase == plain.phase && crossed.seen == plain.seen
            && crossed.pending == (if requests[|requests| - 1].Cancel? then CancelPending else FinalizePending))
      && !Admits(crossed, Continue(id, gate, true))
  {
    var q := if requests[|requests| - 1].Cancel? then CancelPending else FinalizePending;
    assert (requests + observed)[0] == requests[0];
    if |requests| == 1 {
      assert (requests + observed)[1..] == observed;
    } else {
      var rest := (requests + observed)[1..];
      assert rest[0] == requests[1] && rest[1..] == observed;
    }
    assert RunFrom(p, requests + observed) == RunFrom(WithPending(p, q), observed);
    PendingIsInvisible(p, q, observed);
    ObservedBusy(p, observed);
  }

  lemma {:induction false} ObservedBusy(p: Proto, observed: seq<Call>)
    requires Observations(observed) && (p.Busy? || p.Broken?)
    ensures var after := RunFrom(p, observed); after.Broken? || (p.Busy? && after.Busy? && after.id == p.id)
    decreases |observed|
  {
    if observed != [] {
      assert Observation(observed[0]);
      ObservedBusy(Step(p, observed[0]), observed[1..]);
    }
  }

  // ---------- Gates over a whole session ----------

  function After(calls: seq<Call>): Proto { RunFrom(Idle(false), calls) }

  ghost predicate SameOperation(calls: seq<Call>, i: nat, j: nat) {
    forall k :: i < k < j && k < |calls| ==> !calls[k].Execute?
  }

  predicate Closes(c: Call, gate: string) {
    (c.Continued? || c.GateInterrupted?) && c.gate == gate
  }

  ghost predicate ClosedBetween(calls: seq<Call>, i: nat, j: nat, gate: string) {
    exists k :: i < k < j && k < |calls| && Closes(calls[k], gate)
  }

  /** Every gate of the current operation is remembered, and is open or was closed. */
  ghost predicate GatesAccounted(p: Proto, calls: seq<Call>) {
    p.Busy? ==>
      forall i :: 0 <= i < |calls| && calls[i].GateReady? && SameOperation(calls, i, |calls|) ==>
        && calls[i].gate in p.seen
        && ((AtGate(p.phase) && p.phase.gate == calls[i].gate) || ClosedBetween(calls, i, |calls|, calls[i].gate))
  }

  lemma {:induction false} GatesAlwaysAccounted(calls: seq<Call>)
    ensures GatesAccounted(After(calls), calls)
    decreases |calls|
  {
    if calls != [] {
      var front, c := calls[..|calls| - 1], calls[|calls| - 1];
      assert calls == front + [c];
      RunSnoc(Idle(false), front, c);
      GatesAlwaysAccounted(front);
      AccountOne(After(front), front, c);
    }
  }

  lemma AccountOne(p: Proto, front: seq<Call>, c: Call)
    requires GatesAccounted(p, front)
    ensures GatesAccounted(Step(p, c), front + [c])
  {
    var calls, q := front + [c], Step(p, c);
    if q.Busy? && !c.Execute? {
      assert p.Busy?;
      forall i | 0 <= i < |calls| && calls[i].GateReady? && SameOperation(calls, i, |calls|)
        ensures calls[i].gate in q.seen
        ensures (AtGate(q.phase) && q.phase.gate == calls[i].gate) || ClosedBetween(calls, i, |calls|, calls[i].gate)
      {
        if i < |front| {
          assert SameOperation(front, i, |front|) by {
            forall k | i < k < |front| ensures !front[k].Execute? { assert calls[k] == front[k]; }
          }
          assert calls[i] == front[i];
          if ClosedBetween(front, i, |front|, front[i].gate) {
            var k :| i < k < |front| && Closes(front[k], front[i].gate);
            assert calls[k] == front[k];
          } else if !(AtGate(q.phase) && q.phase.gate == calls[i].gate) {
            assert Closes(calls[|front|], calls[i].gate);
          }
        }
      }
    } else if q.Busy? {
      forall i | 0 <= i < |front| ensures !SameOperation(calls, i, |calls|) {
        assert calls[|front|].Execute?;
      }
    }
  }

  lemma {:induction false} AcceptedPrefix(calls: seq<Call>, j: nat)
    requires j < |calls| && !After(calls).Broken?
    ensures Admits(After(calls[..j]), calls[j])
    decreases |calls|
  {
    var front, c := calls[..|calls| - 1], calls[|calls| - 1];
    assert calls == front + [c];
    RunSnoc(Idle(false), front, c);
    if j == |front| {
      assert calls[..j] == front;
    } else {
      AcceptedPrefix(front, j);
      assert front[..j] == calls[..j];
    }
  }

  /**
   * In an accepted session, two gates of one operation have different names, and the first
   * was continued or interrupted before the second opened.
   */
  lemma GatesAreBracketed(calls: seq<Call>, i: nat, j: nat)
    requires !After(calls).Broken?
    requires i < j < |calls| && calls[i].GateReady? && calls[j].GateReady? && SameOperation(calls, i, j)
    ensures calls[i].gate != calls[j].gate
    ensures ClosedBetween(calls, i, j, calls[i].gate)
  {
    AcceptedPrefix(calls, j);
    GatesAlwaysAccounted(calls[..j]);
    assert SameOperation(calls[..j], i, j) by {
      forall k | i < k < j ensures !calls[..j][k].Execute? { assert calls[..j][k] == calls[k]; }
    }
    assert calls[..j][i] == calls[i];
    var k :| i < k < j && k < |calls[..j]| && Closes(calls[..j][k], calls[i].gate);
    assert calls[..j][k] == calls[k];
  }

  ghost predicate ResultBetween(calls: seq<Call>, i: nat, j: nat, id: string) {
    exists k :: i < k < j && k < |calls| && calls[k].TerminalResult? && calls[k].id == id
  }

  /** Every executed operation is current, resolved by its own result, or was drained away unstarted. */
  ghost predicate OperationsAccounted(p: Proto, calls: seq<Call>) {
    p.Broken? || forall i :: 0 <= i < |calls| && calls[i].Execute? ==>
      (p.Busy? && p.id == calls[i].id) || ResultBetween(calls, i, |calls|, calls[i].id) || p.Draining? || p.Closed?
  }

  lemma {:induction false} OperationsAlwaysAccounted(calls: seq<Call>)
    ensures OperationsAccounted(After(calls), calls)
    decreases |calls|
  {
    if calls != [] {
      var front, c := calls[..|calls| - 1], calls[|calls| - 1];
      assert calls == front + [c];
      RunSnoc(Idle(false), front, c);
      OperationsAlwaysAccounted(front);
      var p, q := After(front), After(calls);
      forall i | 0 <= i < |calls| && calls[i].Execute? && !q.Broken?
        ensures (q.Busy? && q.id == calls[i].id) || ResultBetween(calls, i, |calls|, calls[i].id) || q.Draining?
          || q.Closed?
      {
        if i < |front| {
          assert calls[i] == front[i];
          if ResultBetween(front, i, |front|, front[i].id) {
            var k :| i < k < |front| && front[k].TerminalResult? && front[k].id == front[i].id;
            assert calls[k] == front[k];
          } else if c.TerminalResult? {
            assert calls[|front|] == c;
          }
        }
      }
    }
  }

  /** A new operation is only ever executed after the previous one got its own terminal result. */
  lemma OneResultBetweenOperations(calls: seq<Call>, i: nat, j: nat)
    requires !After(calls).Broken? && i < j < |calls| && calls[i].Execute? && calls[j].Execute?
    ensures ResultBetween(calls, i, j, calls[i].id)
  {
    AcceptedPrefix(calls, j);
    OperationsAlwaysAccounted(calls[..j]);
    assert calls[..j][i] == calls[i];
    var k :| i < k < j && k < |calls[..j]| && calls[..j][k].TerminalResult? && calls[..j][k].id == calls[i].id;
    assert calls[..j][k] == calls[k];
  }

  lemma RunTwo(p: Proto, c: Call, d: Call)
    ensures RunFrom(p, [c, d]) == Step(Step(p, c), d)
  {
    assert [c, d][1..] == [d];
    assert RunFrom(Step(p, c), [d]) == RunFrom(Step(Step(p, c), d), []);
  }

  /** Closing needs both facts, in either order, and the drain's own reason. */
  lemma ClosureIsConfluent(p: Proto, reason: string)
    requires p.Draining? && !p.closedSeen && !p.eofSeen
    ensures RunFrom(p, [SessionClosed(reason), TerminalEof]) == RunFrom(p, [TerminalEof, SessionClosed(reason)])
    ensures RunFrom(p, [SessionClosed(reason), TerminalEof]).Closed? <==> reason == p.drain
  {
    RunTwo(p, SessionClosed(reason), TerminalEof);
    RunTwo(p, TerminalEof, SessionClosed(reason));
  }

  /** Once a result has said that the shell ended, no operation and no shutdown ever begins again. */
  lemma {:induction false} ShellEndIsFinal(p: Proto, calls: seq<Call>)
    requires p == Idle(true) || p.Draining? || p.Closed? || p.Broken?
    ensures var q := RunFrom(p, calls); q == Idle(true) || q.Draining? || q.Closed? || q.Broken?
    decreases |calls|
  {
    if calls != [] {
      ShellEndIsFinal(Step(p, calls[0]), calls[1..]);
    }
  }

  /** This machine alone takes a finalized result for an operation that was only ever cancelled. */
  lemma FinalizedWithoutItsRequest(id: string)
    requires |id| > 0
    ensures After([Execute(id, true), Started(id), Cancel(id, true), TerminalResult(id, OpFinalized, false)])
      == Idle(false)
  {
    var calls := [Execute(id, true), Started(id), Cancel(id, true), TerminalResult(id, OpFinalized, false)];
    RunSnoc(Idle(false), calls[..3], calls[3]);
    RunSnoc(Idle(false), calls[..2], calls[2]);
    RunTwo(Idle(false), calls[0], calls[1]);
    assert calls == calls[..3] + [calls[3]] && calls[..3] == calls[..2] + [calls[2]]
      && calls[..2] == [calls[0], calls[1]];
  }

  predicate AsksEnd(c: Call, id: string) { (c.Cancel? || c.Finalize?) && c.id == id }

  /** Call `k` asked for the end of the operation that is current after all the calls. */
  ghost predicate AskedAt(calls: seq<Call>, k: nat, id: string) {
    k < |calls| && AsksEnd(calls[k], id) && SameOperation(calls, k, |calls|)
  }

  ghost predicate StartedAt(calls: seq<Call>, k: nat, id: string) {
    k < |calls| && calls[k] == Started(id) && SameOperation(calls, k, |calls|)
  }

  /** The current operation has a pending request exactly if one was made, and runs exactly if it was started. */
  ghost predicate RequestsAccounted(p: Proto, calls: seq<Call>) {
    p.Busy? ==>
      && (!p.pending.NoRequest? <==> exists k :: AskedAt(calls, k, p.id))
      && (!p.phase.Starting? <==> exists k :: StartedAt(calls, k, p.id))
  }

  lemma SameOperationSnoc(front: seq<Call>, c: Call, k: nat)
    requires k < |front|
    ensures SameOperation(front + [c], k, |front| + 1) <==> SameOperation(front, k, |front|) && !c.Execute?
  {
    var calls := front + [c];
    if SameOperation(calls, k, |calls|) {
      forall i | k < i < |front| ensures !front[i].Execute? {
        assert calls[i] == front[i];
      }
      assert !calls[|front|].Execute?;
    }
  }

  lemma AskedSnoc(front: seq<Call>, c: Call, id: string)
    ensures (exists k :: AskedAt(front + [c], k, id)) <==>
      AsksEnd(c, id) || (!c.Execute? && exists k :: AskedAt(front, k, id))
  {
    var calls := front + [c];
    forall k: nat | k < |front| ensures AskedAt(calls, k, id) <==> !c.Execute? && AskedAt(front, k, id) {
      SameOperationSnoc(front, c, k);
      assert calls[k] == front[k];
    }
    assert AsksEnd(c, id) <==> AskedAt(calls, |front|, id);
  }

  lemma StartedSnoc(front: seq<Call>, c: Call, id: string)
    ensures (exists k :: StartedAt(front + [c], k, id)) <==>
      c == Started(id) || (!c.Execute? && exists k :: StartedAt(front, k, id))
  {
    var calls := front + [c];
    forall k: nat | k < |front| ensures StartedAt(calls, k, id) <==> !c.Execute? && StartedAt(front, k, id) {
      SameOperationSnoc(front, c, k);
      assert calls[k] == front[k];
    }
    assert c == Started(id) <==> StartedAt(calls, |front|, id);
  }

  lemma {:induction false} RequestsAlwaysAccounted(calls: seq<Call>)
    ensures RequestsAccounted(After(calls), calls)
    decreases |calls|
  {
    if calls != [] {
      var front, c := calls[..|calls| - 1], calls[|calls| - 1];
      assert calls == front + [c];
      RunSnoc(Idle(false), front, c);
      RequestsAlwaysAccounted(front);
      var p, q := After(front), After(calls);
      if q.Busy? {
        AskedSnoc(front, c, q.id);
        StartedSnoc(front, c, q.id);
      }
    }
  }

  /**
   * A finalized result is accepted exactly for the current operation, once it was started and a
   * finalize or a cancel of it was made: the finalize itself need not have been.
   */
  lemma FinalizedExactly(calls: seq<Call>, id: string, ended: bool)
    ensures Admits(After(calls), TerminalResult(id, OpFinalized, ended)) <==>
      && After(calls).Busy? && After(calls).id == id
      && (exists k :: StartedAt(calls, k, id)) && (exists k :: AskedAt(calls, k, id))
  {
    RequestsAlwaysAccounted(calls);
  }

  // ---------- The source's representation ----------

  datatype OpState =
    | IDLE | STARTING | RUNNING | GATED | CONTINUING | FINALIZING | CANCELLING
    | SHUTDOWN_SENT | DRAINING | CLOSED | FAILED

  class OperationLifecycle {
    const session: Reploy.ReployLifecycle
    var state: OpState
    var activeId: Option<string>
    var gateId: Option<string>
    var shellEnded: bool
    var shutdownReason: Option<string>
    var drainReason: Option<string>
    var closedSeen: bool
    var terminalEof: bool
    var pendingPhase: Option<OpState>
    var seenGates: set<string>

    predicate MayRecord()
      reads session
    {
      Reploy.CanRecord(session.View())
    }

    function PhaseState(): OpState
      reads this
    {
      if (state.CANCELLING? || state.FINALIZING?) && pendingPhase.Some? then pendingPhase.value else state
    }

    predicate BusyState()
      reads this
    {
      state.STARTING? || state.RUNNING? || state.GATED? || state.CONTINUING? || state.FINALIZING? || state.CANCELLING?
    }

    /** What every run keeps outside FAILED. */
    predicate Valid()
      reads this
    {
      !state.FAILED? ==>
      && (activeId.Some? <==> BusyState())
      && (pendingPhase.Some? <==> state.FINALIZING? || state.CANCELLING?)
      && (pendingPhase.Some? ==>
            var p := pendingPhase.value;
            p.RUNNING? || p.GATED? || p.CONTINUING? || (p.STARTING? && state.CANCELLING?))
      && (gateId.Some? <==> PhaseState().GATED? || PhaseState().CONTINUING?)
      && (gateId.Some? ==> gateId.value in seenGates)
      && (BusyState() ==> !shellEnded)
      && (state.SHUTDOWN_SENT? ==> shutdownReason.Some? && !shellEnded)
      && (state.DRAINING? || state.CLOSED? <==> drainReason.Some?)
      && (drainReason.None? ==> !closedSeen && !terminalEof)
      && (state.CLOSED? <==> closedSeen && terminalEof)
    }

    function PhaseView(): Phase
      requires Valid() && BusyState()
      reads this
    {
      match PhaseState()
      case GATED => Gated(gateId.value)
      case CONTINUING => Continuing(gateId.value)
      case STARTING => Starting
      case _ => Running
    }

    function View(): Proto
      requires Valid()
      reads this
    {
      match state
      case FAILED => Broken(activeId, gateId)
      case IDLE => Idle(shellEnded)
      case SHUTDOWN_SENT => ShutdownSent(shutdownReason.value)
      case DRAINING => Draining(drainReason.value, closedSeen, terminalEof)
      case CLOSED => Closed
      case FINALIZING => Busy(activeId.value, PhaseView(), FinalizePending, seenGates)
      case CANCELLING => Busy(activeId.value, PhaseView(), CancelPending, seenGates)
      case _ => Busy(activeId.value, PhaseView(), NoRequest, seenGates)
    }

    constructor (session: Reploy.ReployLifecycle)
      ensures Valid() && View() == Idle(false) && this.session == session
    {
      this.session := session;
      state, activeId, gateId, shellEnded := IDLE, None, None, false;
      shutdownReason, drainReason, closedSeen, terminalEof := None, None, false, false;
      pendingPhase, seenGates := None, {};
    }

    /** The call took the abstract step, and was accepted exactly when the protocol admits it. */
    twostate predicate Took(c: Call, ok: bool)
      requires old(Valid())
      reads this
    {
      Valid() && View() == Step(old(View()), c) && ok == Admits(old(View()), c)
    }

    method Refuse() returns (ok: bool)
      requires Valid()
      modifies this`state
      ensures Valid() && View() == Break(old(View())) && !ok
    {
      state := FAILED;
      ok := false;
    }

    /** Advances the phase, which stays behind a pending lifecycle request. */
    method Observe(phase: OpState)
      modifies this`state, this`pendingPhase
      ensures if old(state.CANCELLING? || state.FINALIZING?)
              then state == old(state) && pendingPhase == Some(phase)
              else state == phase && pendingPhase == old(pendingPhase)
    {
      if state.CANCELLING? || state.FINALIZING? {
        pendingPhase := Some(phase);
      } else {
        state := phase;
      }
    }

    method ExecuteOperation(id: string) returns (ok: bool)
      requires Valid()
      modifies this
      ensures Took(Execute(id, MayRecord()), ok)
    {
      if !(MayRecord() && state.IDLE? && !shellEnded && |id| > 0) {
        ok := Refuse();
        return;
      }
      seenGates, pendingPhase, activeId, state := {}, None, Some(id), STARTING;
      ok := true;
    }

    method OperationStarted(id: string) returns (ok: bool)
      requires Valid()
      modifies this
      ensures Took(Started(id), ok)
    {
      if !(activeId == Some(id) && PhaseState().STARTING?) {
        ok := Refuse();
        return;
      }
      Observe(RUNNING);
      ok := true;
    }

    method OperationReady(id: string, gate: string) returns (ok: bool)
      requires Valid()
      modifies this
      ensures Took(GateReady(id, gate), ok)
    {
      if !(activeId == Some(id) && PhaseState().RUNNING? && |gate| > 0 && gate !in seenGates) {
        ok := Refuse();
        return;
      }
      seenGates := seenGates + {gate};
      gateId := Some(gate);
      Observe(GATED);
      ok := true;
    }

    method ContinueOperation(id: string, gate: string) returns (ok: bool)
      requires Valid()
      modifies this
      ensures Took(Continue(id, gate, MayRecord()), ok)
    {
      if !(activeId == Some(id) && MayRecord() && state.GATED? && gateId == Some(gate)) {
        ok := Refuse();
        return;
      }
      state := CONTINUING;
      ok := true;
    }

    method OperationContinued(id: string, gate: string) returns (ok: bool)
      requires Valid()
      modifies this
      ensures Took(Continued(id, gate), ok)
    {
      if !(activeId == Some(id) && PhaseState().CONTINUING? && gateId == Some(gate)) {
        ok := Refuse();
        return;
      }
      gateId := None;
      Observe(RUNNING);
      ok := true;
    }

    method OperationGateInterrupted(id: string, gate: string) returns (ok: bool)
      requires Valid()
      modifies this
      ensures Took(GateInterrupted(id, gate), ok)
    {
      if !(activeId == Some(id) && (PhaseState().GATED? || PhaseState().CONTINUING?) && gateId == Some(gate)) {
        ok := Refuse();
        return;
      }
      gateId := None;
      Observe(RUNNING);
      ok := true;
    }

    method FinalizeOperation(id: string) returns (ok: bool)
      requires Valid()
      modifies this
      ensures Took(Finalize(id, MayRecord()), ok)
    {
      if !(activeId == Some(id) && MayRecord() && (state.RUNNING? || state.GATED? || state.CONTINUING?)) {
        ok := Refuse();
        return;
      }
      pendingPhase := Some(state);
      state := FINALIZING;
      ok := true;
    }

    method CancelOperation(id: string) returns (ok: bool)
      requires Valid()
      modifies this
      ensures Took(Cancel(id, MayRecord()), ok)
    {
      if !(activeId == Some(id) && MayRecord() && BusyState() && !state.CANCELLING?) {
        ok := Refuse();
        return;
      }
      if !state.FINALIZING? {
        pendingPhase := Some(state);
      }
      state := CANCELLING;
      ok := true;
    }

    /** The source's table of admissible outcomes, state by state. */
    predicate Allowed(outcome: Outcome)
      reads this
    {
      match state
      case STARTING => outcome.OpFailed?
      case RUNNING => outcome.OpCompleted? || outcome.OpFailed?
      case GATED => outcome.OpFailed?
      case CONTINUING => outcome.OpFailed?
      case FINALIZING => outcome.OpFinalized? || outcome.OpCompleted? || outcome.OpFailed?
      case CANCELLING => if PhaseState().STARTING? then outcome.OpCancelled? || outcome.OpFailed? else true
      case _ => false
    }

    method TakeTerminalResult(id: string, outcome: Outcome, ended: bool) returns (ok: bool)
      requires Valid()
      modifies this
      ensures Took(TerminalResult(id, outcome, ended), ok)
    {
      if !(activeId == Some(id) && Allowed(outcome) && (!outcome.OpCompleted? || gateId.None?)) {
        ok := Refuse();
        return;
      }
      shellEnded, activeId, gateId, pendingPhase, state := ended, None, None, None, IDLE;
      ok := true;
    }

    method RequestShutdown(reason: string) returns (ok: bool)
      requires Valid()
      modifies this
      ensures Took(Shutdown(reason, MayRecord()), ok)
    {
      if !(MayRecord() && state.IDLE? && !shellEnded && |reason| > 0) {
        ok := Refuse();
        return;
      }
      shutdownReason := Some(reason);
      state := SHUTDOWN_SENT;
      ok := true;
    }

    method ObserveDraining(reason: string) returns (ok: bool)
      requires Valid()
      modifies this
      ensures Took(Drained(reason), ok)
    {
      var unstarted := (state.STARTING? || state.CANCELLING?) && PhaseState().STARTING?;
      var valid := (state.IDLE? && reason == SHELL_ENDED)
        || (state.SHUTDOWN_SENT? && (Some(reason) == shutdownReason || reason == SHELL_ENDED))
        || (unstarted && reason == SHELL_ENDED);
      if !valid {
        ok := Refuse();
        return;
      }
      activeId, gateId, pendingPhase := None, None, None;
      if reason == SHELL_ENDED {
        shellEnded := true;
      }
      drainReason := Some(reason);
      state := DRAINING;
      ok := true;
    }

    method ObserveClosed(reason: string) returns (ok: bool)
      requires Valid()
      modifies this
      ensures Took(SessionClosed(reason), ok)
    {
      if !(state.DRAINING? && !closedSeen && Some(reason) == drainReason) {
        ok := Refuse();
        return;
      }
      closedSeen := true;
      FinishClose();
      ok := true;
    }

    method ObserveTerminalEof() returns (ok: bool)
      requires Valid()
      modifies this
      ensures Took(TerminalEof, ok)
    {
      if !(state.DRAINING? && !terminalEof) {
        ok := Refuse();
        return;
      }
      terminalEof := true;
      FinishClose();
      ok := true;
    }

    method FinishClose()
      modifies this`state
      ensures state == if closedSeen && terminalEof then CLOSED else old(state)
    {
      if closedSeen && terminalEof {
        state := CLOSED;
      }
    }
  }
}
