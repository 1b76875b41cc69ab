/** When concurrent capture is stuck: only a runner that leaves out a report can make it so. */
module Deadlock {
  import opened Common
  import opened Capture

  /** Unfinished, and no thread has anything to do but fail or leave something out. */
  ghost predicate Stuck(prog: Program, known: set<nat>, st: State)
    requires Shape(prog, st)
  {
    !Finished(st) && forall m :: Faultless(m) ==> !Enabled(prog, known, st, m)
  }

  /** The stream is blocked in a wait. */
  predicate Waiting(prog: Program, known: set<nat>, st: State, p: nat)
    requires Shape(prog, st) && p < |prog|
  {
    var s := st.streams[p].stage;
    s.Running? && s.pc < |prog[p]| && Blocked(known, st, prog[p][s.pc])
  }

  /** Stream `r` went past its report of `e` at `j`, and the event is not set. */
  predicate PassedOver(prog: Program, st: State, e: nat, r: nat, j: nat)
    requires Shape(prog, st)
  {
    r < |prog| && j < Reached(prog, st, r) && j < |prog[r]| && prog[r][j] == Signal(e) && e !in st.signalled
  }

  predicate RankShape(prog: Program, rank: Numbering) {
    |rank| == |prog| && forall p :: 0 <= p < |prog| ==> |rank[p]| == |prog[p]|
  }

  /** Stream `r` still has to report `e`, and stands before the wait of `p` in the numbering. */
  predicate OwedBy(prog: Program, rank: Numbering, st: State, e: nat, k: nat, r: nat, j: nat)
    requires Shape(prog, st) && RankShape(prog, rank)
  {
    && r < |prog| && j < |prog[r]| && prog[r][j] == Signal(e)
    && st.streams[r].stage.Running? && st.streams[r].stage.pc <= j && rank[r][st.streams[r].stage.pc] < k
  }

  /** The stream waits for an event whose report was left out, or for a stream that so waits. */
  ghost predicate Hangs(prog: Program, known: set<nat>, rank: Numbering, st: State, p: nat)
    requires Shape(prog, st) && RankShape(prog, rank) && p < |prog|
    decreases if Waiting(prog, known, st, p) then rank[p][st.streams[p].stage.pc] else 0
  {
    Waiting(prog, known, st, p) &&
    var pc := st.streams[p].stage.pc;
    var e := prog[p][pc].e;
    || (exists r, j :: PassedOver(prog, st, e, r, j))
    || (exists r, j :: OwedBy(prog, rank, st, e, rank[p][pc], r, j) && Hangs(prog, known, rank, st, r))
  }

  /** Follows a wait back along the numbering to a report that was left out. */
  lemma {:induction false} WaitsHang(prog: Program, known: set<nat>, rank: Numbering, st: State, p: nat)
    requires Inv(prog, st) && Numbered(prog, known, rank) && st.first.None? && p < |prog|
    requires forall q :: 0 <= q < |prog| && st.streams[q].stage.Running? ==> Waiting(prog, known, st, q)
    requires Waiting(prog, known, st, p)
    ensures Hangs(prog, known, rank, st, p)
    decreases rank[p][st.streams[p].stage.pc]
  {
    var pc := st.streams[p].stage.pc;
    var e := prog[p][pc].e;
    assert SignalledBefore(prog, rank, e, rank[p][pc]);
    var r, j :| 0 <= r < |prog| && 0 <= j < |prog[r]| && prog[r][j] == Signal(e) && rank[r][j] < rank[p][pc];
    if j < Reached(prog, st, r) {
      assert PassedOver(prog, st, e, r, j);
    } else {
      var at := st.streams[r].stage.pc;
      assert rank[r][at] <= rank[r][j];
      assert OwedBy(prog, rank, st, e, rank[p][pc], r, j);
      WaitsHang(prog, known, rank, st, r);
    }
  }

  lemma UnfailedIsFirst(prog: Program, st: State)
    requires Inv(prog, st) && !st.failed && !AllCaptured(st)
    ensures !st.allow && st.main.Polling? && st.first.None?
  {
  }

  /** While all streams wait, no thread has anything to do. */
  lemma WaitingIsStuck(prog: Program, known: set<nat>, st: State)
    requires Inv(prog, st) && !st.failed && !AllCaptured(st)
    requires forall q :: 0 <= q < |prog| && st.streams[q].stage.Running? ==> Waiting(prog, known, st, q)
    ensures Stuck(prog, known, st)
  {
    UnfailedIsFirst(prog, st);
    forall m | Faultless(m) ensures !Enabled(prog, known, st, m) {
      if m.Go? && m.p < |prog| && m.choice.Work? && st.streams[m.p].stage.Running? {
        assert Waiting(prog, known, st, m.p);
      }
    }
  }

  lemma StuckWaits(prog: Program, known: set<nat>, st: State, q: nat)
    requires Inv(prog, st) && Stuck(prog, known, st) && q < |prog| && st.streams[q].stage.Running?
    ensures Waiting(prog, known, st, q)
  {
    assert Faultless(Go(q, Work));
  }

  /** A captured, unfinished capture can always be torn down. */
  lemma StuckCaptures(prog: Program, known: set<nat>, st: State)
    requires Inv(prog, st) && Stuck(prog, known, st)
    ensures !AllCaptured(st)
  {
    assert Faultless(Coordinate);
    if AllCaptured(st) && st.main.Joining? {
      var p :| 0 <= p < |st.streams| && !st.streams[p].stage.Ended?;
      assert Faultless(Go(p, TearDown(false)));
    }
  }

  /**
   * Numbered work that has not failed is stuck exactly when some stream is unfinished and each such
   * stream waits for an event whose report was left out, or for a stream that so waits.
   */
  lemma StuckExactly(prog: Program, known: set<nat>, rank: Numbering, st: State)
    requires Inv(prog, st) && Numbered(prog, known, rank) && !st.failed
    ensures Stuck(prog, known, st) <==>
      !AllCaptured(st) && forall p :: 0 <= p < |prog| && st.streams[p].stage.Running? ==>
        Hangs(prog, known, rank, st, p)
  {
    if Stuck(prog, known, st) {
      StuckCaptures(prog, known, st);
      UnfailedIsFirst(prog, st);
      forall q | 0 <= q < |prog| && st.streams[q].stage.Running? ensures Waiting(prog, known, st, q) {
        StuckWaits(prog, known, st, q);
      }
      forall p | 0 <= p < |prog| && st.streams[p].stage.Running? ensures Hangs(prog, known, rank, st, p) {
        WaitsHang(prog, known, rank, st, p);
      }
    } else if !AllCaptured(st) && forall p :: 0 <= p < |prog| && st.streams[p].stage.Running? ==>
      Hangs(prog, known, rank, st, p)
    {
      forall q | 0 <= q < |prog| && st.streams[q].stage.Running? ensures Waiting(prog, known, st, q) {
        assert Hangs(prog, known, rank, st, q);
      }
      WaitingIsStuck(prog, known, st);
    }
  }

  // ---------- Left out on the way ----------

  /** In the run, the runner of stream `r` left out its report at `j`. */
  ghost predicate SkippedAt(prog: Program, known: set<nat>, st: State, moves: seq<Move>, r: nat, j: nat)
    requires Shape(prog, st) && Runs(prog, known, st, moves)
    decreases |moves|
  {
    moves != [] &&
    ( || (r < |prog| && moves[0] == Go(r, SkipReport) && st.streams[r].stage == Running(j))
      || SkippedAt(prog, known, Next(prog, known, st, moves[0]), moves[1..], r, j))
  }

  lemma {:induction false} SignalsStay(prog: Program, known: set<nat>, st: State, moves: seq<Move>)
    requires Shape(prog, st) && Runs(prog, known, st, moves)
    ensures st.signalled <= RunFrom(prog, known, st, moves).signalled
    decreases |moves|
  {
    if moves != [] {
      SignalsStay(prog, known, Next(prog, known, st, moves[0]), moves[1..]);
    }
  }

  lemma ReachedNow(prog: Program, known: set<nat>, st: State, m: Move, r: nat, j: nat)
    requires Shape(prog, st) && Enabled(prog, known, st, m) && r < |prog| && j < |prog[r]|
    requires Reached(prog, st, r) <= j < Reached(prog, Next(prog, known, st, m), r)
    requires prog[r][j].Signal? && Next(prog, known, st, m).first.None?
    ensures st.streams[r].stage == Running(j)
    ensures m == Go(r, SkipReport) || prog[r][j].e in Next(prog, known, st, m).signalled
  {
    assert m.Go? && m.p == r;
  }

  /** A report that was gone past without a failure was made, or left out. */
  lemma {:induction false} PassedOrSkipped(prog: Program, known: set<nat>, st: State, moves: seq<Move>, r: nat, j: nat)
    requires Shape(prog, st) && Runs(prog, known, st, moves) && r < |prog| && j < |prog[r]| && prog[r][j].Signal?
    requires RunFrom(prog, known, st, moves).first.None?
    requires Reached(prog, st, r) <= j < Reached(prog, RunFrom(prog, known, st, moves), r)
    ensures prog[r][j].e in RunFrom(prog, known, st, moves).signalled || SkippedAt(prog, known, st, moves, r, j)
    decreases |moves|
  {
    var m, n := moves[0], Next(prog, known, st, moves[0]);
    if n.first.Some? {
      FirstStays(prog, known, n, moves[1..]);
    }
    if Reached(prog, n, r) <= j {
      PassedOrSkipped(prog, known, n, moves[1..], r, j);
    } else {
      ReachedNow(prog, known, st, m, r, j);
      SignalsStay(prog, known, n, moves[1..]);
    }
  }

  /** In a run from the start, an event passed over is one whose report was left out on the way. */
  lemma PassedOverWasSkipped(prog: Program, known: set<nat>, moves: seq<Move>, e: nat, r: nat, j: nat)
    requires Runs(prog, known, Init(prog), moves) && RunFrom(prog, known, Init(prog), moves).first.None?
    requires PassedOver(prog, RunFrom(prog, known, Init(prog), moves), e, r, j)
    ensures SkippedAt(prog, known, Init(prog), moves, r, j)
  {
    PassedOrSkipped(prog, known, Init(prog), moves, r, j);
  }

  /** Numbered work whose runners leave no report out can always be finished, from wherever a run has got to. */
  lemma ReportedRunFinishes(prog: Program, known: set<nat>, rank: Numbering, moves: seq<Move>) returns (rest: seq<Move>)
    requires Numbered(prog, known, rank) && Runs(prog, known, Init(prog), moves) && NoSkips(moves)
    ensures var n := RunFrom(prog, known, Init(prog), moves);
      Runs(prog, known, n, rest) && Finished(RunFrom(prog, known, n, rest)) && AllFaultless(rest)
  {
    InitKeeps(prog);
    RunKeeps(prog, known, Init(prog), moves);
    RunReports(prog, known, Init(prog), moves);
    rest := NumberedWorkFinishes(prog, known, rank, RunFrom(prog, known, Init(prog), moves));
  }

  // ---------- Two panes that get stuck ----------

  /** Pane 0 does two actions, the second after pane 1's; pane 1 does one, after the first of pane 0. */
  const CROSSED := Plan(
    [Pane([Beat(0, None, [Action(1, 2, None, []), Action(3, 4, Some(6), [])])], false),
     Pane([Beat(1, None, [Action(5, 6, Some(2), [])])], false)],
    None)

  const FIRST: seq<Instr> := [Signal(1), Signal(2), Await(6), Signal(3), Signal(4), Record(0, {1, 2, 3, 4})]
  const SECOND: seq<Instr> := [Await(2), Signal(5), Signal(6), Record(1, {5, 6})]
  const EVENTS: set<nat> := {1, 2, 3, 4, 5, 6}

  lemma FirstSteps()
    ensures PaneSteps(CROSSED.panes[0], None) == FIRST
  {
    var a, b := Action(1, 2, None, []), Action(3, 4, Some(6), []);
    assert ActionSteps(a) == [Signal(1), Signal(2)] && ActionSteps(b) == [Await(6), Signal(3), Signal(4)];
    assert [a, b][1..] == [b] && [b][1..] == [];
    assert ActionsSteps([b]) == ActionSteps(b) && ActionsSteps([a, b]) == ActionSteps(a) + ActionsSteps([b]);
    assert ActionEvents([b]) == {3, 4} && ActionEvents([a, b]) == {1, 2, 3, 4};
    var beats := CROSSED.panes[0].beats;
    assert beats[1..] == [] && BeatsSteps(beats) == BeatSteps(beats[0]);
  }

  lemma SecondSteps()
    ensures PaneSteps(CROSSED.panes[1], None) == SECOND
  {
    var a := Action(5, 6, Some(2), []);
    assert ActionSteps(a) == [Await(2), Signal(5), Signal(6)] && [a][1..] == [];
    assert ActionsSteps([a]) == ActionSteps(a) && ActionEvents([a]) == {5, 6};
    var beats := CROSSED.panes[1].beats;
    assert beats[1..] == [] && BeatsSteps(beats) == BeatSteps(beats[0]);
  }

  lemma CrossedNumbered(prog: Program)
    requires prog == [FIRST, SECOND]
    ensures Numbered(prog, EVENTS, [[0, 1, 5, 6, 7, 8], [2, 3, 4, 9]])
  {
    var rank: Numbering := [[0, 1, 5, 6, 7, 8], [2, 3, 4, 9]];
    assert prog[1][2] == Signal(6) && rank[1][2] == 4;
    assert prog[0][1] == Signal(2) && rank[0][1] == 1;
    assert SignalledBefore(prog, rank, 6, 5) && SignalledBefore(prog, rank, 2, 2);
  }

  /**
   * A plan that can be numbered, and a run of it that is stuck: the first pane reports that its first
   * action started, leaves out that it ended, and then waits for the pane that waits for that report.
   */
  lemma LeftOutReportSticks() returns (rank: Numbering, moves: seq<Move>)
    ensures Numbered(Authored(CROSSED), EVENTS, rank)
    ensures Runs(Authored(CROSSED), EVENTS, Init(Authored(CROSSED)), moves) && moves == [Go(0, Work), Go(0, SkipReport)]
    ensures var n := RunFrom(Authored(CROSSED), EVENTS, Init(Authored(CROSSED)), moves);
      !n.failed && Stuck(Authored(CROSSED), EVENTS, n)
  {
    var prog := Authored(CROSSED);
    FirstSteps();
    SecondSteps();
    assert prog == [FIRST, SECOND];
    rank, moves := [[0, 1, 5, 6, 7, 8], [2, 3, 4, 9]], [Go(0, Work), Go(0, SkipReport)];
    CrossedNumbered(prog);
    CrossedSticks(prog);
  }

  lemma CrossedSticks(prog: Program)
    requires prog == [FIRST, SECOND]
    ensures var moves := [Go(0, Work), Go(0, SkipReport)];
      && Runs(prog, EVENTS, Init(prog), moves)
      && !RunFrom(prog, EVENTS, Init(prog), moves).failed
      && Stuck(prog, EVENTS, RunFrom(prog, EVENTS, Init(prog), moves))
  {
    var moves := [Go(0, Work), Go(0, SkipReport)];
    var st := Init(prog);
    var a := Next(prog, EVENTS, st, moves[0]);
    assert a == WithSignal(Advanced(st, 0), 1);
    var b := Next(prog, EVENTS, a, moves[1]);
    assert b == Advanced(a, 0) && b.streams == [Stream(Running(2), false), Stream(Running(0), false)];
    assert moves[1..] == [Go(0, SkipReport)] && moves[1..][1..] == [];
    assert Runs(prog, EVENTS, b, []) && Runs(prog, EVENTS, a, moves[1..]) && RunFrom(prog, EVENTS, a, moves[1..]) == b;
    InitKeeps(prog);
    RunKeeps(prog, EVENTS, st, moves);
    assert Waiting(prog, EVENTS, b, 0) && Waiting(prog, EVENTS, b, 1);
    WaitingIsStuck(prog, EVENTS, b);
  }
}
