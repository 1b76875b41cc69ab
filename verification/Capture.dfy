/**
 * Concurrent pane capture (`CaptureCoordinator.capture`): one thread per pane waits for joins and
 * output dependencies, reports its actions and records its beats, and every runner is torn down
 * behind one barrier. Each move is one thread's next step, chosen by an arbitrary scheduler.
 */
module Capture {
  import opened Common

  /** One step of a pane's authored work; setup is the first event its waiters await. */
  datatype Instr =
    | Await(e: nat)
    | Signal(e: nat)
    | Record(beat: nat, needs: set<nat>)

  type Program = seq<seq<Instr>>

  datatype Stage = Running(pc: nat) | Parked | Ended
  datatype Stream = Stream(stage: Stage, primary: bool)

  /** The coordinating thread: polling, joining, and how it left. */
  datatype Main = Polling | Joining | Returned | RaisedFrom(stream: nat)

  datatype State = State(
    streams: seq<Stream>, signalled: set<nat>, failed: bool, allow: bool, results: set<nat>,
    first: Option<nat>, main: Main)

  /** What a thread does next: its step, a report its runner leaves out, an exception, or its teardown. */
  datatype Choice = Work | SkipReport | Break | TearDown(errs: bool)

  datatype Move = Go(p: nat, choice: Choice) | Coordinate

  function Init(prog: Program): State {
    State(seq(|prog|, i => Stream(Running(0), false)), {}, false, false, {}, None, Polling)
  }

  predicate Finished(st: State) { st.main.Returned? || st.main.RaisedFrom? }

  predicate AllCaptured(st: State) { forall p :: 0 <= p < |st.streams| ==> !st.streams[p].stage.Running? }
  predicate AllEnded(st: State) { forall p :: 0 <= p < |st.streams| ==> st.streams[p].stage.Ended? }

  predicate Shape(prog: Program, st: State) {
    && |st.streams| == |prog|
    && forall p :: 0 <= p < |prog| && st.streams[p].stage.Running? ==> st.streams[p].stage.pc <= |prog[p]|
  }

  // ---------- Steps ----------

  function Recorded(first: Option<nat>, p: nat): Option<nat> { if first.Some? then first else Some(p) }

  function SetStream(st: State, p: nat, s: Stream): State
    requires p < |st.streams|
  {
    st.(streams := st.streams[p := s])
  }

  /** An exception of the capture phase: recorded first if it is the first, and known to every wait. */
  function Failing(st: State, p: nat): State
    requires p < |st.streams|
  {
    State(st.streams[p := Stream(Parked, true)], st.signalled, true, st.allow, st.results, Recorded(st.first, p),
          st.main)
  }

  function Advanced(st: State, p: nat): State
    requires p < |st.streams| && st.streams[p].stage.Running?
  {
    SetStream(st, p, Stream(Running(st.streams[p].stage.pc + 1), st.streams[p].primary))
  }

  function WithSignal(st: State, e: nat): State { st.(signalled := st.signalled + {e}) }
  function WithResult(st: State, beat: nat): State { st.(results := st.results + {beat}) }

  /** A wait passes once its event is set, raises when capture has failed, and blocks otherwise. */
  function Step(known: set<nat>, st: State, p: nat, i: Instr): State
    requires p < |st.streams| && st.streams[p].stage.Running?
  {
    match i
    case Await(e) => if e in known && e in st.signalled then Advanced(st, p) else Failing(st, p)
    case Signal(e) => if e in known then WithSignal(Advanced(st, p), e) else Failing(st, p)
    case Record(beat, needs) => if needs <= st.signalled then WithResult(Advanced(st, p), beat) else Failing(st, p)
  }

  predicate Blocked(known: set<nat>, st: State, i: Instr) {
    i.Await? && i.e in known && i.e !in st.signalled && !st.failed
  }

  predicate StreamEnabled(prog: Program, known: set<nat>, st: State, p: nat, c: Choice)
    requires Shape(prog, st) && p < |prog|
  {
    var s := st.streams[p].stage;
    match c
    case Work => s.Running? && (s.pc < |prog[p]| ==> !Blocked(known, st, prog[p][s.pc]))
    case SkipReport => s.Running? && s.pc < |prog[p]| && prog[p][s.pc].Signal?
    case Break => s.Running?
    case TearDown(_) => s.Parked? && st.allow
  }

  predicate Enabled(prog: Program, known: set<nat>, st: State, m: Move)
    requires Shape(prog, st)
  {
    match m
    case Go(p, c) => p < |prog| && !Finished(st) && StreamEnabled(prog, known, st, p, c)
    case Coordinate =>
      || (st.main.Polling? && (st.failed || AllCaptured(st)))
      || (st.main.Joining? && AllEnded(st))
  }

  function TornDown(st: State, p: nat, errs: bool): State
    requires p < |st.streams|
  {
    var primary := st.streams[p].primary || errs;
    State(st.streams[p := Stream(Ended, primary)], st.signalled, st.failed, st.allow, st.results,
          if primary then Recorded(st.first, p) else st.first, st.main)
  }

  function Coordinated(st: State): State {
    if st.main.Polling? then st.(main := Joining, allow := true)
    else st.(main := if st.first.Some? then RaisedFrom(st.first.value) else Returned)
  }

  function Next(prog: Program, known: set<nat>, st: State, m: Move): (n: State)
    requires Shape(prog, st) && Enabled(prog, known, st, m)
    ensures Shape(prog, n)
  {
    match m
    case Coordinate => Coordinated(st)
    case Go(p, c) =>
      match c {
        case Work =>
          var pc := st.streams[p].stage.pc;
          if pc == |prog[p]| then SetStream(st, p, Stream(Parked, st.streams[p].primary))
          else Step(known, st, p, prog[p][pc])
        case SkipReport => Advanced(st, p)
        case Break => Failing(st, p)
        case TearDown(errs) => TornDown(st, p, errs)
      }
  }

  /** Every move of the run is enabled where it is made. */
  ghost predicate Runs(prog: Program, known: set<nat>, st: State, moves: seq<Move>)
    requires Shape(prog, st)
    decreases |moves|
  {
    moves == [] ||
    (Enabled(prog, known, st, moves[0]) && Runs(prog, known, Next(prog, known, st, moves[0]), moves[1..]))
  }

  ghost function RunFrom(prog: Program, known: set<nat>, st: State, moves: seq<Move>): (n: State)
    requires Shape(prog, st) && Runs(prog, known, st, moves)
    ensures Shape(prog, n)
    decreases |moves|
  {
    if moves == [] then st else RunFrom(prog, known, Next(prog, known, st, moves[0]), moves[1..])
  }

  // ---------- What every run keeps ----------

  /** How far a stream has really got: all of its program once it has parked without failing. */
  function Reached(prog: Program, st: State, p: nat): nat
    requires Shape(prog, st) && p < |prog|
  {
    if st.streams[p].stage.Running? then st.streams[p].stage.pc else |prog[p]|
  }

  predicate Done(st: State, i: Instr) { i.Record? ==> i.beat in st.results && i.needs <= st.signalled }

  /** Recorded beats had all their action events, unless their stream failed. */
  ghost predicate Recording(prog: Program, st: State)
    requires Shape(prog, st)
  {
    forall p, i :: 0 <= p < |prog| && 0 <= i < Reached(prog, st, p) &&
                   (st.streams[p].stage.Running? || st.first.None?) ==>
      Done(st, prog[p][i])
  }

  /** Nothing is torn down while a stream still captures, unless capture failed. */
  ghost predicate Barrier(st: State) {
    && (st.allow <==> !st.main.Polling?)
    && (st.allow ==> st.failed || AllCaptured(st))
    && (forall p :: 0 <= p < |st.streams| && st.streams[p].stage.Ended? ==> st.allow)
  }

  /** A failure anywhere is recorded, and only failures are. */
  ghost predicate Failures(st: State) {
    && (st.failed ==> st.first.Some?) && (st.first.Some? && !st.allow ==> st.failed)
    && (st.first.Some? ==> st.first.value < |st.streams| && st.streams[st.first.value].primary)
    && (forall p :: 0 <= p < |st.streams| && st.streams[p].primary ==> !st.streams[p].stage.Running? && st.first.Some?)
  }

  ghost predicate Outcome(st: State) {
    && (Finished(st) ==> AllEnded(st))
    && (st.main.Returned? ==> st.first.None?)
    && (st.main.RaisedFrom? ==> st.first == Some(st.main.stream))
  }

  ghost predicate Inv(prog: Program, st: State) {
    Shape(prog, st) && Recording(prog, st) && Barrier(st) && Failures(st) && Outcome(st)
  }

  lemma InitKeeps(prog: Program)
    ensures Inv(prog, Init(prog))
  {
  }

  lemma FailingKeeps(prog: Program, st: State, p: nat)
    requires Inv(prog, st) && !Finished(st) && p < |prog| && st.streams[p].stage.Running?
    ensures Inv(prog, Failing(st, p))
  {
    var n := Failing(st, p);
    forall q, i | 0 <= q < |prog| && 0 <= i < Reached(prog, n, q) && (n.streams[q].stage.Running? || n.first.None?)
      ensures Done(n, prog[q][i])
    {
      assert q != p && Done(st, prog[q][i]);
    }
  }

  /** Signals and results only grow, so what was done stays done. */
  lemma AdvancedKeeps(prog: Program, st: State, p: nat, n: State)
    requires Inv(prog, st) && !Finished(st) && p < |prog| && st.streams[p].stage.Running?
    requires n.streams == Advanced(st, p).streams && st.streams[p].stage.pc < |prog[p]|
    requires st.signalled <= n.signalled && st.results <= n.results
    requires n.failed == st.failed && n.allow == st.allow && n.first == st.first && n.main == st.main
    requires Done(n, prog[p][st.streams[p].stage.pc])
    ensures Inv(prog, n)
  {
    forall q, i | 0 <= q < |prog| && 0 <= i < Reached(prog, n, q) && (n.streams[q].stage.Running? || n.first.None?)
      ensures Done(n, prog[q][i])
    {
      if q != p || i < st.streams[p].stage.pc {
        assert i < Reached(prog, st, q) && Done(st, prog[q][i]);
      }
    }
  }

  lemma WorkKeeps(prog: Program, known: set<nat>, st: State, p: nat)
    requires Inv(prog, st) && !Finished(st) && p < |prog| && StreamEnabled(prog, known, st, p, Work)
    ensures Inv(prog, Next(prog, known, st, Go(p, Work)))
  {
    var pc := st.streams[p].stage.pc;
    var n := Next(prog, known, st, Go(p, Work));
    if pc == |prog[p]| {
      ParkedKeeps(prog, st, p);
    } else if n == Failing(st, p) {
      FailingKeeps(prog, st, p);
    } else {
      AdvancedKeeps(prog, st, p, n);
    }
  }

  lemma ParkedKeeps(prog: Program, st: State, p: nat)
    requires Inv(prog, st) && !Finished(st) && p < |prog|
    requires st.streams[p].stage.Running? && st.streams[p].stage.pc == |prog[p]|
    ensures Inv(prog, SetStream(st, p, Stream(Parked, st.streams[p].primary)))
  {
    var n := SetStream(st, p, Stream(Parked, st.streams[p].primary));
    forall q, i | 0 <= q < |prog| && 0 <= i < Reached(prog, n, q) && (n.streams[q].stage.Running? || n.first.None?)
      ensures Done(n, prog[q][i])
    {
      assert i < Reached(prog, st, q) && Done(st, prog[q][i]);
    }
  }

  lemma TornDownKeeps(prog: Program, st: State, p: nat, errs: bool)
    requires Inv(prog, st) && !Finished(st) && p < |prog| && st.streams[p].stage.Parked? && st.allow
    ensures Inv(prog, TornDown(st, p, errs))
  {
    var n := TornDown(st, p, errs);
    forall q, i | 0 <= q < |prog| && 0 <= i < Reached(prog, n, q) && (n.streams[q].stage.Running? || n.first.None?)
      ensures Done(n, prog[q][i])
    {
      assert i < Reached(prog, st, q) && Done(st, prog[q][i]);
    }
  }

  lemma NextKeeps(prog: Program, known: set<nat>, st: State, m: Move)
    requires Inv(prog, st) && Enabled(prog, known, st, m)
    ensures Inv(prog, Next(prog, known, st, m))
  {
    match m
    case Coordinate =>
    case Go(p, c) =>
      match c {
        case Work => WorkKeeps(prog, known, st, p);
        case SkipReport => AdvancedKeeps(prog, st, p, Advanced(st, p));
        case Break => FailingKeeps(prog, st, p);
        case TearDown(errs) => TornDownKeeps(prog, st, p, errs);
      }
  }

  lemma {:induction false} RunKeeps(prog: Program, known: set<nat>, st: State, moves: seq<Move>)
    requires Inv(prog, st) && Runs(prog, known, st, moves)
    ensures Inv(prog, RunFrom(prog, known, st, moves))
    decreases |moves|
  {
    if moves != [] {
      NextKeeps(prog, known, st, moves[0]);
      RunKeeps(prog, known, Next(prog, known, st, moves[0]), moves[1..]);
    }
  }

  /** No runner is torn down before every stream has finished capturing, unless capture failed. */
  lemma TeardownWaitsForCapture(prog: Program, known: set<nat>, moves: seq<Move>, p: nat)
    requires Runs(prog, known, Init(prog), moves) && p < |prog|
    requires RunFrom(prog, known, Init(prog), moves).streams[p].stage.Ended?
    ensures var n := RunFrom(prog, known, Init(prog), moves); n.failed || AllCaptured(n)
  {
    InitKeeps(prog);
    RunKeeps(prog, known, Init(prog), moves);
  }

  /** A normal return means every beat has its result and all the action events it needed. */
  lemma ReturnIsComplete(prog: Program, known: set<nat>, moves: seq<Move>)
    requires Runs(prog, known, Init(prog), moves)
    requires RunFrom(prog, known, Init(prog), moves).main.Returned?
    ensures var n := RunFrom(prog, known, Init(prog), moves);
      forall p, i :: 0 <= p < |prog| && 0 <= i < |prog[p]| && prog[p][i].Record? ==>
        prog[p][i].beat in n.results && prog[p][i].needs <= n.signalled
  {
    InitKeeps(prog);
    RunKeeps(prog, known, Init(prog), moves);
    var n := RunFrom(prog, known, Init(prog), moves);
    forall p, i | 0 <= p < |prog| && 0 <= i < |prog[p]| && prog[p][i].Record?
      ensures prog[p][i].beat in n.results && prog[p][i].needs <= n.signalled
    {
      assert Reached(prog, n, p) == |prog[p]|;
      assert Done(n, prog[p][i]);
    }
  }

  /** The first recorded failure is never replaced. */
  lemma {:induction false} FirstStays(prog: Program, known: set<nat>, st: State, moves: seq<Move>)
    requires Shape(prog, st) && Runs(prog, known, st, moves) && st.first.Some?
    ensures RunFrom(prog, known, st, moves).first == st.first
    decreases |moves|
  {
    if moves != [] {
      var n := Next(prog, known, st, moves[0]);
      assert n.first == st.first;
      FirstStays(prog, known, n, moves[1..]);
    }
  }

  lemma {:induction false} RunSplit(prog: Program, known: set<nat>, st: State, a: seq<Move>, b: seq<Move>)
    requires Shape(prog, st)
    ensures Runs(prog, known, st, a + b)
      <==> Runs(prog, known, st, a) && Runs(prog, known, RunFrom(prog, known, st, a), b)
    ensures Runs(prog, known, st, a + b) ==>
      RunFrom(prog, known, st, a + b) == RunFrom(prog, known, RunFrom(prog, known, st, a), b)
    decreases |a|
  {
    if a == [] {
      assert a + b == b;
    } else {
      assert (a + b)[0] == a[0] && (a + b)[1..] == a[1..] + b;
      if Enabled(prog, known, st, a[0]) {
        RunSplit(prog, known, Next(prog, known, st, a[0]), a[1..], b);
      }
    }
  }

  /** A capture raises exactly when some stream failed, and then the first failure recorded, whatever follows it. */
  lemma RaisesTheFirstFailure(prog: Program, known: set<nat>, before: seq<Move>, after: seq<Move>)
    requires Runs(prog, known, Init(prog), before + after)
    requires Finished(RunFrom(prog, known, Init(prog), before + after))
    ensures Runs(prog, known, Init(prog), before)
    ensures var mid, end := RunFrom(prog, known, Init(prog), before), RunFrom(prog, known, Init(prog), before + after);
      && (mid.first.Some? ==> end.main == RaisedFrom(mid.first.value))
      && (end.main.Returned? <==> forall p :: 0 <= p < |end.streams| ==> !end.streams[p].primary)
  {
    InitKeeps(prog);
    RunKeeps(prog, known, Init(prog), before + after);
    RunSplit(prog, known, Init(prog), before, after);
    var mid := RunFrom(prog, known, Init(prog), before);
    if mid.first.Some? {
      FirstStays(prog, known, mid, after);
    }
  }

  // ---------- Every run ends ----------

  function Left(program: seq<Instr>, s: Stream): nat {
    match s.stage
    case Running(pc) => if pc <= |program| then |program| - pc + 2 else 0
    case Parked => 1
    case Ended => 0
  }

  function LeftFrom(prog: Program, streams: seq<Stream>, p: nat): nat
    requires |streams| == |prog| && p <= |prog|
    decreases |prog| - p
  {
    if p == |prog| then 0 else Left(prog[p], streams[p]) + LeftFrom(prog, streams, p + 1)
  }

  function Measure(prog: Program, st: State): nat
    requires Shape(prog, st)
  {
    LeftFrom(prog, st.streams, 0) + (match st.main case Polling => 2 case Joining => 1 case _ => 0)
  }

  lemma {:induction false} LeftUpdated(prog: Program, streams: seq<Stream>, q: nat, s: Stream, p: nat)
    requires |streams| == |prog| && p <= |prog| && q < |prog|
    ensures p > q ==> LeftFrom(prog, streams[q := s], p) == LeftFrom(prog, streams, p)
    ensures p <= q ==>
      LeftFrom(prog, streams[q := s], p) == LeftFrom(prog, streams, p) - Left(prog[q], streams[q]) + Left(prog[q], s)
    decreases |prog| - p
  {
    if p < |prog| {
      LeftUpdated(prog, streams, q, s, p + 1);
    }
  }

  /** A stream's move leaves the others and the main thread alone, and has less left to do. */
  lemma StreamProgress(prog: Program, known: set<nat>, st: State, m: Move)
    requires Shape(prog, st) && Enabled(prog, known, st, m) && m.Go?
    ensures var n := Next(prog, known, st, m);
      && n.main == st.main && n.streams == st.streams[m.p := n.streams[m.p]]
      && Left(prog[m.p], n.streams[m.p]) < Left(prog[m.p], st.streams[m.p])
  {
  }

  lemma MovesProgress(prog: Program, known: set<nat>, st: State, m: Move)
    requires Shape(prog, st) && Enabled(prog, known, st, m)
    ensures Measure(prog, Next(prog, known, st, m)) < Measure(prog, st)
  {
    if m.Go? {
      StreamProgress(prog, known, st, m);
      LeftUpdated(prog, st.streams, m.p, Next(prog, known, st, m).streams[m.p], 0);
    }
  }

  /** However threads are scheduled and whatever fails, no run is longer than the measure. */
  lemma {:induction false} EveryRunEnds(prog: Program, known: set<nat>, st: State, moves: seq<Move>)
    requires Shape(prog, st) && Runs(prog, known, st, moves)
    ensures |moves| + Measure(prog, RunFrom(prog, known, st, moves)) <= Measure(prog, st)
    decreases |moves|
  {
    if moves != [] {
      MovesProgress(prog, known, st, moves[0]);
      EveryRunEnds(prog, known, Next(prog, known, st, moves[0]), moves[1..]);
    }
  }

  // ---------- No deadlock ----------

  /** A topological numbering of the authored work: it grows along each stream and from signal to wait. */
  type Numbering = seq<seq<nat>>

  ghost predicate SignalledBefore(prog: Program, rank: Numbering, e: nat, k: nat)
    requires |rank| == |prog|
  {
    exists q, j :: 0 <= q < |prog| && 0 <= j < |prog[q]| && |rank[q]| == |prog[q]| && prog[q][j] == Signal(e)
      && rank[q][j] < k
  }

  ghost predicate Numbered(prog: Program, known: set<nat>, rank: Numbering) {
    && |rank| == |prog|
    && (forall p :: 0 <= p < |prog| ==> |rank[p]| == |prog[p]|)
    && (forall p, i, j :: 0 <= p < |prog| && 0 <= i < j < |rank[p]| ==> rank[p][i] < rank[p][j])
    && (forall p, i :: 0 <= p < |prog| && 0 <= i < |prog[p]| && prog[p][i].Await? && prog[p][i].e in known ==>
          SignalledBefore(prog, rank, prog[p][i].e, rank[p][i]))
  }

  /** Runners reported every action they passed; failed streams are exempt. */
  ghost predicate Reporting(prog: Program, known: set<nat>, st: State)
    requires Shape(prog, st)
  {
    forall p, i :: 0 <= p < |prog| && 0 <= i < Reached(prog, st, p) && !st.streams[p].primary && prog[p][i].Signal? ==>
      prog[p][i].e in st.signalled
  }

  lemma ReportingNext(prog: Program, known: set<nat>, st: State, m: Move)
    requires Inv(prog, st) && Reporting(prog, known, st) && Enabled(prog, known, st, m)
    requires !(m.Go? && m.choice.SkipReport?)
    ensures Reporting(prog, known, Next(prog, known, st, m))
  {
    var n := Next(prog, known, st, m);
    forall p, i | 0 <= p < |prog| && 0 <= i < Reached(prog, n, p) && !n.streams[p].primary && prog[p][i].Signal?
      ensures prog[p][i].e in n.signalled
    {
      assert !st.streams[p].primary;
      if i < Reached(prog, st, p) {
        assert prog[p][i].e in st.signalled;
      }
    }
  }

  /** Follows a blocked wait back to the stream that can move: its signaller stands at a smaller number. */
  lemma {:induction false} Unblock(prog: Program, known: set<nat>, rank: Numbering, st: State, p: nat) returns (q: nat)
    requires Inv(prog, st) && Reporting(prog, known, st) && Numbered(prog, known, rank)
    requires !Finished(st) && !st.failed && st.first.None? && p < |prog| && st.streams[p].stage.Running?
    ensures q < |prog| && StreamEnabled(prog, known, st, q, Work)
    decreases if st.streams[p].stage.pc < |prog[p]| then rank[p][st.streams[p].stage.pc] else 0
  {
    var pc := st.streams[p].stage.pc;
    if pc < |prog[p]| && Blocked(known, st, prog[p][pc]) {
      var e := prog[p][pc].e;
      var r, j :| 0 <= r < |prog| && 0 <= j < |prog[r]| && prog[r][j] == Signal(e) && rank[r][j] < rank[p][pc];
      assert !st.streams[r].primary;
      assert Reached(prog, st, r) <= j;
      var at := st.streams[r].stage.pc;
      assert rank[r][at] <= rank[r][j];
      q := Unblock(prog, known, rank, st, r);
    } else {
      q := p;
    }
  }

  /** The thread whose next step is enabled in an unfinished capture. */
  lemma SomethingMoves(prog: Program, known: set<nat>, rank: Numbering, st: State) returns (m: Move)
    requires Inv(prog, st) && Reporting(prog, known, st) && Numbered(prog, known, rank) && !Finished(st)
    ensures Enabled(prog, known, st, m) && !(m.Go? && (m.choice.SkipReport? || m.choice.Break?))
    ensures m.Go? && m.choice.TearDown? ==> !m.choice.errs
  {
    if (st.main.Polling? && (st.failed || AllCaptured(st))) || (st.main.Joining? && AllEnded(st)) {
      m := Coordinate;
    } else if st.main.Joining? {
      var p :| 0 <= p < |st.streams| && !st.streams[p].stage.Ended?;
      m := Go(p, if st.streams[p].stage.Parked? then TearDown(false) else Work);
    } else {
      var p :| 0 <= p < |st.streams| && st.streams[p].stage.Running?;
      var q := Unblock(prog, known, rank, st, p);
      m := Go(q, Work);
    }
  }

  /** Once capture has failed, no stream stays blocked in a coordination wait. */
  lemma FailureReleasesWaits(prog: Program, known: set<nat>, st: State, p: nat)
    requires Inv(prog, st) && !Finished(st) && st.failed && p < |prog| && st.streams[p].stage.Running?
    ensures Enabled(prog, known, st, Go(p, Work))
    ensures st.streams[p].stage.pc < |prog[p]| ==>
      var i := prog[p][st.streams[p].stage.pc];
      i.Await? && i.e !in st.signalled ==> !Next(prog, known, st, Go(p, Work)).streams[p].stage.Running?
  {
  }

  /** Moves in which runners report every action and nothing fails. */
  predicate Faultless(m: Move) {
    m.Go? ==> m.choice.Work? || m.choice == TearDown(false)
  }

  ghost predicate AllFaultless(moves: seq<Move>) {
    forall i :: 0 <= i < |moves| ==> Faultless(moves[i])
  }

  /** Numbered work never deadlocks: from any state whose runners reported, faultless moves finish the capture. */
  lemma {:induction false} NumberedWorkFinishes(prog: Program, known: set<nat>, rank: Numbering, st: State)
    returns (moves: seq<Move>)
    requires Inv(prog, st) && Reporting(prog, known, st) && Numbered(prog, known, rank)
    ensures Runs(prog, known, st, moves) && Finished(RunFrom(prog, known, st, moves)) && AllFaultless(moves)
    decreases Measure(prog, st)
  {
    moves := [];
    if !Finished(st) {
      var m := SomethingMoves(prog, known, rank, st);
      var n := Next(prog, known, st, m);
      NextKeeps(prog, known, st, m);
      ReportingNext(prog, known, st, m);
      MovesProgress(prog, known, st, m);
      var rest := NumberedWorkFinishes(prog, known, rank, n);
      moves := [m] + rest;
      assert moves[0] == m && moves[1..] == rest;
    }
  }

  ghost predicate NoSkips(moves: seq<Move>) {
    forall i :: 0 <= i < |moves| ==> !(moves[i].Go? && moves[i].choice.SkipReport?)
  }

  lemma {:induction false} RunReports(prog: Program, known: set<nat>, st: State, moves: seq<Move>)
    requires Inv(prog, st) && Reporting(prog, known, st) && Runs(prog, known, st, moves) && NoSkips(moves)
    ensures Reporting(prog, known, RunFrom(prog, known, st, moves))
    decreases |moves|
  {
    if moves != [] {
      assert !(moves[0].Go? && moves[0].choice.SkipReport?);
      NextKeeps(prog, known, st, moves[0]);
      ReportingNext(prog, known, st, moves[0]);
      RunReports(prog, known, Next(prog, known, st, moves[0]), moves[1..]);
    }
  }

  // ---------- A numbering is what some schedule shows ----------

  ghost predicate SeenBefore(prog: Program, times: Numbering, e: nat, k: nat)
    requires |times| == |prog|
  {
    exists q, j :: 0 <= q < |prog| && 0 <= j < |times[q]| && j < |prog[q]| && prog[q][j] == Signal(e) && times[q][j] < k
  }

  /** When each step so far was made: before `now`, in order along each stream, each wait after its signal. */
  ghost predicate Timed(prog: Program, known: set<nat>, st: State, times: Numbering, now: nat)
    requires Shape(prog, st)
  {
    && |times| == |prog|
    && (forall p :: 0 <= p < |prog| ==> |times[p]| == Reached(prog, st, p))
    && (forall p, i :: 0 <= p < |prog| && 0 <= i < |times[p]| ==> times[p][i] < now)
    && (forall p, i, j :: 0 <= p < |prog| && 0 <= i < j < |times[p]| ==> times[p][i] < times[p][j])
    && (forall e :: e in st.signalled ==> SeenBefore(prog, times, e, now))
    && (forall p, i :: 0 <= p < |prog| && 0 <= i < |times[p]| && i < |prog[p]| &&
                       prog[p][i].Await? && prog[p][i].e in known ==>
          SeenBefore(prog, times, prog[p][i].e, times[p][i]))
  }

  lemma SeenLater(prog: Program, times: Numbering, more: Numbering, e: nat, k: nat, l: nat)
    requires |times| == |prog| == |more| && k <= l && SeenBefore(prog, times, e, k)
    requires forall q :: 0 <= q < |prog| ==> times[q] <= more[q]
    ensures SeenBefore(prog, more, e, l)
  {
    var q, j :| 0 <= q < |prog| && 0 <= j < |times[q]| && j < |prog[q]| && prog[q][j] == Signal(e) && times[q][j] < k;
    assert more[q][j] == times[q][j];
  }

  /** A step made at `now` is timed then; everything else keeps its time. */
  lemma TimeStep(prog: Program, known: set<nat>, st: State, times: Numbering, now: nat, p: nat)
    returns (more: Numbering)
    requires Shape(prog, st) && Timed(prog, known, st, times, now) && !Finished(st)
    requires p < |prog| && StreamEnabled(prog, known, st, p, Work) && st.streams[p].stage.pc < |prog[p]|
    requires Next(prog, known, st, Go(p, Work)).first.None?
    ensures Timed(prog, known, Next(prog, known, st, Go(p, Work)), more, now + 1)
  {
    var pc, n := st.streams[p].stage.pc, Next(prog, known, st, Go(p, Work));
    more := times[p := times[p] + [now]];
    assert n != Failing(st, p);
    forall e | e in n.signalled ensures SeenBefore(prog, more, e, now + 1) {
      if e in st.signalled {
        SeenLater(prog, times, more, e, now, now + 1);
      } else {
        assert prog[p][pc] == Signal(e) && more[p][pc] == now;
      }
    }
    forall q, i | 0 <= q < |prog| && 0 <= i < |more[q]| && i < |prog[q]| && prog[q][i].Await? && prog[q][i].e in known
      ensures SeenBefore(prog, more, prog[q][i].e, more[q][i])
    {
      if q == p && i == pc {
        SeenLater(prog, times, more, prog[q][i].e, now, now);
      } else {
        assert more[q][i] == times[q][i];
        SeenLater(prog, times, more, prog[q][i].e, times[q][i], times[q][i]);
      }
    }
  }

  lemma TimeAside(prog: Program, known: set<nat>, st: State, n: State, times: Numbering, now: nat)
    requires Shape(prog, st) && Shape(prog, n) && Timed(prog, known, st, times, now) && n.signalled == st.signalled
    requires forall p :: 0 <= p < |prog| ==> Reached(prog, n, p) == Reached(prog, st, p)
    ensures Timed(prog, known, n, times, now + 1)
  {
    forall e | e in n.signalled ensures SeenBefore(prog, times, e, now + 1) {
      SeenLater(prog, times, times, e, now, now + 1);
    }
  }

  lemma {:induction false} TimeRun(prog: Program, known: set<nat>, st: State, moves: seq<Move>, times: Numbering,
                                   now: nat)
    returns (rank: Numbering)
    requires Shape(prog, st) && Runs(prog, known, st, moves) && NoSkips(moves)
    requires Timed(prog, known, st, times, now) && RunFrom(prog, known, st, moves).first.None?
    ensures Timed(prog, known, RunFrom(prog, known, st, moves), rank, now + |moves|)
    decreases |moves|
  {
    rank := times;
    if moves != [] {
      var m, n := moves[0], Next(prog, known, st, moves[0]);
      assert !(m.Go? && m.choice.SkipReport?);
      if n.first.Some? {
        FirstStays(prog, known, n, moves[1..]);
      }
      var more := times;
      if m.Go? && m.choice.Work? && st.streams[m.p].stage.pc < |prog[m.p]| {
        more := TimeStep(prog, known, st, times, now, m.p);
      } else {
        TimeAside(prog, known, st, n, times, now);
      }
      rank := TimeRun(prog, known, n, moves[1..], more, now + 1);
    }
  }

  /** A capture that once returned normally shows a numbering of its work. */
  lemma ReturnShowsNumbering(prog: Program, known: set<nat>, moves: seq<Move>) returns (rank: Numbering)
    requires Runs(prog, known, Init(prog), moves) && NoSkips(moves)
    requires RunFrom(prog, known, Init(prog), moves).main.Returned?
    ensures Numbered(prog, known, rank)
  {
    InitKeeps(prog);
    RunKeeps(prog, known, Init(prog), moves);
    var none := seq(|prog|, i => []);
    assert Timed(prog, known, Init(prog), none, 0);
    rank := TimeRun(prog, known, Init(prog), moves, none, 0);
    var n := RunFrom(prog, known, Init(prog), moves);
    assert forall p :: 0 <= p < |prog| ==> Reached(prog, n, p) == |prog[p]|;
    forall p, i | 0 <= p < |prog| && 0 <= i < |prog[p]| && prog[p][i].Await? && prog[p][i].e in known
      ensures SignalledBefore(prog, rank, prog[p][i].e, rank[p][i])
    {
      assert SeenBefore(prog, rank, prog[p][i].e, rank[p][i]);
    }
  }

  /**
   * Deadlock does not depend on the schedule: if one schedule returns, then after any other moves in
   * which runners report what they do, faultless moves still finish the capture.
   */
  lemma OneReturnMeansNoDeadlock(prog: Program, known: set<nat>, good: seq<Move>, other: seq<Move>)
    returns (rest: seq<Move>)
    requires Runs(prog, known, Init(prog), good) && NoSkips(good)
      && RunFrom(prog, known, Init(prog), good).main.Returned?
    requires Runs(prog, known, Init(prog), other) && NoSkips(other)
    ensures var n := RunFrom(prog, known, Init(prog), other);
      Runs(prog, known, n, rest) && Finished(RunFrom(prog, known, n, rest)) && AllFaultless(rest)
  {
    var rank := ReturnShowsNumbering(prog, known, good);
    InitKeeps(prog);
    RunKeeps(prog, known, Init(prog), other);
    RunReports(prog, known, Init(prog), other);
    rest := NumberedWorkFinishes(prog, known, rank, RunFrom(prog, known, Init(prog), other));
  }

  // ---------- The work a plan authors ----------

  /** An action with its event pair, the join it waits for, and the events its inputs are produced by. */
  datatype Action = Action(started: nat, ended: nat, join: Option<nat>, producers: seq<nat>)
  datatype Beat = Beat(id: nat, join: Option<nat>, actions: seq<Action>)
  datatype Pane = Pane(beats: seq<Beat>, lifecycle: bool)
  datatype Plan = Plan(panes: seq<Pane>, setup: Option<nat>)

  function Waits(join: Option<nat>): seq<Instr> { if join.Some? then [Await(join.value)] else [] }

  function ActionSteps(a: Action): seq<Instr> {
    Waits(a.join) + seq(|a.producers|, i requires 0 <= i < |a.producers| => Await(a.producers[i]))
      + [Signal(a.started), Signal(a.ended)]
  }

  function ActionsSteps(actions: seq<Action>): seq<Instr> {
    if actions == [] then [] else ActionSteps(actions[0]) + ActionsSteps(actions[1..])
  }

  function ActionEvents(actions: seq<Action>): set<nat> {
    if actions == [] then {} else {actions[0].started, actions[0].ended} + ActionEvents(actions[1..])
  }

  function BeatSteps(b: Beat): seq<Instr> {
    Waits(b.join) + ActionsSteps(b.actions) + [Record(b.id, ActionEvents(b.actions))]
  }

  function BeatsSteps(beats: seq<Beat>): seq<Instr> {
    if beats == [] then [] else BeatSteps(beats[0]) + BeatsSteps(beats[1..])
  }

  /** The lifecycle pane runs the project's setup, which every other pane waits for. */
  function PaneSteps(pane: Pane, setup: Option<nat>): seq<Instr> {
    (if setup.None? then [] else if pane.lifecycle then [Signal(setup.value)] else [Await(setup.value)])
      + BeatsSteps(pane.beats)
  }

  function Authored(plan: Plan): Program {
    seq(|plan.panes|, p requires 0 <= p < |plan.panes| => PaneSteps(plan.panes[p], plan.setup))
  }

  lemma {:induction false} EventsCovered(actions: seq<Action>, k: nat)
    requires k < |actions|
    ensures actions[k].started in ActionEvents(actions) && actions[k].ended in ActionEvents(actions)
  {
    if k > 0 {
      EventsCovered(actions[1..], k - 1);
    }
  }

  lemma {:induction false} BeatRecorded(beats: seq<Beat>, k: nat) returns (i: nat)
    requires k < |beats|
    ensures i < |BeatsSteps(beats)| && BeatsSteps(beats)[i] == Record(beats[k].id, ActionEvents(beats[k].actions))
  {
    if k == 0 {
      i := |BeatSteps(beats[0])| - 1;
    } else {
      var j := BeatRecorded(beats[1..], k - 1);
      i := |BeatSteps(beats[0])| + j;
    }
  }

  /** After a normal return every beat of every pane has a result, and both events of each of its actions are set. */
  lemma PlanReturnIsComplete(plan: Plan, known: set<nat>, moves: seq<Move>, p: nat, k: nat)
    requires Runs(Authored(plan), known, Init(Authored(plan)), moves)
    requires RunFrom(Authored(plan), known, Init(Authored(plan)), moves).main.Returned?
    requires p < |plan.panes| && k < |plan.panes[p].beats|
    ensures var n, b := RunFrom(Authored(plan), known, Init(Authored(plan)), moves), plan.panes[p].beats[k];
      && b.id in n.results
      && forall a :: a in b.actions ==> a.started in n.signalled && a.ended in n.signalled
  {
    var prog, b := Authored(plan), plan.panes[p].beats[k];
    var n := RunFrom(prog, known, Init(prog), moves);
    var j := BeatRecorded(plan.panes[p].beats, k);
    var i := |prog[p]| - |BeatsSteps(plan.panes[p].beats)| + j;
    assert prog[p][i] == Record(b.id, ActionEvents(b.actions));
    ReturnIsComplete(prog, known, moves);
    forall a | a in b.actions ensures a.started in n.signalled && a.ended in n.signalled {
      var m :| 0 <= m < |b.actions| && b.actions[m] == a;
      EventsCovered(b.actions, m);
    }
  }
}
