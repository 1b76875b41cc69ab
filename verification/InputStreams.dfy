/** When the whole typed stream is safe: each plan is scanned alone, so only the seams between plans are open. */
module InputStreams {
  import opened Common
  import opened Wire
  import opened Client
  import Operation
  import Transport

  // ---------- The seams of a run ----------

  /** No reserved pair lies across place `b` of the stream. */
  predicate Joins(typed: bytes, b: nat)
    requires b <= |typed|
  {
    Meets(typed[..b], typed[b..])
  }

  /** Plans were adopted within the stream, and a reserved pair can lie only across a place of adoption. */
  ghost predicate Seamed(typed: bytes, bases: seq<nat>) {
    && (forall i :: 0 <= i < |bases| ==> bases[i] <= |typed|)
    && (forall k :: 0 <= k < |typed| - 1 ==> Clear(typed, k) || k + 1 in bases)
  }

  ghost predicate AllJoin(typed: bytes, bases: seq<nat>)
    requires Seamed(typed, bases)
  {
    forall i :: 0 <= i < |bases| ==> Joins(typed, bases[i])
  }

  lemma SeamsDecide(typed: bytes, bases: seq<nat>)
    requires Seamed(typed, bases)
    ensures Safe(typed) <==> AllJoin(typed, bases)
  {
    if Safe(typed) {
      forall i | 0 <= i < |bases| ensures Joins(typed, bases[i]) {
        assert typed == typed[..bases[i]] + typed[bases[i]..];
        SafeParts(typed[..bases[i]], typed[bases[i]..]);
      }
    }
    if AllJoin(typed, bases) {
      forall k | 0 <= k < |typed| - 1 ensures Clear(typed, k) {
        if k + 1 in bases {
          var i :| 0 <= i < |bases| && bases[i] == k + 1;
          assert Joins(typed, bases[i]);
        }
      }
    }
  }

  lemma TypedMore(typed: bytes, bases: seq<nat>, data: bytes, base: nat)
    requires Seamed(typed, bases) && base <= |typed| && (base == 0 || base in bases)
    requires Safe((typed + data)[base..])
    ensures Seamed(typed + data, bases)
  {
    var more := typed + data;
    forall k | 0 <= k < |more| - 1 ensures Clear(more, k) || k + 1 in bases {
      if k >= base {
        assert Clear(more[base..], k - base);
      } else if k + 1 < |typed| {
        assert Clear(typed, k) || k + 1 in bases;
      }
    }
  }

  ghost predicate Follows(c: Cli) { Inv(c) && Seamed(TypedBytes(c.log), c.bases) }

  lemma AskFollows(op: Operation.Proto, c: Cli, ready: bool, raw: nat, rec: bool, r: Request, inputs: seq<bytes>,
                   encode: Encoder, sent: bool)
    requires Follows(c)
    ensures Follows(Ask(op, c, ready, raw, rec, r, inputs, encode, sent).cli)
  {
    AskKeeps(op, c, ready, raw, rec, r, inputs, encode, sent);
    LogSnoc(c.log, Posted(Framed(Prepared(c, r, inputs), r), raw));
    assert TypedBytes(c.log) + [] == TypedBytes(c.log);
    AdoptedFollows(TypedBytes(c.log), c.bases, c.inputThrough);
  }

  lemma AdoptedFollows(typed: bytes, bases: seq<nat>, b: nat)
    requires Seamed(typed, bases) && b <= |typed|
    ensures Seamed(typed, bases + [b])
  {
    forall k | 0 <= k < |typed| - 1 ensures Clear(typed, k) || k + 1 in bases + [b] {
      assert Clear(typed, k) || k + 1 in bases;
    }
  }

  lemma TypingFollows(c: Cli)
    requires Follows(c) && c.inputWriting
    ensures Follows(TypingDone(c))
  {
    var data, d := c.chunks[c.index], TypingDone(c);
    TypedKeeps(c);
    LogSnoc(c.log, Typed(data));
    PlanBegun(d);
    assert c.bases != [] ==> Base(c) in c.bases;
    TypedMore(TypedBytes(c.log), c.bases, data, Base(c));
  }

  /** A step that neither posts nor types leaves the stream and the plan alone. */
  lemma AsideTypes(c: Cli, encode: Encoder, s: Step)
    requires s.BeginStep? || s.ObserveStep?
    ensures var m := Do(c, encode, s);
      m.log == c.log && m.bases == c.bases && m.chunks == c.chunks && m.inputThrough == c.inputThrough
  {
  }

  lemma EndFollows(c: Cli, written: bool)
    requires Follows(c)
    ensures Follows(EndTyping(c, written))
  {
    if c.inputWriting && written {
      TypingFollows(c);
    } else {
      EndKeeps(c, written);
      assert EndTyping(c, written).log == c.log && EndTyping(c, written).bases == c.bases;
    }
  }

  lemma DoFollows(c: Cli, encode: Encoder, s: Step)
    requires Follows(c)
    ensures Follows(Do(c, encode, s))
  {
    if s.AskStep? {
      AskFollows(s.op, c, s.ready, s.raw, s.rec, s.request, s.inputs, encode, s.sent);
    } else if s.EndStep? {
      EndFollows(c, s.written);
    } else {
      DoKeeps(c, encode, s);
      AsideTypes(c, encode, s);
    }
  }

  lemma {:induction false} RunFollows(c: Cli, encode: Encoder, steps: seq<Step>)
    requires Follows(c)
    ensures Follows(RunFrom(c, encode, steps))
    decreases |steps|
  {
    if steps != [] {
      DoFollows(c, encode, steps[0]);
      RunFollows(Do(c, encode, steps[0]), encode, steps[1..]);
    }
  }

  lemma FreshFollows(readyThrough: int)
    requires 0 <= readyThrough <= 4096
    ensures Follows(FreshClient(readyThrough))
  {
  }

  /**
   * In every run the bytes typed hold no reserved pair exactly when, wherever a plan was adopted, the
   * bytes typed before it and since do not meet in one.
   */
  lemma StreamIsSafeExactly(readyThrough: int, encode: Encoder, steps: seq<Step>)
    requires 0 <= readyThrough <= 4096
    ensures var c := RunFrom(FreshClient(readyThrough), encode, steps);
      && Seamed(TypedBytes(c.log), c.bases)
      && (Safe(TypedBytes(c.log)) <==> AllJoin(TypedBytes(c.log), c.bases))
  {
    var c := RunFrom(FreshClient(readyThrough), encode, steps);
    FreshFollows(readyThrough);
    RunFollows(FreshClient(readyThrough), encode, steps);
    SeamsDecide(TypedBytes(c.log), c.bases);
  }

  // ---------- What a caller can check ----------

  lemma {:induction false} PlanGoesOn(c: Cli, encode: Encoder, steps: seq<Step>)
    requires Inv(c) && NoExecute(steps)
    ensures var d := RunFrom(c, encode, steps);
      Inv(d) && d.bases == c.bases && d.chunks == c.chunks && TypedBytes(c.log) <= TypedBytes(d.log)
    decreases |steps|
  {
    if steps != [] {
      var s, m := steps[0], Do(c, encode, steps[0]);
      assert !(s.AskStep? && s.request.Execute?);
      DoKeeps(c, encode, s);
      StepTypes(c, encode, s);
      PlanGoesOn(m, encode, steps[1..]);
    }
  }

  lemma AskTypes(op: Operation.Proto, c: Cli, ready: bool, raw: nat, rec: bool, r: Request, inputs: seq<bytes>,
                 encode: Encoder, sent: bool)
    requires !r.Execute?
    ensures var m := Ask(op, c, ready, raw, rec, r, inputs, encode, sent).cli;
      m.bases == c.bases && m.chunks == c.chunks && TypedBytes(m.log) == TypedBytes(c.log)
  {
    LogSnoc(c.log, Posted(Framed(c, r), raw));
    assert TypedBytes(c.log) + [] == TypedBytes(c.log);
  }

  lemma EndTypes(c: Cli, written: bool)
    requires Inv(c)
    ensures var m := EndTyping(c, written);
      m.bases == c.bases && m.chunks == c.chunks && TypedBytes(c.log) <= TypedBytes(m.log)
  {
    if c.inputWriting {
      LogSnoc(c.log, Typed(c.chunks[c.index]));
    }
  }

  lemma StepTypes(c: Cli, encode: Encoder, s: Step)
    requires Inv(c) && !(s.AskStep? && s.request.Execute?)
    ensures var m := Do(c, encode, s);
      m.bases == c.bases && m.chunks == c.chunks && TypedBytes(c.log) <= TypedBytes(m.log)
  {
    if s.AskStep? {
      AskTypes(s.op, c, s.ready, s.raw, s.rec, s.request, s.inputs, encode, s.sent);
    } else if s.EndStep? {
      EndTypes(c, s.written);
    } else {
      AsideTypes(c, encode, s);
    }
  }

  lemma MeetsPart(a: bytes, whole: bytes, part: bytes)
    requires part <= whole && part != []
    ensures Meets(a, part) <==> Meets(a, whole)
  {
    assert part[0] == whole[0];
  }

  lemma JoinedSafe(before: bytes, part: bytes)
    requires Safe(before) && Safe(part)
    ensures Safe(before + part) <==> Meets(before, part)
  {
    if Safe(before + part) {
      SafeParts(before, part);
    } else if Meets(before, part) {
      SafeWhole(before, part);
    }
  }

  /**
   * The caller can tell at execute: after a safe stream, and until the next plan, what is typed stays
   * safe exactly if the last byte written and the first byte of the plan do not pair, or nothing of
   * the plan is written.
   */
  lemma SeamDecidesAtExecute(op: Operation.Proto, c: Cli, ready: bool, raw: nat, rec: bool, r: Request,
                             plan: seq<bytes>,
                             encode: Encoder, steps: seq<Step>)
    requires Inv(c) && Safe(TypedBytes(c.log)) && NoExecute(steps)
    requires r.Execute? && Ask(op, c, ready, raw, rec, r, plan, encode, true).verdict.Sent?
    ensures var d := RunFrom(Ask(op, c, ready, raw, rec, r, plan, encode, true).cli, encode, steps);
      Safe(TypedBytes(d.log)) <==> Meets(TypedBytes(c.log), Concat(plan)) || TypedBytes(d.log) == TypedBytes(c.log)
  {
    var e := Ask(op, c, ready, raw, rec, r, plan, encode, true).cli;
    AskKeeps(op, c, ready, raw, rec, r, plan, encode, true);
    LogSnoc(c.log, Posted(Framed(Planned(c, r.id, plan), r), raw));
    assert TypedBytes(c.log) + [] == TypedBytes(c.log);
    var d := RunFrom(e, encode, steps);
    PlanGoesOn(e, encode, steps);
    PlanBegun(d);
    TypedSincePlan(TypedBytes(c.log), TypedBytes(d.log), plan);
  }

  lemma TypedSincePlan(before: bytes, typed: bytes, plan: seq<bytes>)
    requires before <= typed && Safe(before) && typed[|before|..] <= Concat(plan) && Safe(typed[|before|..])
    ensures Safe(typed) <==> Meets(before, Concat(plan)) || typed == before
  {
    var part := typed[|before|..];
    assert typed == before + part;
    JoinedSafe(before, part);
    if part != [] {
      MeetsPart(before, Concat(plan), part);
    } else {
      assert typed == before;
    }
  }

  /** Every execute was checked against what had been written. */
  ghost predicate Checked(c: Cli, encode: Encoder, steps: seq<Step>)
    decreases |steps|
  {
    steps == [] ||
    ( && (steps[0].AskStep? && steps[0].request.Execute? ==> Meets(TypedBytes(c.log), Concat(steps[0].inputs)))
      && Checked(Do(c, encode, steps[0]), encode, steps[1..]))
  }

  /** What was typed before the current plan is safe, and meets the plan. */
  ghost predicate Guarded(c: Cli) {
    && Inv(c) && Safe(TypedBytes(c.log)[..Base(c)])
    && Meets(TypedBytes(c.log)[..Base(c)], Concat(c.chunks))
  }

  lemma GuardedIsSafe(c: Cli)
    requires Guarded(c)
    ensures Safe(TypedBytes(c.log))
  {
    var typed := TypedBytes(c.log);
    PlanBegun(c);
    TypedSincePlan(typed[..Base(c)], typed, c.chunks);
  }

  lemma AdoptedGuarded(op: Operation.Proto, c: Cli, ready: bool, raw: nat, rec: bool, r: Request, inputs: seq<bytes>,
                       encode: Encoder, sent: bool)
    requires Guarded(c) && r.Execute? && Meets(TypedBytes(c.log), Concat(inputs))
    ensures Guarded(Ask(op, c, ready, raw, rec, r, inputs, encode, sent).cli)
  {
    AskKeeps(op, c, ready, raw, rec, r, inputs, encode, sent);
    GuardedIsSafe(c);
    var typed := TypedBytes(c.log);
    LogSnoc(c.log, Posted(Framed(Prepared(c, r, inputs), r), raw));
    assert typed + [] == typed && typed[..|typed|] == typed;
  }

  lemma SamePlanGuarded(c: Cli, m: Cli)
    requires Guarded(c) && Inv(m) && m.bases == c.bases && m.chunks == c.chunks
      && TypedBytes(c.log) <= TypedBytes(m.log)
    ensures Guarded(m)
  {
    assert Base(m) == Base(c) <= |TypedBytes(c.log)|;
    assert TypedBytes(m.log)[..Base(c)] == TypedBytes(c.log)[..Base(c)];
  }

  lemma DoGuarded(c: Cli, encode: Encoder, s: Step)
    requires Guarded(c)
    requires s.AskStep? && s.request.Execute? ==> Meets(TypedBytes(c.log), Concat(s.inputs))
    ensures Guarded(Do(c, encode, s))
  {
    if s.AskStep? && s.request.Execute? {
      AdoptedGuarded(s.op, c, s.ready, s.raw, s.rec, s.request, s.inputs, encode, s.sent);
    } else {
      DoKeeps(c, encode, s);
      StepTypes(c, encode, s);
      SamePlanGuarded(c, Do(c, encode, s));
    }
  }

  /** A caller that checks every plan against the last byte written never types a reserved pair. */
  lemma {:induction false} CheckedRunsAreSafe(c: Cli, encode: Encoder, steps: seq<Step>)
    requires Guarded(c) && Checked(c, encode, steps)
    ensures Guarded(RunFrom(c, encode, steps)) && Safe(TypedBytes(RunFrom(c, encode, steps).log))
    decreases |steps|
  {
    if steps == [] {
      GuardedIsSafe(c);
    } else {
      DoGuarded(c, encode, steps[0]);
      CheckedRunsAreSafe(Do(c, encode, steps[0]), encode, steps[1..]);
    }
  }

  // ---------- A run that types a reserved pair ----------

  lemma {:induction false} RunMore(c: Cli, encode: Encoder, steps: seq<Step>, s: Step)
    ensures RunFrom(c, encode, steps + [s]) == Do(RunFrom(c, encode, steps), encode, s)
    decreases |steps|
  {
    if steps == [] {
      assert ([] + [s])[1..] == [];
    } else {
      assert (steps + [s])[1..] == steps[1..] + [s];
      RunMore(Do(c, encode, steps[0]), encode, steps[1..], s);
    }
  }

  predicate Total(encode: Encoder, id: string, c: Cli) { encode(Framed(c, Execute(id, []))).Some? }

  /** Offsets and time that the next mark can repeat. */
  predicate Fits(c: Cli) {
    0 <= c.markOffset <= c.frontier <= Transport.MAX_RAW_BYTES && 0 <= c.elapsed <= MAX_INTEGER && 0 <= c.marks
  }

  /** A client between two operations, with room for more marks. */
  predicate Between(c: Cli) { Fits(c) && !c.inputWriting && c.marks + 2 <= MAX_OUTPUT_MARKS }

  /** The operation `id`, running on the wire with nothing pending. */
  function RunningNow(id: string): Operation.Proto { Operation.Busy(id, Operation.Running, Operation.NoRequest, {}) }

  predicate SameInput(c: Cli, d: Cli) {
    && d.log == c.log && d.bases == c.bases && d.chunks == c.chunks && d.index == c.index
    && d.inputWriting == c.inputWriting && d.inputThrough == c.inputThrough && d.sequence == c.sequence
  }

  predicate SameOutput(c: Cli, d: Cli) {
    d.marks == c.marks && d.elapsed == c.elapsed && d.frontier == c.frontier && d.results == c.results
  }

  lemma {:induction false} RunsJoin(c: Cli, encode: Encoder, a: seq<Step>, b: seq<Step>)
    ensures RunFrom(c, encode, a + b) == RunFrom(RunFrom(c, encode, a), encode, b)
    decreases |a|
  {
    if a == [] {
      assert a + b == b;
    } else {
      assert (a + b)[1..] == a[1..] + b;
      RunsJoin(Do(c, encode, a[0]), encode, a[1..], b);
    }
  }

  lemma Joined(c: Cli, encode: Encoder, a: seq<Step>, m: Cli, b: seq<Step>, d: Cli) returns (steps: seq<Step>)
    requires m == RunFrom(c, encode, a) && d == RunFrom(m, encode, b)
    ensures d == RunFrom(c, encode, steps)
  {
    steps := a + b;
    RunsJoin(c, encode, a, b);
  }

  lemma RunOne(c: Cli, encode: Encoder, s: Step)
    ensures RunFrom(c, encode, [s]) == Do(c, encode, s)
  {
    RunMore(c, encode, [], s);
    assert [] + [s] == [s];
  }

  lemma Executed(c: Cli, encode: Encoder, id: string, chunk: bytes) returns (steps: seq<Step>, d: Cli)
    requires Between(c) && Plan([chunk], c.inputThrough) && |id| > 0 && Total(encode, id, c)
    ensures d == RunFrom(c, encode, steps) && Fits(d) && TypedBytes(d.log) == TypedBytes(c.log)
    ensures d.inputOperation == Some(id) && d.chunks == [chunk] && d.index == 0 && d.outputStart.None?
      && !d.inputWriting
    ensures d.inputThrough == c.inputThrough && d.sequence == c.sequence + 1 && SameOutput(c, d)
  {
    var s := AskStep(Operation.Idle(false), true, 0, true, Execute(id, []), [chunk], true);
    steps, d := [s], Do(c, encode, s);
    RunOne(c, encode, s);
    LogSnoc(c.log, Posted(Framed(Planned(c, id, [chunk]), Execute(id, [])), 0));
    assert TypedBytes(c.log) + [] == TypedBytes(c.log);
  }

  lemma HeedOne(c: Cli, encode: Encoder, active: Option<string>, b: Body) returns (steps: seq<Step>, d: Cli)
    requires Observes(c, active, b)
    ensures d == RunFrom(c, encode, steps) == Observed(c, b)
  {
    steps, d := [ObserveStep(active, b)], Observed(c, b);
    RunOne(c, encode, ObserveStep(active, b));
  }

  /** A mark at the frontier, which the boundary after it needs. */
  lemma MarkOne(c: Cli, encode: Encoder, id: string) returns (steps: seq<Step>, d: Cli)
    requires Fits(c) && c.marks < MAX_OUTPUT_MARKS
    ensures d == RunFrom(c, encode, steps) && Fits(d) && SameInput(c, d)
    ensures d.previousMark && d.markOffset == d.frontier == c.frontier && d.marks == c.marks + 1
      && d.elapsed == c.elapsed
    ensures d.outputStart == c.outputStart && d.inputOperation == c.inputOperation && d.results == c.results
  {
    steps, d := HeedOne(c, encode, Some(id), OutputMark(c.frontier, c.elapsed));
  }

  lemma BoundOne(c: Cli, encode: Encoder, id: string, b: Body) returns (steps: seq<Step>, d: Cli)
    requires Fits(c) && c.previousMark && c.markOffset == c.frontier
    requires c.inputOperation == Some(id) && OperationId(b) == Some(id) && Shaped(b) && Boundary(b) == Some(c.frontier)
    requires if b.Started? then c.outputStart.None? else IsResult(b) && Anchored(c, b, c.frontier)
    ensures d == RunFrom(c, encode, steps) && Fits(d) && SameInput(c, d)
    ensures d.marks == c.marks && d.elapsed == c.elapsed && d.frontier == c.frontier
    ensures b.Started? ==> d.outputStart == Some(c.frontier) && d.inputOperation == Some(id) && d.results == c.results
    ensures IsResult(b) ==> |d.results| == |c.results| + 1
  {
    steps, d := HeedOne(c, encode, Some(id), b);
  }

  lemma Heeded(c: Cli, encode: Encoder, id: string, b: Body) returns (steps: seq<Step>, d: Cli)
    requires Fits(c) && c.marks < MAX_OUTPUT_MARKS
    requires c.inputOperation == Some(id) && OperationId(b) == Some(id) && Shaped(b) && Boundary(b) == Some(c.frontier)
    requires if b.Started? then c.outputStart.None? else IsResult(b) && Anchored(c, b, c.frontier)
    ensures d == RunFrom(c, encode, steps) && Fits(d) && SameInput(c, d)
    ensures d.marks == c.marks + 1 && d.elapsed == c.elapsed && d.frontier == c.frontier
    ensures b.Started? ==> d.outputStart == Some(c.frontier) && d.inputOperation == Some(id) && d.results == c.results
    ensures IsResult(b) ==> |d.results| == |c.results| + 1
  {
    var first, marked := MarkOne(c, encode, id);
    var second, at := BoundOne(marked, encode, id, b);
    steps := Joined(c, encode, first, marked, second, at);
    d := at;
  }

  /** The one chunk of a running operation's plan is written. */
  lemma TypedWhole(c: Cli, encode: Encoder, id: string, chunk: bytes) returns (steps: seq<Step>, d: Cli)
    requires Fits(c) && !c.inputWriting && c.inputOperation == Some(id) && c.outputStart.Some?
    requires c.chunks == [chunk] && c.index == 0
    ensures d == RunFrom(c, encode, steps) && Fits(d)
    ensures TypedBytes(d.log) == TypedBytes(c.log) + chunk && d.inputThrough == c.inputThrough + |chunk|
    ensures d.inputOperation == Some(id) && d.outputStart == c.outputStart && !d.inputWriting && SameOutput(c, d)
    ensures d.sequence == c.sequence
  {
    var begin, end := BeginStep(RunningNow(id), true, true, id), EndStep(true);
    var e := TypingBegun(c);
    RunOne(c, encode, begin);
    RunOne(e, encode, end);
    RunsJoin(c, encode, [begin], [end]);
    steps, d := [begin] + [end], TypingDone(e);
    LogSnoc(c.log, Typed(chunk));
  }

  /** Any one admissible chunk can be executed, typed and resolved, and the client is where it was. */
  lemma TypesOne(c: Cli, encode: Encoder, id: string, chunk: bytes) returns (steps: seq<Step>, d: Cli)
    requires Between(c) && Plan([chunk], c.inputThrough) && |id| > 0 && Total(encode, id, c)
    ensures d == RunFrom(c, encode, steps) && TypedBytes(d.log) == TypedBytes(c.log) + chunk
    ensures Fits(d) && !d.inputWriting && d.marks == c.marks + 2 && d.elapsed == c.elapsed
    ensures d.inputThrough == c.inputThrough + |chunk| && d.sequence == c.sequence + 1
    ensures |d.results| == |c.results| + 1
  {
    var a, posted := Executed(c, encode, id, chunk);
    var b, started := Heeded(posted, encode, id, Started(id, c.frontier));
    steps := Joined(c, encode, a, posted, b, started);
    var t, typed := TypedWhole(started, encode, id, chunk);
    steps := Joined(c, encode, steps, started, t, typed);
    var r;
    r, d := Heeded(typed, encode, id, Completed(id, c.frontier, c.frontier, [], false));
    steps := Joined(c, encode, steps, typed, r, d);
  }

  lemma OneChunk(chunk: bytes)
    ensures Concat([chunk]) == chunk
  {
    ConcatSnoc([], chunk);
    assert [] + [chunk] == [chunk] && Concat([]) + chunk == chunk;
  }

  /**
   * Two plans that are admitted one after the other, each typed whole by an operation with its own
   * result, can put a reserved pair on the stream. All it takes of the codec is that it encodes the
   * two execute frames of the run.
   */
  lemma SeamReachesTheStream(readyThrough: int, encode: Encoder) returns (steps: seq<Step>)
    requires 0 <= readyThrough <= 4096
    requires encode(Control(2, Execute("a", []), Some(0))).Some? && encode(Control(3, Execute("b", []), Some(1))).Some?
    ensures var c := RunFrom(FreshClient(readyThrough), encode, steps);
      TypedBytes(c.log) == [CANCEL_BYTE, 1] && !Safe(TypedBytes(c.log)) && |c.results| == 2
  {
    var c := FreshClient(readyThrough);
    OneChunk([CANCEL_BYTE]);
    OneChunk([1]);
    var first, mid := TypesOne(c, encode, "a", [CANCEL_BYTE]);
    var second, end := TypesOne(mid, encode, "b", [1]);
    steps := Joined(c, encode, first, mid, second, end);
    assert TypedBytes(end.log) == [CANCEL_BYTE] + [1];
    assert !Clear(TypedBytes(end.log), 0);
  }
}
