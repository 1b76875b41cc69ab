/**
 * Requests, authored input and observed output on a ready channel pair (`EnvoyClient`). Results do
 * not depend on what the operation lifecycle or the transport answer: those are inputs of each step.
 */
module Client {
  import opened Common
  import opened Evidence
  import opened Frames
  import opened Wire
  import opened Transport
  import Operation
  import Reploy

  const MAX_OUTPUT_MARKS: int := 1_000_000
  const CANCEL_BYTE: byte := 0x18

  // ---------- Authored input ----------

  predicate Reserved(a: byte, b: byte) { a == CANCEL_BYTE && (b == 1 || b == 2) }

  predicate Clear(s: bytes, i: nat)
    requires i < |s| - 1
  {
    !Reserved(s[i], s[i + 1])
  }

  /** No two neighbouring bytes are a reserved terminal sequence. */
  predicate Safe(s: bytes) {
    forall i :: 0 <= i < |s| - 1 ==> Clear(s, i)
  }

  /** A whole plan is admissible: safe across its chunks, and within the wire's count. */
  ghost predicate Plan(chunks: seq<bytes>, written: int) {
    Safe(Concat(chunks)) && (chunks == [] || written + |Concat(chunks)| <= MAX_INTEGER)
  }

  predicate Meets(a: bytes, b: bytes) { a == [] || b == [] || !Reserved(a[|a| - 1], b[0]) }

  lemma SafeParts(a: bytes, b: bytes)
    requires Safe(a + b)
    ensures Safe(a) && Safe(b) && Meets(a, b)
  {
    forall i | 0 <= i < |a| - 1 ensures Clear(a, i) {
      assert Clear(a + b, i);
    }
    forall i | 0 <= i < |b| - 1 ensures Clear(b, i) {
      assert Clear(a + b, |a| + i);
    }
    if a != [] && b != [] {
      assert Clear(a + b, |a| - 1);
    }
  }

  lemma SafeWhole(a: bytes, b: bytes)
    requires Safe(a) && Safe(b) && Meets(a, b)
    ensures Safe(a + b)
  {
    forall i | 0 <= i < |a + b| - 1 ensures Clear(a + b, i) {
      if i < |a| - 1 {
        assert Clear(a, i);
      } else if i >= |a| {
        assert Clear(b, i - |a|);
      }
    }
  }

  /** Only the last byte read matters to what may follow. */
  lemma SafeNext(a: bytes, previous: bytes, chunk: bytes)
    requires Safe(a)
    requires if a == [] then previous == [] else previous == [a[|a| - 1]]
    ensures Safe(a + chunk) <==> Safe(previous + chunk)
  {
    if Safe(a + chunk) {
      SafeParts(a, chunk);
      SafeWhole(previous, chunk);
    } else if Safe(previous + chunk) {
      SafeParts(previous, chunk);
      SafeWhole(a, chunk);
    }
  }

  lemma NotSafeLater(a: bytes, b: bytes)
    requires !Safe(a)
    ensures !Safe(a + b)
  {
    if Safe(a + b) {
      SafeParts(a, b);
    }
  }

  /** `_inputs`: one byte of memory between chunks decides the safety of their concatenation. */
  method AdmitInputs(chunks: seq<bytes>, written: int) returns (ok: bool)
    ensures ok <==> Plan(chunks, written)
  {
    var previous: bytes := [];
    var total, i := written, 0;
    assert chunks[..0] == [];
    while i < |chunks|
      invariant 0 <= i <= |chunks|
      invariant total == written + |Concat(chunks[..i])|
      invariant Safe(Concat(chunks[..i])) && (i == 0 || total <= MAX_INTEGER)
      invariant var read := Concat(chunks[..i]);
        if read == [] then previous == [] else previous == [read[|read| - 1]]
    {
      var chunk := chunks[i];
      ghost var read := Concat(chunks[..i]);
      assert chunks[..i + 1] == chunks[..i] + [chunk];
      ConcatSnoc(chunks[..i], chunk);
      SafeNext(read, previous, chunk);
      assert chunks == chunks[..i + 1] + chunks[i + 1..];
      ConcatSplit(chunks[..i + 1], chunks[i + 1..]);
      if !Safe(previous + chunk) {
        NotSafeLater(Concat(chunks[..i + 1]), Concat(chunks[i + 1..]));
        return false;
      }
      if chunk != [] {
        previous := [chunk[|chunk| - 1]];
      }
      total := total + |chunk|;
      if total > MAX_INTEGER {
        return false;
      }
      i := i + 1;
    }
    assert chunks[..|chunks|] == chunks;
    ok := true;
  }

  // ---------- Requests and their frames ----------

  datatype Request =
    | Execute(id: string, plan: seq<Inspection>)
    | Continue(id: string, gate: string)
    | Cancel(id: string, reason: string)
    | Finalize(id: string, reason: string)
    | Resize(columns: int, rows: int)
    | Shutdown(reason: string)

  /** A control frame as encoded; `inputThrough` is there for execute and continue only. */
  datatype Control = Control(number: int, request: Request, inputThrough: Option<int>)

  /** JSON text and schema checks of one frame are left abstract. */
  type Encoder = Control -> Option<bytes>

  /** A frame written whole, with the length of the raw log at that moment, or a chunk of input. */
  datatype Act = Posted(frame: Control, raw: nat) | Typed(data: bytes)

  datatype Span = Span(start: int, through: int)

  datatype Cli = Cli(
    sequence: int, inputThrough: nat, inputOperation: Option<string>, chunks: seq<bytes>, index: nat,
    inputWriting: bool, outputStart: Option<int>, frontier: int, markOffset: int, elapsed: int, marks: int,
    previousMark: bool, log: seq<Act>, bases: seq<nat>, results: seq<Span>, seen: seq<Body>)

  function FreshClient(readyThrough: int): Cli {
    Cli(2, 0, None, [], 0, false, None, readyThrough, 0, 0, 0, false, [], [], [], [])
  }

  /** How much input had been written when the current plan was adopted. */
  function Base(c: Cli): nat { if c.bases == [] then 0 else c.bases[|c.bases| - 1] }

  predicate CountsInput(r: Request) { r.Execute? || r.Continue? }

  function Framed(c: Cli, r: Request): Control {
    Control(c.sequence, r, if CountsInput(r) then Some(c.inputThrough) else None)
  }

  function OperationCall(r: Request, rec: bool): Operation.Call
    requires !r.Resize?
  {
    match r
    case Execute(id, _) => Operation.Execute(id, rec)
    case Continue(id, gate) => Operation.Continue(id, gate, rec)
    case Cancel(id, _) => Operation.Cancel(id, rec)
    case Finalize(id, _) => Operation.Finalize(id, rec)
    case Shutdown(reason) => Operation.Shutdown(reason, rec)
  }

  predicate OperationAdmits(op: Operation.Proto, r: Request, rec: bool) {
    r.Resize? || Operation.Admits(op, OperationCall(r, rec))
  }

  function OperationAfter(op: Operation.Proto, r: Request, rec: bool): Operation.Proto {
    if r.Resize? then op else Operation.Step(op, OperationCall(r, rec))
  }

  function Planned(c: Cli, id: string, inputs: seq<bytes>): Cli {
    c.(inputOperation := Some(id), chunks := inputs, index := 0, outputStart := None,
       bases := c.bases + [c.inputThrough])
  }
  function WithPost(c: Cli, r: Request, raw: nat): Cli {
    c.(sequence := c.sequence + 1, log := c.log + [Posted(Framed(c, r), raw)])
  }

  datatype Verdict = Refused | OperationRefused | WriteFailed | Sent
  datatype Asked = Asked(op: Operation.Proto, cli: Cli, verdict: Verdict)

  /** Everything checked before any state changes. */
  ghost predicate Preflight(c: Cli, ready: bool, r: Request, inputs: seq<bytes>, encode: Encoder) {
    && ready && (CountsInput(r) ==> !c.inputWriting)
    && Plan(inputs, c.inputThrough) && (r.Execute? || inputs == [])
    && encode(Framed(c, r)).Some?
  }

  function Prepared(c: Cli, r: Request, inputs: seq<bytes>): Cli {
    if r.Execute? then Planned(c, r.id, inputs) else c
  }

  /** One request, at a raw log of length `raw`; `sent` says whether the transport wrote its whole frame. */
  ghost function Ask(op: Operation.Proto, c: Cli, ready: bool, raw: nat, rec: bool, r: Request, inputs: seq<bytes>,
                     encode: Encoder, sent: bool): Asked {
    if !Preflight(c, ready, r, inputs, encode) then Asked(op, c, Refused)
    else if !OperationAdmits(op, r, rec) then Asked(OperationAfter(op, r, rec), c, OperationRefused)
    else if !sent then Asked(OperationAfter(op, r, rec), Prepared(c, r, inputs), WriteFailed)
    else Asked(OperationAfter(op, r, rec), WithPost(Prepared(c, r, inputs), r, raw), Sent)
  }

  /** RUNNING, GATED or CONTINUING: no lifecycle request is pending. */
  predicate TakesInput(op: Operation.Proto) { op.Busy? && op.pending.NoRequest? && !op.phase.Starting? }

  predicate MayType(op: Operation.Proto, c: Cli, ready: bool, rec: bool, id: string) {
    && ready && !c.inputWriting && rec
    && c.inputOperation == Some(id) && Operation.ActiveId(op) == Some(id)
    && c.outputStart.Some? && TakesInput(op) && c.index < |c.chunks|
  }

  function TypingBegun(c: Cli): Cli { c.(inputWriting := true) }
  function TypingDone(c: Cli): Cli
    requires c.index < |c.chunks|
  {
    c.(inputWriting := false, inputThrough := c.inputThrough + |c.chunks[c.index]|, index := c.index + 1,
       log := c.log + [Typed(c.chunks[c.index])])
  }
  function TypingFailed(c: Cli): Cli { c.(inputWriting := false) }

  function BeginTyping(op: Operation.Proto, c: Cli, ready: bool, rec: bool, id: string): Cli {
    if MayType(op, c, ready, rec, id) then TypingBegun(c) else c
  }

  function EndTyping(c: Cli, written: bool): Cli {
    if !c.inputWriting || c.index >= |c.chunks| then c
    else if written then TypingDone(c) else TypingFailed(c)
  }

  // ---------- Observed output ----------

  function OperationId(b: Body): Option<string> {
    match b
    case Started(id, _) => Some(id)
    case GateReady(id, _, _) => Some(id)
    case Continued(id, _, _) => Some(id)
    case GateInterrupted(id, _, _) => Some(id)
    case Completed(id, _, _, _, _) => Some(id)
    case Cancelled(id, _, _, _, _) => Some(id)
    case Finalized(id, _, _, _, _) => Some(id)
    case OperationFailed(id, _, _, _, _) => Some(id)
    case _ => None
  }

  /** The output offset a boundary event names. */
  function Boundary(b: Body): Option<int> {
    match b
    case Ready(through) => Some(through)
    case Started(_, start) => Some(start)
    case GateReady(_, _, through) => Some(through)
    case Continued(_, _, through) => Some(through)
    case GateInterrupted(_, _, through) => Some(through)
    case Completed(_, _, through, _, _) => Some(through)
    case Cancelled(_, _, through, _, _) => Some(through)
    case Finalized(_, _, through, _, _) => Some(through)
    case OperationFailed(_, _, through, _, _) => Some(through)
    case ResizeApplied(_, _, _, through) => Some(through)
    case Draining(_, through) => Some(through)
    case Closed(_, through) => Some(through)
    case OutputMark(_, _) => None
    case Diagnostic(_) => None
  }

  predicate IsResult(b: Body) { b.Completed? || b.Cancelled? || b.Finalized? || b.OperationFailed? }

  function ResultStart(b: Body): int
    requires IsResult(b)
  {
    match b
    case Completed(_, start, _, _, _) => start
    case Cancelled(_, start, _, _, _) => start
    case Finalized(_, start, _, _, _) => start
    case OperationFailed(_, start, _, _, _) => start
  }

  /** A result that may arrive although the operation never started. */
  predicate Unstarted(b: Body) { (b.OperationFailed? && b.code.Prestart?) || (b.Cancelled? && !b.hasStatus) }

  /** A result's range begins where its own operation did. */
  predicate Anchored(c: Cli, b: Body, offset: int)
    requires IsResult(b)
  {
    match c.outputStart
    case None => Unstarted(b) && ResultStart(b) == offset
    case Some(start) => !Unstarted(b) && ResultStart(b) == start
  }

  predicate BelongsToOperation(c: Cli, active: Option<string>, b: Body) {
    OperationId(b).None? || (c.inputOperation == OperationId(b) && active == OperationId(b))
  }

  predicate MarkAdmitted(c: Cli, offset: int, elapsed: int) {
    c.marks < MAX_OUTPUT_MARKS && c.frontier <= offset <= MAX_RAW_BYTES && offset >= c.markOffset
      && elapsed >= c.elapsed
  }

  predicate BoundaryAdmitted(c: Cli, b: Body, offset: int) {
    && c.previousMark && c.frontier <= offset <= MAX_RAW_BYTES && offset == c.markOffset
    && (b.ResizeApplied? ==> b.elapsed >= c.elapsed)
    && (b.Started? ==> c.outputStart.None?)
    && (IsResult(b) ==> Anchored(c, b, offset))
  }

  predicate Observes(c: Cli, active: Option<string>, b: Body) {
    && Shaped(b) && !b.Ready? && BelongsToOperation(c, active, b)
    && (b.OutputMark? ==> MarkAdmitted(c, b.offset, b.elapsed))
    && (Boundary(b).Some? ==> BoundaryAdmitted(c, b, Boundary(b).value))
  }

  function Marked(c: Cli, offset: int, elapsed: int): Cli {
    c.(marks := c.marks + 1, markOffset := offset, elapsed := elapsed, frontier := offset, previousMark := true)
  }
  function AtBoundary(c: Cli, offset: int): Cli { c.(frontier := offset, previousMark := false) }
  function Opened(c: Cli, start: int): Cli { c.(outputStart := Some(start)) }
  function Resolved(c: Cli, range: Span): Cli { c.(inputOperation := None, results := c.results + [range]) }
  function Drained(c: Cli): Cli { c.(inputOperation := None) }
  function Timed(c: Cli, elapsed: int): Cli { c.(elapsed := elapsed) }
  function Unmarked(c: Cli): Cli { c.(previousMark := false) }
  function Heard(c: Cli, b: Body): Cli { c.(seen := c.seen + [b]) }

  /** The facts a boundary settles besides the frontier. */
  function Settled(c: Cli, b: Body, offset: int): Cli {
    if b.ResizeApplied? then Timed(c, b.elapsed)
    else if b.Started? then Opened(c, offset)
    else if IsResult(b) then Resolved(c, Span(ResultStart(b), offset))
    else if b.Draining? then Drained(c)
    else c
  }

  function Placed(c: Cli, b: Body): Cli {
    if b.OutputMark? then Marked(c, b.offset, b.elapsed)
    else if Boundary(b).Some? then AtBoundary(Settled(c, b, Boundary(b).value), Boundary(b).value)
    else Unmarked(c)
  }

  /** `_observe` of an event the client accepts. */
  function Observed(c: Cli, b: Body): Cli { Heard(Placed(c, b), b) }

  /** A refused event closes the transport and changes nothing here. */
  function Observe(c: Cli, active: Option<string>, b: Body): Cli {
    if Observes(c, active, b) then Observed(c, b) else c
  }

  // ---------- What every run keeps ----------

  function TypedBytes(log: seq<Act>): bytes
    decreases |log|
  {
    if log == [] then []
    else
      var last := log[|log| - 1];
      TypedBytes(log[..|log| - 1]) + (if last.Typed? then last.data else [])
  }

  function PostCount(log: seq<Act>): nat
    decreases |log|
  {
    if log == [] then 0 else PostCount(log[..|log| - 1]) + (if log[|log| - 1].Posted? then 1 else 0)
  }

  /** A frame is numbered after the frames before it, and counts exactly the input written before it. */
  ghost predicate TrueFrame(before: seq<Act>, frame: Control) {
    && frame.number == 2 + PostCount(before)
    && frame.inputThrough == (if CountsInput(frame.request) then Some(|TypedBytes(before)|) else None)
  }

  ghost predicate TrueFrames(log: seq<Act>) {
    forall i :: 0 <= i < |log| && log[i].Posted? ==> TrueFrame(log[..i], log[i].frame)
  }

  /** The writer's counters agree with what was really written. */
  ghost predicate WriterAgrees(c: Cli) {
    && c.inputThrough == |TypedBytes(c.log)|
    && c.sequence == 2 + PostCount(c.log)
    && TrueFrames(c.log)
  }

  /** What was typed since the operation began is its plan, up to the next chunk. */
  ghost predicate FollowsPlan(c: Cli) {
    && c.index <= |c.chunks| && Base(c) <= |TypedBytes(c.log)|
    && TypedBytes(c.log)[Base(c)..] == Concat(c.chunks[..c.index])
    && Safe(Concat(c.chunks))
    && (c.inputWriting ==> c.index < |c.chunks|)
  }

  ghost predicate Ordered(results: seq<Span>) {
    && (forall i :: 0 <= i < |results| ==> results[i].start <= results[i].through)
    && (forall i, j :: 0 <= i < j < |results| ==> results[i].through <= results[j].start)
  }

  /** The frontier is the last mark, and bounds every range observed so far. */
  ghost predicate Ranged(c: Cli) {
    && c.frontier <= MAX_RAW_BYTES && 0 <= c.markOffset <= c.frontier && 0 <= c.marks <= MAX_OUTPUT_MARKS
    && (c.previousMark ==> c.frontier == c.markOffset)
    && Ordered(c.results)
    && (c.results != [] ==> c.results[|c.results| - 1].through <= c.frontier)
    && (c.outputStart.Some? ==> c.outputStart.value <= c.frontier)
    && (c.outputStart.Some? && c.inputOperation.Some? && c.results != [] ==>
          c.results[|c.results| - 1].through <= c.outputStart.value)
  }

  ghost predicate Inv(c: Cli) { WriterAgrees(c) && FollowsPlan(c) && Ranged(c) }

  lemma LogSnoc(log: seq<Act>, a: Act)
    ensures TypedBytes(log + [a]) == TypedBytes(log) + (if a.Typed? then a.data else [])
    ensures PostCount(log + [a]) == PostCount(log) + (if a.Posted? then 1 else 0)
  {
    assert (log + [a])[..|log|] == log;
  }

  lemma TrueSnoc(log: seq<Act>, a: Act)
    requires TrueFrames(log) && (a.Posted? ==> TrueFrame(log, a.frame))
    ensures TrueFrames(log + [a])
  {
    forall i | 0 <= i < |log + [a]| && (log + [a])[i].Posted?
      ensures TrueFrame((log + [a])[..i], (log + [a])[i].frame)
    {
      assert (log + [a])[..i] == log[..i];
      if i == |log| {
        assert log[..i] == log;
      }
    }
  }

  lemma PreparedKeeps(c: Cli, r: Request, inputs: seq<bytes>)
    requires Inv(c) && Plan(inputs, c.inputThrough) && (r.Execute? ==> !c.inputWriting)
    ensures Inv(Prepared(c, r, inputs))
  {
    if r.Execute? {
      assert inputs[..0] == [];
    }
  }

  lemma PostKeeps(c: Cli, r: Request, raw: nat)
    requires Inv(c)
    ensures Inv(WithPost(c, r, raw))
  {
    LogSnoc(c.log, Posted(Framed(c, r), raw));
    TrueSnoc(c.log, Posted(Framed(c, r), raw));
    assert TypedBytes(c.log) + [] == TypedBytes(c.log);
  }

  lemma AskKeeps(op: Operation.Proto, c: Cli, ready: bool, raw: nat, rec: bool, r: Request, inputs: seq<bytes>,
                 encode: Encoder, sent: bool)
    requires Inv(c)
    ensures Inv(Ask(op, c, ready, raw, rec, r, inputs, encode, sent).cli)
  {
    if Preflight(c, ready, r, inputs, encode) {
      PreparedKeeps(c, r, inputs);
      PostKeeps(Prepared(c, r, inputs), r, raw);
    }
  }

  lemma TypedFollows(typed: bytes, base: nat, chunks: seq<bytes>, index: nat)
    requires base <= |typed| && index < |chunks| && typed[base..] == Concat(chunks[..index])
    ensures (typed + chunks[index])[base..] == Concat(chunks[..index + 1])
  {
    assert chunks[..index + 1] == chunks[..index] + [chunks[index]];
    ConcatSnoc(chunks[..index], chunks[index]);
    assert (typed + chunks[index])[base..] == typed[base..] + chunks[index];
  }

  lemma TypedKeeps(c: Cli)
    requires Inv(c) && c.inputWriting
    ensures Inv(TypingDone(c))
  {
    var data := c.chunks[c.index];
    LogSnoc(c.log, Typed(data));
    TrueSnoc(c.log, Typed(data));
    TypedFollows(TypedBytes(c.log), Base(c), c.chunks, c.index);
  }

  lemma BeginKeeps(op: Operation.Proto, c: Cli, ready: bool, rec: bool, id: string)
    requires Inv(c)
    ensures Inv(BeginTyping(op, c, ready, rec, id))
  {
  }

  lemma EndKeeps(c: Cli, written: bool)
    requires Inv(c)
    ensures Inv(EndTyping(c, written))
  {
    if c.inputWriting && written {
      TypedKeeps(c);
    }
  }

  lemma OrderedSnoc(results: seq<Span>, range: Span)
    requires Ordered(results) && range.start <= range.through
    requires results != [] ==> results[|results| - 1].through <= range.start
    ensures Ordered(results + [range])
  {
    forall i | 0 <= i < |results| ensures results[i].through <= range.start {
      if i < |results| - 1 {
        assert results[i].through <= results[|results| - 1].start;
      }
    }
  }

  lemma SettledKeeps(c: Cli, active: Option<string>, b: Body)
    requires Inv(c) && Observes(c, active, b) && Boundary(b).Some?
    ensures var offset := Boundary(b).value; Inv(AtBoundary(Settled(c, b, offset), offset))
  {
    if IsResult(b) {
      OrderedSnoc(c.results, Span(ResultStart(b), Boundary(b).value));
    }
  }

  /** What was heard is history: nothing else depends on it. */
  lemma HistoryKeeps(c: Cli, b: Body)
    requires Inv(c)
    ensures Inv(Heard(c, b))
  {
  }

  lemma ObserveKeeps(c: Cli, active: Option<string>, b: Body)
    requires Inv(c)
    ensures Inv(Observe(c, active, b))
  {
    if Observes(c, active, b) {
      if b.OutputMark? {
        assert Inv(Marked(c, b.offset, b.elapsed));
      } else if Boundary(b).Some? {
        SettledKeeps(c, active, b);
      } else {
        assert Inv(Unmarked(c));
      }
      HistoryKeeps(Placed(c, b), b);
    }
  }

  // ---------- Runs ----------

  datatype Step =
    | AskStep(op: Operation.Proto, ready: bool, raw: nat, rec: bool, request: Request, inputs: seq<bytes>, sent: bool)
    | BeginStep(op: Operation.Proto, ready: bool, rec: bool, id: string)
    | EndStep(written: bool)
    | ObserveStep(active: Option<string>, body: Body)

  ghost function Do(c: Cli, encode: Encoder, s: Step): Cli {
    match s
    case AskStep(op, ready, raw, rec, r, inputs, sent) => Ask(op, c, ready, raw, rec, r, inputs, encode, sent).cli
    case BeginStep(op, ready, rec, id) => BeginTyping(op, c, ready, rec, id)
    case EndStep(written) => EndTyping(c, written)
    case ObserveStep(active, b) => Observe(c, active, b)
  }

  ghost function RunFrom(c: Cli, encode: Encoder, steps: seq<Step>): Cli
    decreases |steps|
  {
    if steps == [] then c else RunFrom(Do(c, encode, steps[0]), encode, steps[1..])
  }

  lemma DoKeeps(c: Cli, encode: Encoder, s: Step)
    requires Inv(c)
    ensures Inv(Do(c, encode, s))
  {
    match s
    case AskStep(op, ready, raw, rec, r, inputs, sent) => AskKeeps(op, c, ready, raw, rec, r, inputs, encode, sent);
    case BeginStep(op, ready, rec, id) => BeginKeeps(op, c, ready, rec, id);
    case EndStep(written) => EndKeeps(c, written);
    case ObserveStep(active, b) => ObserveKeeps(c, active, b);
  }

  lemma {:induction false} RunKeeps(c: Cli, encode: Encoder, steps: seq<Step>)
    requires Inv(c)
    ensures Inv(RunFrom(c, encode, steps))
    decreases |steps|
  {
    if steps != [] {
      DoKeeps(c, encode, steps[0]);
      RunKeeps(Do(c, encode, steps[0]), encode, steps[1..]);
    }
  }

  lemma PlanParts(chunks: seq<bytes>, index: nat)
    requires index <= |chunks| && Safe(Concat(chunks))
    ensures Concat(chunks[..index]) <= Concat(chunks) && Safe(Concat(chunks[..index]))
  {
    ConcatSplit(chunks[..index], chunks[index..]);
    assert chunks == chunks[..index] + chunks[index..];
    SafeParts(Concat(chunks[..index]), Concat(chunks[index..]));
  }

  /** What was typed of the current plan is a safe prefix of it. */
  lemma PlanBegun(c: Cli)
    requires FollowsPlan(c)
    ensures TypedBytes(c.log)[Base(c)..] <= Concat(c.chunks) && Safe(TypedBytes(c.log)[Base(c)..])
  {
    PlanParts(c.chunks, c.index);
  }

  /**
   * Frames are numbered from 2 without a gap, each execute or continue frame counts exactly the input
   * fully written before it, the current operation's input is a safe prefix of its plan, and the
   * result ranges are ordered and disjoint.
   */
  ghost predicate KeepsCount(c: Cli) {
    && c.inputThrough == |TypedBytes(c.log)| && TrueFrames(c.log)
    && Base(c) <= |TypedBytes(c.log)|
    && TypedBytes(c.log)[Base(c)..] <= Concat(c.chunks) && Safe(TypedBytes(c.log)[Base(c)..])
    && Ordered(c.results)
  }

  lemma InvCounts(c: Cli)
    requires Inv(c)
    ensures KeepsCount(c)
  {
    PlanBegun(c);
  }

  /** Every run of a client counts and orders what it does. */
  lemma EveryRun(readyThrough: int, encode: Encoder, steps: seq<Step>)
    requires 0 <= readyThrough <= 4096
    ensures KeepsCount(RunFrom(FreshClient(readyThrough), encode, steps))
  {
    RunKeeps(FreshClient(readyThrough), encode, steps);
    InvCounts(RunFrom(FreshClient(readyThrough), encode, steps));
  }

  /** Offsets and times never go back. */
  predicate Advances(c: Cli, d: Cli) {
    c.frontier <= d.frontier && c.markOffset <= d.markOffset && c.elapsed <= d.elapsed && c.marks <= d.marks
  }

  lemma {:induction false} NothingRegresses(c: Cli, encode: Encoder, steps: seq<Step>)
    ensures Advances(c, RunFrom(c, encode, steps))
    decreases |steps|
  {
    if steps != [] {
      NothingRegresses(Do(c, encode, steps[0]), encode, steps[1..]);
    }
  }

  /** Every boundary heard comes straight after a mark, at that mark's offset. */
  predicate Covered(seen: seq<Body>, i: nat)
    requires i < |seen|
  {
    Boundary(seen[i]).Some? ==> i > 0 && seen[i - 1].OutputMark? && Boundary(seen[i]) == Some(seen[i - 1].offset)
  }

  /** The mark in hand is the last event heard. */
  ghost predicate Hears(c: Cli) {
    && (c.previousMark ==>
          c.seen != [] && c.seen[|c.seen| - 1].OutputMark? && c.seen[|c.seen| - 1].offset == c.markOffset)
    && (forall i :: 0 <= i < |c.seen| ==> Covered(c.seen, i))
  }

  lemma HeardKeeps(c: Cli, active: Option<string>, b: Body)
    requires Hears(c) && Observes(c, active, b)
    ensures Hears(Observed(c, b))
  {
    var d := Observed(c, b);
    assert d.seen == c.seen + [b];
    forall i | 0 <= i < |d.seen| ensures Covered(d.seen, i) {
      if i < |c.seen| {
        assert Covered(c.seen, i);
      }
    }
  }

  lemma {:induction false} RunHears(c: Cli, encode: Encoder, steps: seq<Step>)
    requires Hears(c)
    ensures Hears(RunFrom(c, encode, steps))
    decreases |steps|
  {
    if steps != [] {
      var d := Do(c, encode, steps[0]);
      if steps[0].ObserveStep? && Observes(c, steps[0].active, steps[0].body) {
        HeardKeeps(c, steps[0].active, steps[0].body);
      } else {
        assert d.seen == c.seen && d.previousMark == c.previousMark && d.markOffset == c.markOffset;
      }
      RunHears(d, encode, steps[1..]);
    }
  }

  /** In every run each accepted boundary comes straight after an accepted mark, at that mark's offset. */
  lemma BoundaryIsCovered(readyThrough: int, encode: Encoder, steps: seq<Step>, i: nat)
    requires i < |RunFrom(FreshClient(readyThrough), encode, steps).seen|
    requires Boundary(RunFrom(FreshClient(readyThrough), encode, steps).seen[i]).Some?
    ensures var seen := RunFrom(FreshClient(readyThrough), encode, steps).seen;
      i > 0 && seen[i - 1].OutputMark? && Boundary(seen[i]) == Some(seen[i - 1].offset)
  {
    RunHears(FreshClient(readyThrough), encode, steps);
    assert Covered(RunFrom(FreshClient(readyThrough), encode, steps).seen, i);
  }

  predicate NoExecute(steps: seq<Step>) {
    forall i :: 0 <= i < |steps| ==> !(steps[i].AskStep? && steps[i].request.Execute?)
  }

  /** Until the next execute, a result is accepted only if its range begins where the operation started. */
  lemma {:induction false} ResultKeepsItsAnchor(c: Cli, encode: Encoder, steps: seq<Step>, active: Option<string>,
                                                b: Body)
    requires c.outputStart.Some? && NoExecute(steps)
    requires Observes(RunFrom(c, encode, steps), active, b) && IsResult(b)
    ensures ResultStart(b) == c.outputStart.value && !Unstarted(b)
    decreases |steps|
  {
    if steps != [] {
      assert !(steps[0].AskStep? && steps[0].request.Execute?);
      assert Do(c, encode, steps[0]).outputStart == c.outputStart;
      ResultKeepsItsAnchor(Do(c, encode, steps[0]), encode, steps[1..], active, b);
    }
  }

  // ---------- Receiving through the transport ----------

  datatype Pulled = Pulled(net: Net, cli: Cli, fact: Fact)

  /** One client receive: a refused event closes the transport. */
  ghost function Pull(t: Net, c: Cli, active: Option<string>, parse: Parser, a: Arrival, telemetry: Written,
                      raw: Written): Pulled
    requires t.ready ==> Accepts(parse, t.fed)
    requires raw.kept <= Handed(t, a) && (a.Telemetry? ==> telemetry.kept <= |a.data|)
  {
    if !t.ready then Pulled(Shut(t), c, Raised)
    else
      var m := Receive(t, parse, a, telemetry, raw);
      if !m.fact.Delivered? then Pulled(m.net, c, m.fact)
      else if Observes(c, active, m.fact.event.body) then Pulled(m.net, Observed(c, m.fact.event.body), m.fact)
      else Pulled(Shut(m.net), c, Raised)
  }

  // ---------- The mutable client ----------

  class EnvoyClient {
    const transport: EnvoyTransport
    const operation: Operation.OperationLifecycle
    const encode: Encoder
    var sequence: int
    var inputThrough: nat
    var inputOperation: Option<string>
    var chunks: seq<bytes>
    var inputIndex: nat
    var inputWriting: bool
    var outputStart: Option<int>
    var frontier: int
    var markOffset: int
    var elapsed: int
    var marks: int
    var previousMark: bool
    ghost var log: seq<Act>
    ghost var bases: seq<nat>
    ghost var results: seq<Span>
    ghost var seen: seq<Body>

    ghost predicate Valid()
      reads this, transport, transport.frames, operation
    {
      transport.Valid() && operation.Valid()
    }

    ghost function View(): Cli
      reads this
    {
      Cli(sequence, inputThrough, inputOperation, chunks, inputIndex, inputWriting, outputStart, frontier,
          markOffset, elapsed, marks, previousMark, log, bases, results, seen)
    }

    constructor (transport: EnvoyTransport, operation: Operation.OperationLifecycle, encode: Encoder)
      requires transport.Valid() && operation.Valid() && transport.readyEvent.Some?
        && transport.readyEvent.value.body.Ready?
      ensures Valid() && View() == FreshClient(transport.readyEvent.value.body.outputThrough)
      ensures this.transport == transport && this.operation == operation && this.encode == encode
    {
      this.transport, this.operation, this.encode := transport, operation, encode;
      sequence, inputThrough, inputOperation, chunks, inputIndex, inputWriting := 2, 0, None, [], 0, false;
      outputStart, frontier := None, transport.readyEvent.value.body.outputThrough;
      markOffset, elapsed, marks, previousMark := 0, 0, 0, false;
      log, bases, results, seen := [], [], [], [];
    }

    /** Asks the operation lifecycle, which a refusal breaks. */
    method AskOperation(r: Request) returns (ok: bool)
      requires Valid()
      modifies operation
      ensures Valid() && operation.View() == OperationAfter(old(operation.View()), r, operation.MayRecord())
      ensures ok == OperationAdmits(old(operation.View()), r, operation.MayRecord())
    {
      match r
      case Execute(id, _) => ok := operation.ExecuteOperation(id);
      case Continue(id, gate) => ok := operation.ContinueOperation(id, gate);
      case Cancel(id, _) => ok := operation.CancelOperation(id);
      case Finalize(id, _) => ok := operation.FinalizeOperation(id);
      case Shutdown(reason) => ok := operation.RequestShutdown(reason);
      case Resize(_, _) => ok := true;
    }

    method CheckRequest(r: Request, inputs: seq<bytes>) returns (ok: bool)
      requires Valid()
      ensures ok == Preflight(View(), transport.isReady, r, inputs, encode)
    {
      if !transport.isReady || (CountsInput(r) && inputWriting) {
        return false;
      }
      ok := AdmitInputs(inputs, inputThrough);
      if !ok || !(r.Execute? || inputs == []) {
        return false;
      }
      ok := encode(Control(sequence, r, if CountsInput(r) then Some(inputThrough) else None)).Some?;
    }

    method AdoptPlan(r: Request, inputs: seq<bytes>)
      modifies this
      ensures View() == Prepared(old(View()), r, inputs)
    {
      if r.Execute? {
        inputOperation, chunks, inputIndex, outputStart := Some(r.id), inputs, 0, None;
        bases := bases + [inputThrough];
      }
    }

    method Post(r: Request, sent: bool) returns (ok: bool)
      requires Valid() && transport.isReady
      modifies this, transport`isReady, transport`isClosed
      ensures Valid() && ok == sent
      ensures View() == if ok then WithPost(old(View()), r, transport.rawOffset) else old(View())
      ensures transport.View() == if ok then old(transport.View()) else Shut(old(transport.View()))
    {
      var frame := Control(sequence, r, if CountsInput(r) then Some(inputThrough) else None);
      ok := transport.Send(sent);
      if ok {
        sequence, log := sequence + 1, log + [Act.Posted(frame, transport.rawOffset)];
      }
    }

    method MakeRequest(r: Request, inputs: seq<bytes>, sent: bool) returns (verdict: Verdict)
      requires Valid()
      modifies this, operation, transport`isReady, transport`isClosed
      ensures Valid()
      ensures Asked(operation.View(), View(), verdict)
           == Ask(old(operation.View()), old(View()), old(transport.isReady), transport.rawOffset,
                  operation.MayRecord(), r,
                  inputs, encode, sent)
      ensures transport.View() == if verdict.WriteFailed? then Shut(old(transport.View())) else old(transport.View())
    {
      var ok := CheckRequest(r, inputs);
      if !ok {
        return Refused;
      }
      ok := AskOperation(r);
      if !ok {
        return OperationRefused;
      }
      AdoptPlan(r, inputs);
      ok := Post(r, sent);
      verdict := if ok then Sent else WriteFailed;
    }

    method BeginInput(id: string) returns (ok: bool)
      requires Valid()
      modifies this`inputWriting
      ensures Valid()
      ensures ok == MayType(operation.View(), old(View()), transport.isReady, operation.MayRecord(), id)
      ensures View() == BeginTyping(operation.View(), old(View()), transport.isReady, operation.MayRecord(), id)
    {
      ok := transport.isReady && !inputWriting && operation.MayRecord()
        && inputOperation == Some(id) && operation.activeId == Some(id) && outputStart.Some?
        && (operation.state.RUNNING? || operation.state.GATED? || operation.state.CONTINUING?)
        && inputIndex < |chunks|;
      if ok {
        inputWriting := true;
        assert View() == TypingBegun(old(View()));
      }
    }

    /** The pending terminal write settles; a failed one closes the pair and counts nothing. */
    method EndInput(written: bool) returns (ok: bool)
      requires Valid() && inputWriting && inputIndex < |chunks|
      modifies this, transport`isReady, transport`isClosed
      ensures Valid() && ok == (old(transport.isReady) && written)
      ensures View() == EndTyping(old(View()), old(transport.isReady) && written)
      ensures transport.View()
           == if old(transport.isReady) && !written then Shut(old(transport.View())) else old(transport.View())
    {
      ok := transport.Send(written);
      inputWriting := false;
      if ok {
        var data := chunks[inputIndex];
        inputThrough, inputIndex, log := inputThrough + |data|, inputIndex + 1, log + [Typed(data)];
        assert View() == TypingDone(old(View()));
      } else {
        assert View() == TypingFailed(old(View()));
      }
    }

    predicate MarkFits(offset: int, time: int)
      reads this
    {
      marks < MAX_OUTPUT_MARKS && frontier <= offset <= MAX_RAW_BYTES && offset >= markOffset && time >= elapsed
    }

    predicate BoundaryFits(b: Body, offset: int)
      reads this
    {
      && previousMark && frontier <= offset <= MAX_RAW_BYTES && offset == markOffset
      && (b.ResizeApplied? ==> b.elapsed >= elapsed)
      && (b.Started? ==> outputStart.None?)
      && (IsResult(b) ==>
            if outputStart.None? then Unstarted(b) && ResultStart(b) == offset
            else !Unstarted(b) && ResultStart(b) == outputStart.value)
    }

    method ObserveMark(offset: int, elapsed: int)
      modifies this
      ensures View() == Marked(old(View()), offset, elapsed)
    {
      marks, markOffset, this.elapsed, frontier, previousMark := marks + 1, offset, elapsed, offset, true;
    }

    method ObserveBoundary(b: Body, offset: int)
      requires Boundary(b) == Some(offset)
      modifies this
      ensures View() == AtBoundary(Settled(old(View()), b, offset), offset)
    {
      if b.ResizeApplied? {
        elapsed := b.elapsed;
      } else if b.Started? {
        outputStart := Some(offset);
      } else if IsResult(b) {
        inputOperation, results := None, results + [Span(ResultStart(b), offset)];
      } else if b.Draining? {
        inputOperation := None;
      }
      assert View() == Settled(old(View()), b, offset);
      frontier, previousMark := offset, false;
    }

    method CheckEvent(b: Body) returns (ok: bool)
      requires Valid()
      ensures ok == Observes(View(), Operation.ActiveId(operation.View()), b)
    {
      ok := Shaped(b) && !b.Ready?
        && (OperationId(b).None? || (inputOperation == OperationId(b) && operation.activeId == OperationId(b)))
        && (b.OutputMark? ==> MarkFits(b.offset, b.elapsed))
        && (Boundary(b).Some? ==> BoundaryFits(b, Boundary(b).value));
    }

    method PlaceEvent(b: Body)
      modifies this
      ensures View() == Placed(old(View()), b)
    {
      if b.OutputMark? {
        ObserveMark(b.offset, b.elapsed);
      } else if Boundary(b).Some? {
        ObserveBoundary(b, Boundary(b).value);
      } else {
        previousMark := false;
        assert View() == Unmarked(old(View()));
      }
    }

    method ObserveEvent(b: Body) returns (ok: bool)
      requires Valid()
      modifies this
      ensures Valid() && ok == Observes(old(View()), Operation.ActiveId(operation.View()), b)
      ensures View() == Observe(old(View()), Operation.ActiveId(operation.View()), b)
    {
      ok := CheckEvent(b);
      if ok {
        PlaceEvent(b);
        Hear(b);
      }
    }

    ghost method Hear(b: Body)
      modifies this`seen
      ensures View() == Heard(old(View()), b)
    {
      seen := seen + [b];
    }

    /** One receive; any failure closes the pair. */
    method Receive(a: Arrival) returns (fact: Fact)
      requires Valid()
      modifies this, transport, transport.frames, transport.rawLog, transport.telemetryLog
      ensures Valid()
      ensures old(transport.isReady) ==> old(Accepts(transport.parse, transport.frames.fed))
      ensures Pulled(transport.View(), View(), fact)
           == Pull(old(transport.View()), old(View()), Operation.ActiveId(operation.View()), transport.parse, a,
                   Outcome(old(transport.telemetryLog.script), if a.Telemetry? then |a.data| else 0),
                   Outcome(old(transport.rawLog.script), Handed(old(transport.View()), a)))
    {
      if !transport.isReady {
        transport.Close();
        return Raised;
      }
      fact := transport.ReceiveOne(a);
      if fact.Delivered? {
        var ok := ObserveEvent(fact.event.body);
        if !ok {
          transport.Close();
          fact := Raised;
        }
      }
    }
  }
}
