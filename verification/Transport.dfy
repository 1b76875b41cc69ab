/**
 * The channel pair (`EnvoyTransport`): two racing channels, bounded early output, and the
 * readiness barrier on the raw log. Each `_receive` is one step on whatever arrives.
 */
module Transport {
  import opened Common
  import opened Evidence
  import opened Frames
  import opened Wire

  const MAX_EARLY_BYTES: nat := 4096
  const MAX_RAW_BYTES: nat := 0x2_0000_0000

  /** What a completed read brings; no bytes means the channel ended. */
  datatype Arrival = Terminal(data: bytes) | Telemetry(data: bytes) | NothingToRead

  /** What one receive reports to its caller. */
  datatype Fact = Delivered(event: Event) | Raw(data: bytes) | TerminalEnded | TelemetryEnded | Withheld | Requeued
    | Raised

  /** The retained state, with what was read, parsed and delivered over its whole life. */
  datatype Net = Net(
    fed: bytes, queue: seq<Event>, early: bytes, barrier: Option<Event>, ready: bool, closed: bool,
    rawOffset: nat, rawLog: bytes, telemetryLog: bytes, terminalEof: bool, telemetryEof: bool,
    terminalRead: bytes, delivered: seq<Event>, held: bytes)

  /** A new pair: the raw log has to be empty, the telemetry log may hold something already. */
  function FreshNet(held: bytes): Net {
    Net([], [], [], None, false, false, 0, [], held, false, false, [], [], held)
  }

  predicate Fatal(e: Event) { e.body.Diagnostic? && e.body.fatal }

  function Events(frames: seq<Frame>): seq<Event> {
    seq(|frames|, i requires 0 <= i < |frames| => frames[i].event)
  }

  /** Every event of the telemetry bytes, in order. */
  ghost function Parsed(parse: Parser, fed: bytes): seq<Event>
    requires Accepts(parse, fed)
  {
    Events(AllFrames(parse, fed))
  }

  // ---------- Updates ----------

  function Shut(t: Net): Net { t.(ready := false, closed := true) }
  function Popped(t: Net): Net
    requires t.queue != []
  { t.(queue := t.queue[1..]) }
  function PutBack(t: Net, e: Event): Net { t.(queue := [e] + t.queue) }
  function Deliver(t: Net, e: Event): Net { t.(delivered := t.delivered + [e]) }
  function Appended(t: Net, data: bytes): Net { t.(rawLog := t.rawLog + data, rawOffset := t.rawOffset + |data|) }
  function PartlyAppended(t: Net, kept: bytes): Net { t.(rawLog := t.rawLog + kept) }
  function Barred(t: Net, e: Event): Net { t.(barrier := Some(e)) }
  function EarlyCleared(t: Net): Net { t.(early := []) }
  function Committed(t: Net): Net {
    t.(ready := t.ready || (t.barrier.Some? && t.barrier.value.body.Ready?
                            && t.rawOffset == t.barrier.value.body.outputThrough))
  }
  function TerminalTaken(t: Net, data: bytes): Net { t.(terminalRead := t.terminalRead + data) }
  function EarlyTaken(t: Net, data: bytes): Net { t.(early := t.early + data) }
  function TelemetryKept(t: Net, kept: bytes): Net { t.(telemetryLog := t.telemetryLog + kept) }
  function FedMore(t: Net, data: bytes, events: seq<Event>): Net { t.(fed := t.fed + data, queue := t.queue + events) }
  function TerminalEnd(t: Net): Net { t.(terminalEof := true) }
  function TelemetryEnd(t: Net): Net { t.(telemetryEof := true) }

  datatype Move = Move(net: Net, fact: Fact)

  function Raise(t: Net): Move { Move(Shut(t), Raised) }

  predicate AppendFits(t: Net, data: bytes) {
    |t.rawLog| == t.rawOffset && t.rawOffset + |data| <= MAX_RAW_BYTES
  }

  /** Only a ready event is ever the barrier (`Inv`). */
  predicate Overruns(t: Net, data: bytes)
    requires t.barrier.Some?
  {
    t.barrier.value.body.Ready? && t.rawOffset + |data| > t.barrier.value.body.outputThrough
  }

  /** Processing one event that left the queue. */
  function Process(t: Net, e: Event, raw: Written): Move
    requires raw.kept <= |t.early|
  {
    if Fatal(e) then Raise(t)
    else if e.body.Ready? then ProcessReady(t, e, raw)
    else if t.barrier.Some? && !t.ready then Move(PutBack(t, e), Requeued)
    else if !t.ready && !e.body.Diagnostic? then Raise(t)
    else Move(Deliver(t, e), Delivered(e))
  }

  function ProcessReady(t: Net, e: Event, raw: Written): Move
    requires raw.kept <= |t.early| && e.body.Ready?
  {
    if t.barrier.Some? || |t.early| > e.body.outputThrough then Raise(t)
    else if !AppendFits(t, t.early) then Raise(Barred(t, e))
    else if !raw.ok then Raise(PartlyAppended(Barred(t, e), t.early[..raw.kept]))
    else Move(Deliver(Committed(EarlyCleared(Appended(Barred(t, e), t.early))), e), Delivered(e))
  }

  predicate HasFatal(queue: seq<Event>) { exists i :: 0 <= i < |queue| && Fatal(queue[i]) }

  /** A queued event may be processed only before or after the barrier, never while it is pending. */
  predicate MayPop(t: Net) { t.queue != [] && (t.ready || t.barrier.None?) }

  predicate TerminalOnly(t: Net) { t.queue != [] && t.barrier.Some? && !t.ready }

  /** What the event loop can bring in this state. */
  predicate Offered(t: Net, a: Arrival) {
    match a
    case Terminal(_) => !t.terminalEof
    case Telemetry(_) => !t.telemetryEof && !TerminalOnly(t)
    case NothingToRead => t.terminalEof && (t.telemetryEof || TerminalOnly(t))
  }

  function TakeTerminal(t: Net, data: bytes, raw: Written): Move
    requires raw.kept <= |data|
  {
    if data == [] then
      if t.ready then Move(TerminalEnd(t), TerminalEnded) else Raise(TerminalEnd(t))
    else
      var t := TerminalTaken(t, data);
      if t.barrier.None? then
        if |t.early| + |data| > MAX_EARLY_BYTES then Raise(t) else Move(EarlyTaken(t, data), Withheld)
      else if !t.ready && Overruns(t, data) then Raise(t)
      else if !AppendFits(t, data) then Raise(t)
      else if !raw.ok then Raise(PartlyAppended(t, data[..raw.kept]))
      else Move(Committed(Appended(t, data)), Raw(data))
  }

  function PopEvent(t: Net, raw: Written): Move
    requires t.queue != [] && raw.kept <= |t.early|
  {
    Process(Popped(t), t.queue[0], raw)
  }

  /** After a telemetry read the batch is queued whole, then its first event is processed. */
  function AfterBatch(t: Net, raw: Written): Move
    requires raw.kept <= |t.early|
  {
    if t.queue == [] then Move(t, Withheld)
    else if !t.ready && HasFatal(t.queue) then Raise(t)
    else if TerminalOnly(t) then Move(t, Withheld)
    else PopEvent(t, raw)
  }

  ghost function TakeTelemetry(t: Net, parse: Parser, data: bytes, telemetry: Written, raw: Written): Move
    requires telemetry.kept <= |data| && raw.kept <= |t.early|
    requires Accepts(parse, t.fed)
  {
    if data == [] then
      if Tail(t.fed) != [] || !t.ready then Raise(TelemetryEnd(t)) else Move(TelemetryEnd(t), TelemetryEnded)
    else
      var k := TelemetryKept(t, data[..telemetry.kept]);
      if !telemetry.ok then Raise(k)
      else if |data| > MAX_FRAME_BYTES || !Accepts(parse, t.fed + data) then Raise(k)
      else
        AcceptsPrefix(parse, t.fed, data);
        AfterBatch(FedMore(k, data, Parsed(parse, t.fed + data)[|Parsed(parse, t.fed)|..]), raw)
  }

  /** How many early or terminal bytes a step may hand to the raw log. */
  function Handed(t: Net, a: Arrival): nat {
    if a.Terminal? && !MayPop(t) then |a.data| else |t.early|
  }

  /** One `_receive`. */
  ghost function Receive(t: Net, parse: Parser, a: Arrival, telemetry: Written, raw: Written): Move
    requires Accepts(parse, t.fed)
    requires raw.kept <= Handed(t, a) && (a.Telemetry? ==> telemetry.kept <= |a.data|)
  {
    if t.queue != [] && !t.ready && HasFatal(t.queue) then Raise(t)
    else if MayPop(t) then PopEvent(t, raw)
    else match a
      case Terminal(data) => TakeTerminal(t, data, raw)
      case Telemetry(data) => TakeTelemetry(t, parse, data, telemetry, raw)
      case NothingToRead => Raise(t)
  }

  // ---------- What every interleaving keeps ----------

  /** The delivered events: nonfatal diagnostics, then one ready, then neither another ready nor a fatal event. */
  ghost predicate OpeningDiagnostics(events: seq<Event>) {
    forall i :: 0 <= i < |events| ==> events[i].body.Diagnostic? && !events[i].body.fatal
  }

  ghost predicate OrdinaryEvents(events: seq<Event>) {
    forall i :: 0 <= i < |events| ==> !events[i].body.Ready? && !Fatal(events[i])
  }

  ghost predicate ReadyAt(delivered: seq<Event>, k: nat, e: Event) {
    && k < |delivered| && delivered[k] == e && e.body.Ready?
    && OpeningDiagnostics(delivered[..k]) && OrdinaryEvents(delivered[k + 1..])
  }

  /** Before the barrier, while it is pending, and after it. */
  ghost predicate Barrier(t: Net) {
    match t.barrier
    case None => !t.ready && t.rawLog == [] && OpeningDiagnostics(t.delivered)
    case Some(e) =>
      && t.early == [] && e.body.Ready?
      && (exists k :: ReadyAt(t.delivered, k, e) && (!t.ready ==> k == |t.delivered| - 1))
      && (if t.ready then t.rawOffset >= e.body.outputThrough else t.rawOffset < e.body.outputThrough)
  }

  /** Nothing read is lost, reordered or invented on either channel. */
  ghost predicate Conserves(t: Net, parse: Parser) {
    && Accepts(parse, t.fed) && t.telemetryLog == t.held + t.fed
    && t.delivered + t.queue == Parsed(parse, t.fed)
    && t.rawLog + t.early == t.terminalRead
    && t.rawOffset == |t.rawLog|
  }

  ghost predicate Inv(t: Net, parse: Parser) {
    t.closed || (Conserves(t, parse) && Barrier(t))
  }

  lemma DiagnosticsSnoc(events: seq<Event>, e: Event)
    requires OpeningDiagnostics(events) && e.body.Diagnostic? && !Fatal(e)
    ensures OpeningDiagnostics(events + [e])
  {
  }

  lemma ReadySnoc(delivered: seq<Event>, k: nat, e: Event, next: Event)
    requires ReadyAt(delivered, k, e) && !next.body.Ready? && !Fatal(next)
    ensures ReadyAt(delivered + [next], k, e)
  {
    var d := delivered + [next];
    assert d[..k] == delivered[..k];
    assert d[k + 1..] == delivered[k + 1..] + [next];
  }

  /** Queue and deliveries keep the order of the telemetry stream. */
  lemma PopConserves(t: Net, parse: Parser)
    requires Conserves(t, parse) && t.queue != []
    ensures Conserves(Deliver(Popped(t), t.queue[0]), parse)
  {
    assert t.delivered + t.queue == (t.delivered + [t.queue[0]]) + t.queue[1..];
  }

  lemma ProcessOrdinary(t: Net, parse: Parser)
    requires Inv(t, parse) && !t.closed && MayPop(t) && !Fatal(t.queue[0]) && !t.queue[0].body.Ready?
    requires t.ready || t.queue[0].body.Diagnostic?
    ensures Inv(Deliver(Popped(t), t.queue[0]), parse)
  {
    var e := t.queue[0];
    PopConserves(t, parse);
    if t.barrier.None? {
      DiagnosticsSnoc(t.delivered, e);
    } else {
      var k :| ReadyAt(t.delivered, k, t.barrier.value);
      ReadySnoc(t.delivered, k, t.barrier.value, e);
    }
  }

  lemma ProcessReadyKeeps(t: Net, parse: Parser)
    requires Inv(t, parse) && !t.closed && t.queue != [] && t.barrier.None?
    requires t.queue[0].body.Ready? && |t.early| <= t.queue[0].body.outputThrough
    ensures var e := t.queue[0];
      Inv(Deliver(Committed(EarlyCleared(Appended(Barred(Popped(t), e), t.early))), e), parse)
  {
    var e := t.queue[0];
    var n := Deliver(Committed(EarlyCleared(Appended(Barred(Popped(t), e), t.early))), e);
    PopConserves(t, parse);
    assert n.rawLog == t.early && n.rawLog + n.early == t.early;
    assert n.delivered[..|t.delivered|] == t.delivered && n.delivered[|t.delivered| + 1..] == [];
    assert ReadyAt(n.delivered, |t.delivered|, e);
  }

  lemma PopKeeps(t: Net, parse: Parser, raw: Written)
    requires Inv(t, parse) && !t.closed && MayPop(t) && raw.kept <= |t.early|
    ensures Inv(PopEvent(t, raw).net, parse) && !PopEvent(t, raw).fact.Requeued?
    ensures !PopEvent(t, raw).fact.Raised? ==> !PopEvent(t, raw).net.closed
  {
    var e := t.queue[0];
    if !Fatal(e) && !e.body.Ready? && (t.ready || e.body.Diagnostic?) {
      ProcessOrdinary(t, parse);
    } else if e.body.Ready? && t.barrier.None? && |t.early| <= e.body.outputThrough {
      ProcessReadyKeeps(t, parse);
    }
  }

  lemma AppendKeeps(t: Net, parse: Parser, data: bytes)
    requires Inv(t, parse) && !t.closed && t.barrier.Some?
    requires t.ready || !Overruns(t, data)
    ensures Inv(Committed(Appended(TerminalTaken(t, data), data)), parse)
  {
    var n := Committed(Appended(TerminalTaken(t, data), data));
    assert (t.rawLog + data) + [] == (t.rawLog + []) + data;
    var k :| ReadyAt(t.delivered, k, t.barrier.value) && (!t.ready ==> k == |t.delivered| - 1);
    assert ReadyAt(n.delivered, k, t.barrier.value);
  }

  lemma EarlyKeeps(t: Net, parse: Parser, data: bytes)
    requires Inv(t, parse) && !t.closed && t.barrier.None?
    ensures Inv(EarlyTaken(TerminalTaken(t, data), data), parse)
  {
    assert t.rawLog + (t.early + data) == (t.rawLog + t.early) + data;
  }

  lemma TerminalEndKeeps(t: Net, parse: Parser)
    requires Inv(t, parse) && !t.closed && t.ready
    ensures Inv(TerminalEnd(t), parse)
  {
    var k :| ReadyAt(t.delivered, k, t.barrier.value);
    assert ReadyAt(TerminalEnd(t).delivered, k, t.barrier.value);
  }

  lemma TerminalKeeps(t: Net, parse: Parser, data: bytes, raw: Written)
    requires Inv(t, parse) && !t.closed && raw.kept <= |data|
    ensures Inv(TakeTerminal(t, data, raw).net, parse)
  {
    if data == [] {
      if t.ready {
        TerminalEndKeeps(t, parse);
      }
    } else if t.barrier.None? {
      EarlyKeeps(t, parse, data);
    } else if t.ready || !Overruns(t, data) {
      AppendKeeps(t, parse, data);
    }
  }

  lemma BatchKeeps(t: Net, parse: Parser, data: bytes)
    requires Inv(t, parse) && !t.closed && Accepts(parse, t.fed + data)
    ensures Accepts(parse, t.fed) && |Parsed(parse, t.fed)| <= |Parsed(parse, t.fed + data)|
    ensures Inv(FedMore(TelemetryKept(t, data), data, Parsed(parse, t.fed + data)[|Parsed(parse, t.fed)|..]), parse)
  {
    AcceptsPrefix(parse, t.fed, data);
    var before, after := Parsed(parse, t.fed), Parsed(parse, t.fed + data);
    assert before <= after;
    var n := FedMore(TelemetryKept(t, data), data, after[|before|..]);
    Appending(t.held, t.fed, data);
    Appending(t.delivered, t.queue, after[|before|..]);
    PrefixRejoins(before, after);
    assert Conserves(n, parse);
    assert Barrier(n);
  }

  lemma PrefixRejoins<T>(a: seq<T>, b: seq<T>)
    requires a <= b
    ensures a + b[|a|..] == b
  {
  }

  lemma Appending<T>(a: seq<T>, b: seq<T>, c: seq<T>)
    ensures (a + b) + c == a + (b + c)
  {
  }

  lemma AfterBatchKeeps(t: Net, parse: Parser, raw: Written)
    requires Inv(t, parse) && !t.closed && raw.kept <= |t.early|
    ensures Inv(AfterBatch(t, raw).net, parse) && !AfterBatch(t, raw).fact.Requeued?
  {
    if t.queue != [] && !TerminalOnly(t) {
      PopKeeps(t, parse, raw);
    }
  }

  lemma TelemetryEndKeeps(t: Net, parse: Parser)
    requires Inv(t, parse) && !t.closed && t.ready
    ensures Inv(TelemetryEnd(t), parse)
  {
    var k :| ReadyAt(t.delivered, k, t.barrier.value);
    assert ReadyAt(TelemetryEnd(t).delivered, k, t.barrier.value);
  }

  lemma TelemetryKeeps(t: Net, parse: Parser, data: bytes, telemetry: Written, raw: Written)
    requires Inv(t, parse) && !t.closed
    requires telemetry.kept <= |data| && raw.kept <= |t.early| && (telemetry.ok ==> telemetry.kept == |data|)
    ensures Inv(TakeTelemetry(t, parse, data, telemetry, raw).net, parse)
    ensures !TakeTelemetry(t, parse, data, telemetry, raw).fact.Requeued?
  {
    if data == [] {
      if t.ready {
        TelemetryEndKeeps(t, parse);
      }
    } else if telemetry.ok && |data| <= MAX_FRAME_BYTES && Accepts(parse, t.fed + data) {
      assert data[..telemetry.kept] == data;
      BatchKeeps(t, parse, data);
      AfterBatchKeeps(FedMore(TelemetryKept(t, data), data, Parsed(parse, t.fed + data)[|Parsed(parse, t.fed)|..]),
                      parse, raw);
    }
  }

  /**
   * Whatever arrives on either channel, nothing is lost or reordered, the barrier holds, and
   * a processed event is never put back.
   */
  lemma ReceiveKeeps(t: Net, parse: Parser, a: Arrival, telemetry: Written, raw: Written)
    requires Inv(t, parse) && !t.closed && Offered(t, a)
    requires raw.kept <= Handed(t, a) && (a.Telemetry? ==> telemetry.kept <= |a.data|)
    requires a.Telemetry? && telemetry.ok ==> telemetry.kept == |a.data|
    ensures Inv(Receive(t, parse, a, telemetry, raw).net, parse)
    ensures !Receive(t, parse, a, telemetry, raw).fact.Requeued?
  {
    if t.queue != [] && !t.ready && HasFatal(t.queue) {
    } else if MayPop(t) {
      PopKeeps(t, parse, raw);
    } else if a.Terminal? {
      TerminalKeeps(t, parse, a.data, raw);
    } else if a.Telemetry? {
      TelemetryKeeps(t, parse, a.data, telemetry, raw);
    }
  }

  predicate Grows(t: Net, n: Net) {
    |t.rawLog| <= |n.rawLog| && (t.rawOffset <= |t.rawLog| ==> n.rawOffset <= |n.rawLog|)
  }

  /** A ready pair stays ready unless the step fails. */
  predicate Stays(t: Net, m: Move) {
    t.ready && !t.closed && !m.fact.Raised? ==> m.net.ready && !m.net.closed
  }

  lemma PopGrows(t: Net, raw: Written)
    requires t.queue != [] && raw.kept <= |t.early|
    ensures Grows(t, PopEvent(t, raw).net) && Stays(t, PopEvent(t, raw))
  {
    var p, e := Popped(t), t.queue[0];
    assert Grows(t, PartlyAppended(Barred(p, e), p.early[..raw.kept]));
    assert Grows(t, Deliver(Committed(EarlyCleared(Appended(Barred(p, e), p.early))), e));
  }

  lemma TelemetryGrows(t: Net, parse: Parser, data: bytes, telemetry: Written, raw: Written)
    requires Accepts(parse, t.fed) && telemetry.kept <= |data| && raw.kept <= |t.early|
    ensures Grows(t, TakeTelemetry(t, parse, data, telemetry, raw).net)
    ensures Stays(t, TakeTelemetry(t, parse, data, telemetry, raw))
  {
    if data != [] && telemetry.ok && |data| <= MAX_FRAME_BYTES && Accepts(parse, t.fed + data) {
      AcceptsPrefix(parse, t.fed, data);
      var events := Parsed(parse, t.fed + data)[|Parsed(parse, t.fed)|..];
      var n := FedMore(TelemetryKept(t, data[..telemetry.kept]), data, events);
      if n.queue != [] {
        PopGrows(n, raw);
      }
    }
  }

  lemma TerminalGrows(t: Net, data: bytes, raw: Written)
    requires raw.kept <= |data|
    ensures Grows(t, TakeTerminal(t, data, raw).net) && Stays(t, TakeTerminal(t, data, raw))
  {
    assert Grows(t, Committed(Appended(TerminalTaken(t, data), data)));
    assert Grows(t, PartlyAppended(TerminalTaken(t, data), data[..raw.kept]));
  }

  /** The raw log is only ever extended, and readiness is lost only with the pair. */
  lemma LogGrows(t: Net, parse: Parser, a: Arrival, telemetry: Written, raw: Written)
    requires Accepts(parse, t.fed)
    requires raw.kept <= Handed(t, a) && (a.Telemetry? ==> telemetry.kept <= |a.data|)
    ensures Grows(t, Receive(t, parse, a, telemetry, raw).net) && Stays(t, Receive(t, parse, a, telemetry, raw))
  {
    if MayPop(t) {
      PopGrows(t, raw);
    } else if a.Telemetry? {
      TelemetryGrows(t, parse, a.data, telemetry, raw);
    } else if a.Terminal? {
      TerminalGrows(t, a.data, raw);
    }
  }

  // ---------- Whole runs ----------

  datatype Input = Input(arrival: Arrival, telemetry: Written, raw: Written)

  predicate Fits(t: Net, i: Input) {
    && Offered(t, i.arrival) && i.raw.kept <= Handed(t, i.arrival)
    && (i.arrival.Telemetry? ==>
          i.telemetry.kept <= |i.arrival.data| && (i.telemetry.ok ==> i.telemetry.kept == |i.arrival.data|))
  }

  /** A closed transport reads no more, and an input the state does not offer cannot occur. */
  ghost function Advance(t: Net, parse: Parser, i: Input): (n: Net)
    requires Inv(t, parse)
    ensures Inv(n, parse)
  {
    if t.closed || !Fits(t, i) then t
    else
      ReceiveKeeps(t, parse, i.arrival, i.telemetry, i.raw);
      Receive(t, parse, i.arrival, i.telemetry, i.raw).net
  }

  ghost function RunFrom(t: Net, parse: Parser, inputs: seq<Input>): (n: Net)
    requires Inv(t, parse)
    ensures Inv(n, parse)
    decreases |inputs|
  {
    if inputs == [] then t else RunFrom(Advance(t, parse, inputs[0]), parse, inputs[1..])
  }

  lemma FreshKeeps(parse: Parser, held: bytes)
    ensures Inv(FreshNet(held), parse)
  {
    assert held + [] == held;
    assert Lines([]) == [] && AllFrames(parse, []) == [];
  }

  ghost function Run(parse: Parser, held: bytes, inputs: seq<Input>): (n: Net)
    ensures Inv(n, parse)
  {
    FreshKeeps(parse, held);
    RunFrom(FreshNet(held), parse, inputs)
  }

  /** A move that brings readiness brings it at the exact offset of its ready event. */
  predicate ExactOpening(m: Move) {
    m.net.ready ==>
      !m.net.closed && m.net.barrier.Some? && m.net.barrier.value.body.Ready?
        && m.net.rawOffset == m.net.barrier.value.body.outputThrough
  }

  lemma PopOpens(t: Net, raw: Written)
    requires !t.ready && !t.closed && t.queue != [] && raw.kept <= |t.early|
    ensures ExactOpening(PopEvent(t, raw))
  {
  }

  lemma TerminalOpens(t: Net, data: bytes, raw: Written)
    requires !t.ready && !t.closed && raw.kept <= |data|
    ensures ExactOpening(TakeTerminal(t, data, raw))
  {
  }

  lemma AfterBatchOpens(t: Net, raw: Written)
    requires !t.ready && !t.closed && raw.kept <= |t.early|
    ensures ExactOpening(AfterBatch(t, raw))
  {
    if t.queue != [] {
      PopOpens(t, raw);
    }
  }

  lemma TelemetryOpens(t: Net, parse: Parser, data: bytes, telemetry: Written, raw: Written)
    requires Accepts(parse, t.fed) && !t.ready && !t.closed
    requires telemetry.kept <= |data| && raw.kept <= |t.early|
    ensures ExactOpening(TakeTelemetry(t, parse, data, telemetry, raw))
  {
    if data != [] && telemetry.ok && |data| <= MAX_FRAME_BYTES && Accepts(parse, t.fed + data) {
      AcceptsPrefix(parse, t.fed, data);
      var events := Parsed(parse, t.fed + data)[|Parsed(parse, t.fed)|..];
      AfterBatchOpens(FedMore(TelemetryKept(t, data[..telemetry.kept]), data, events), raw);
    }
  }

  /** Readiness is reached exactly when the raw log gets to the offset the ready event names. */
  lemma ReadyAtExactOffset(t: Net, parse: Parser, i: Input)
    requires Inv(t, parse) && !t.closed && !t.ready && Fits(t, i) && !Advance(t, parse, i).closed
    ensures var n := Advance(t, parse, i);
      n.ready <==> n.barrier.Some? && n.barrier.value.body.Ready? && |n.rawLog| == n.barrier.value.body.outputThrough
  {
    var n := Advance(t, parse, i);
    assert Inv(n, parse);
    if t.queue != [] && HasFatal(t.queue) {
    } else if MayPop(t) {
      PopOpens(t, i.raw);
    } else if i.arrival.Terminal? {
      TerminalOpens(t, i.arrival.data, i.raw);
    } else if i.arrival.Telemetry? {
      TelemetryOpens(t, parse, i.arrival.data, i.telemetry, i.raw);
    }
  }

  /** While the barrier is pending nothing is delivered, whatever the telemetry holds. */
  lemma PendingDeliversNothing(t: Net, parse: Parser, i: Input)
    requires Inv(t, parse) && !t.closed && t.barrier.Some? && !t.ready && Fits(t, i)
    ensures Advance(t, parse, i).delivered == t.delivered
  {
    if i.arrival.Telemetry? && !HasFatal(t.queue) {
      PendingTelemetry(t, parse, i.arrival.data, i.telemetry, i.raw);
    }
  }

  lemma PendingTelemetry(t: Net, parse: Parser, data: bytes, telemetry: Written, raw: Written)
    requires Accepts(parse, t.fed) && t.barrier.Some? && !t.ready && !t.closed
    requires telemetry.kept <= |data| && raw.kept <= |t.early|
    ensures TakeTelemetry(t, parse, data, telemetry, raw).net.delivered == t.delivered
  {
  }

  lemma ParsedShaped(parse: Parser, fed: bytes)
    requires Accepts(parse, fed)
    ensures forall e :: e in Parsed(parse, fed) ==> Shaped(e.body)
  {
    forall e | e in Parsed(parse, fed) ensures Shaped(e.body) {
      var k :| 0 <= k < |Parsed(parse, fed)| && Parsed(parse, fed)[k] == e;
      assert GoodLine(parse, Lines(fed)[k], k);
    }
  }

  /** The barrier of a live pair is a well-formed ready event. */
  lemma BarrierShaped(t: Net, parse: Parser)
    requires Inv(t, parse) && !t.closed && t.barrier.Some?
    ensures t.barrier.value.body.Ready? && Shaped(t.barrier.value.body)
  {
    ParsedShaped(parse, t.fed);
    assert Barrier(t);
    var k: nat :| ReadyAt(t.delivered, k, t.barrier.value);
    assert (t.delivered + t.queue)[k] == t.barrier.value;
  }

  lemma BeforeReady(delivered: seq<Event>, k: nat, e: Event, j: nat)
    requires ReadyAt(delivered, k, e) && j < k
    ensures delivered[j].body.Diagnostic?
  {
    assert delivered[..k][j] == delivered[j];
  }

  lemma FirstReadyIsOne(delivered: seq<Event>, j: nat, d: Event, k: nat, e: Event)
    requires ReadyAt(delivered, j, d) && ReadyAt(delivered, k, e)
    ensures d == e
  {
    if j < k {
      BeforeReady(delivered, k, e, j);
    } else if k < j {
      BeforeReady(delivered, j, d, k);
    }
  }

  /**
   * How the two channels raced does not matter: two ready runs that read the same bytes and
   * have no event waiting delivered the same events, kept the same raw log and met the same barrier.
   */
  lemma InterleavingsAgree(parse: Parser, held: bytes, left: seq<Input>, right: seq<Input>)
    requires Run(parse, held, left).ready && Run(parse, held, right).ready
    requires !Run(parse, held, left).closed && !Run(parse, held, right).closed
    requires Run(parse, held, left).queue == [] && Run(parse, held, right).queue == []
    requires Run(parse, held, left).fed == Run(parse, held, right).fed
    requires Run(parse, held, left).terminalRead == Run(parse, held, right).terminalRead
    ensures Run(parse, held, left).delivered == Run(parse, held, right).delivered
    ensures Run(parse, held, left).rawLog == Run(parse, held, right).rawLog
    ensures Run(parse, held, left).barrier == Run(parse, held, right).barrier
  {
    var l, r := Run(parse, held, left), Run(parse, held, right);
    assert l.delivered + [] == l.delivered && r.delivered + [] == r.delivered;
    assert l.rawLog + [] == l.rawLog && r.rawLog + [] == r.rawLog;
    var j :| ReadyAt(l.delivered, j, l.barrier.value);
    var k :| ReadyAt(r.delivered, k, r.barrier.value);
    FirstReadyIsOne(l.delivered, j, l.barrier.value, k, r.barrier.value);
  }

  // ---------- The mutable transport ----------

  class EnvoyTransport {
    const parse: Parser
    const frames: EventFrames
    const rawLog: Sink
    const telemetryLog: Sink
    var events: seq<Event>
    var early: bytes
    var readyEvent: Option<Event>
    var isReady: bool
    var isClosed: bool
    var rawOffset: nat
    var terminalEof: bool
    var telemetryEof: bool
    ghost var terminalRead: bytes
    ghost var delivered: seq<Event>
    ghost const held: bytes

    ghost const Repr: set<object> := {this, frames, rawLog, telemetryLog}

    ghost predicate Valid()
      reads this, frames
    {
      && rawLog != telemetryLog && frames.parse == parse && frames.Valid()
      && (!isClosed ==> !frames.failed) && (isReady ==> !isClosed)
    }

    ghost function View(): Net
      reads this, frames, rawLog, telemetryLog
    {
      Net(frames.fed, events, early, readyEvent, isReady, isClosed, rawOffset, rawLog.contents,
          telemetryLog.contents, terminalEof, telemetryEof, terminalRead, delivered, held)
    }

    constructor (parse: Parser, rawLog: Sink, telemetryLog: Sink)
      requires rawLog != telemetryLog && rawLog.contents == []
      ensures Valid() && View() == FreshNet(telemetryLog.contents) && this.parse == parse
      ensures this.rawLog == rawLog && this.telemetryLog == telemetryLog && fresh(frames)
    {
      this.parse, this.rawLog, this.telemetryLog := parse, rawLog, telemetryLog;
      frames := new EventFrames(parse);
      events, early, readyEvent, isReady, isClosed := [], [], None, false, false;
      rawOffset, terminalEof, telemetryEof, terminalRead, delivered := 0, false, false, [], [];
      held := telemetryLog.contents;
    }

    method Close()
      requires Valid()
      modifies this`isReady, this`isClosed
      ensures Valid() && View() == Shut(old(View()))
    {
      isReady, isClosed := false, true;
    }

    /** Extends the raw log by the whole of `data`, if it is still the log this owner left. */
    method Append(data: bytes) returns (ok: bool)
      requires Valid()
      modifies this`rawOffset, rawLog
      ensures Valid()
      ensures ok == (AppendFits(old(View()), data) && Outcome(old(rawLog.script), |data|).ok)
      ensures View() == if ok then Appended(old(View()), data)
                        else if AppendFits(old(View()), data)
                        then PartlyAppended(old(View()), data[..Outcome(old(rawLog.script), |data|).kept])
                        else old(View())
    {
      if |rawLog.contents| != rawOffset || rawOffset + |data| > MAX_RAW_BYTES {
        return false;
      }
      ok := rawLog.WriteAll(data);
      if ok {
        rawOffset := rawOffset + |data|;
        assert data[..|data|] == data;
      }
    }

    method CommitReady()
      requires Valid() && !isClosed
      modifies this`isReady
      ensures Valid() && View() == Committed(old(View()))
    {
      if readyEvent.Some? && readyEvent.value.body.Ready? && rawOffset == readyEvent.value.body.outputThrough {
        isReady := true;
      }
    }

    method Fail() returns (fact: Fact)
      requires Valid()
      modifies this`isReady, this`isClosed
      ensures Valid() && Move(View(), fact) == Raise(old(View()))
    {
      Close();
      fact := Raised;
    }

    method HandOver(e: Event) returns (fact: Fact)
      requires Valid()
      modifies this`delivered
      ensures Valid() && Move(View(), fact) == Move(Deliver(old(View()), e), Delivered(e))
    {
      delivered := delivered + [e];
      fact := Delivered(e);
    }

    method HandleReady(e: Event) returns (fact: Fact)
      requires Valid() && !isClosed && e.body.Ready?
      modifies this, rawLog
      ensures Valid()
      ensures Move(View(), fact) == ProcessReady(old(View()), e, Outcome(old(rawLog.script), |old(early)|))
    {
      if readyEvent.Some? || |early| > e.body.outputThrough {
        fact := Fail();
        return;
      }
      readyEvent := Some(e);
      assert View() == Barred(old(View()), e);
      var ok := Append(early);
      if !ok {
        fact := Fail();
        return;
      }
      early := [];
      assert View() == EarlyCleared(Appended(Barred(old(View()), e), old(early)));
      CommitReady();
      fact := HandOver(e);
    }

    method HandleEvent(e: Event) returns (fact: Fact)
      requires Valid() && !isClosed
      modifies this, rawLog
      ensures Valid()
      ensures Move(View(), fact) == Process(old(View()), e, Outcome(old(rawLog.script), |old(early)|))
    {
      if Fatal(e) {
        fact := Fail();
      } else if e.body.Ready? {
        fact := HandleReady(e);
      } else if readyEvent.Some? && !isReady {
        events := [e] + events;
        fact := Requeued;
      } else if !isReady && !e.body.Diagnostic? {
        fact := Fail();
      } else {
        fact := HandOver(e);
      }
    }

    method NextEvent() returns (fact: Fact)
      requires Valid() && !isClosed && events != []
      modifies this, rawLog
      ensures Valid() && Move(View(), fact) == PopEvent(old(View()), Outcome(old(rawLog.script), |old(early)|))
    {
      var e := events[0];
      events := events[1..];
      assert View() == Popped(old(View()));
      fact := HandleEvent(e);
    }

    /** Looks for a fatal diagnostic anywhere in the queue. */
    method FindFatal() returns (found: bool)
      ensures found == HasFatal(events)
    {
      for i := 0 to |events|
        invariant forall k :: 0 <= k < i ==> !Fatal(events[k])
      {
        if Fatal(events[i]) {
          return true;
        }
      }
      found := false;
    }

    method TakeTerminalRead(data: bytes) returns (fact: Fact)
      requires Valid() && !isClosed
      modifies this, rawLog
      ensures Valid()
      ensures Move(View(), fact) == TakeTerminal(old(View()), data, Outcome(old(rawLog.script), |data|))
    {
      if data == [] {
        terminalEof := true;
        assert View() == TerminalEnd(old(View()));
        if !isReady {
          fact := Fail();
        } else {
          fact := TerminalEnded;
        }
        return;
      }
      terminalRead := terminalRead + data;
      ghost var taken := TerminalTaken(old(View()), data);
      assert View() == taken;
      if readyEvent.None? {
        if |early| + |data| > MAX_EARLY_BYTES {
          fact := Fail();
        } else {
          early := early + data;
          assert View() == EarlyTaken(taken, data);
          fact := Withheld;
        }
        return;
      }
      if !isReady && readyEvent.value.body.Ready? && rawOffset + |data| > readyEvent.value.body.outputThrough {
        fact := Fail();
        return;
      }
      fact := TakeRetained(data);
    }

    method TakeRetained(data: bytes) returns (fact: Fact)
      requires Valid() && !isClosed
      modifies this, rawLog
      ensures Valid()
      ensures Move(View(), fact)
           == var t, raw := old(View()), Outcome(old(rawLog.script), |data|);
              if !AppendFits(t, data) then Raise(t)
              else if !raw.ok then Raise(PartlyAppended(t, data[..raw.kept]))
              else Move(Committed(Appended(t, data)), Raw(data))
    {
      var ok := Append(data);
      if !ok {
        fact := Fail();
        return;
      }
      CommitReady();
      fact := Raw(data);
    }

    method TakeTelemetryRead(data: bytes) returns (fact: Fact)
      requires Valid() && !isClosed
      modifies this, frames, rawLog, telemetryLog
      ensures Valid()
      ensures old(Accepts(parse, frames.fed))
      ensures Move(View(), fact)
           == TakeTelemetry(old(View()), parse, data, Outcome(old(telemetryLog.script), |data|),
                            Outcome(old(rawLog.script), |old(early)|))
    {
      if data == [] {
        telemetryEof := true;
        assert View() == TelemetryEnd(old(View()));
        var clean := frames.Eof();
        if !clean || !isReady {
          fact := Fail();
        } else {
          fact := TelemetryEnded;
        }
        return;
      }
      var ok := telemetryLog.WriteAll(data);
      ghost var kept := TelemetryKept(old(View()), data[..Outcome(old(telemetryLog.script), |data|).kept]);
      assert View() == kept;
      if !ok {
        fact := Fail();
        return;
      }
      var r := frames.Feed(data);
      if r.Rejected? {
        isReady, isClosed, fact := false, true, Raised;
        return;
      }
      NewEvents(parse, old(frames.fed), frames.fed, r.frames);
      events := events + Events(r.frames);
      assert View() == FedMore(kept, data, Events(r.frames));
      fact := ProcessBatch();
    }

    method ProcessBatch() returns (fact: Fact)
      requires Valid() && !isClosed
      modifies this, rawLog
      ensures Valid() && Move(View(), fact) == AfterBatch(old(View()), Outcome(old(rawLog.script), |old(early)|))
    {
      if events == [] {
        return Withheld;
      }
      var fatal := FindFatal();
      if !isReady && fatal {
        fact := Fail();
      } else if readyEvent.Some? && !isReady {
        fact := Withheld;
      } else {
        fact := NextEvent();
      }
    }

    /** A control or terminal write; `sent` says whether the socket took every byte. */
    method Send(sent: bool) returns (ok: bool)
      requires Valid()
      modifies this`isReady, this`isClosed
      ensures Valid() && ok == (old(isReady) && sent)
      ensures View() == if old(isReady) && !sent then Shut(old(View())) else old(View())
    {
      if !isReady {
        return false;
      }
      if !sent {
        Close();
      }
      ok := sent;
    }

    /** One `_receive`, with the closing both callers add to a failure. */
    method ReceiveOne(a: Arrival) returns (fact: Fact)
      requires Valid() && !isClosed
      modifies this, frames, rawLog, telemetryLog
      ensures Valid()
      ensures old(Accepts(parse, frames.fed))
      ensures Move(View(), fact)
           == Receive(old(View()), parse, a, Outcome(old(telemetryLog.script), if a.Telemetry? then |a.data| else 0),
                      Outcome(old(rawLog.script), Handed(old(View()), a)))
    {
      var fatal := FindFatal();
      if events != [] && !isReady && fatal {
        fact := Fail();
        return;
      }
      if events != [] && (isReady || readyEvent.None?) {
        fact := NextEvent();
        return;
      }
      match a
      case Terminal(data) => fact := TakeTerminalRead(data);
      case Telemetry(data) => fact := TakeTelemetryRead(data);
      case NothingToRead => fact := Fail();
    }
  }

  lemma NewEvents(parse: Parser, before: bytes, after: bytes, frames: seq<Frame>)
    requires Accepts(parse, before) && Accepts(parse, after)
    requires AllFrames(parse, after) == AllFrames(parse, before) + frames
    ensures |Parsed(parse, before)| <= |Parsed(parse, after)|
    ensures Parsed(parse, after)[|Parsed(parse, before)|..] == Events(frames)
  {
  }
}
