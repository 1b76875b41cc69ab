/** Incremental LF framing of Envoy telemetry (`EventFrames`), proved against batch parsing. */
module Frames {
  import opened Common
  import opened Wire

  const LF: byte := 10
  const CR: byte := 13
  const NUL: byte := 0
  const MAX_FRAME_BYTES: nat := 1_048_576

  /** JSON parsing and scalar checks of one frame are left abstract. */
  type Parser = bytes -> Option<Event>

  datatype Frame = Frame(line: bytes, event: Event)
  datatype Fed = Rejected | Accepted(frames: seq<Frame>)

  /** The byte-level checks `decode` makes before it parses. */
  predicate FrameBytes(line: bytes) {
    && 3 <= |line| <= MAX_FRAME_BYTES
    && line[|line| - 1] == LF
    && line[|line| - 2] != CR
    && LF !in line[..|line| - 1]
    && NUL !in line
  }

  function Decode(parse: Parser, line: bytes): Option<Event> {
    if FrameBytes(line) && parse(line).Some? && Shaped(parse(line).value.body) then parse(line) else None
  }

  // ---------- Batch reading of a whole stream ----------

  /** Index of the first LF, or the length when there is none. */
  function FirstLF(s: bytes): (i: nat)
    ensures i <= |s|
    ensures LF !in s[..i]
    ensures i < |s| ==> s[i] == LF
  {
    if s == [] || s[0] == LF then 0
    else
      var i := 1 + FirstLF(s[1..]);
      assert s[..i] == [s[0]] + s[1..][..i - 1];
      i
  }

  /** The complete lines of a stream, each with its LF. */
  function Lines(s: bytes): seq<bytes> {
    var i := FirstLF(s);
    if i == |s| then [] else [s[..i + 1]] + Lines(s[i + 1..])
  }

  /** What follows the last LF. */
  function Tail(s: bytes): (t: bytes)
    ensures LF !in t
  {
    var i := FirstLF(s);
    if i == |s| then s else Tail(s[i + 1..])
  }

  /** A line is good in place `k` of the stream when it decodes with sequence number `k + 1`. */
  predicate GoodLine(parse: Parser, line: bytes, k: nat) {
    Decode(parse, line).Some? && Decode(parse, line).value.number == k + 1
  }

  /** The whole-stream acceptance condition: no chunks, no buffer. */
  ghost predicate Accepts(parse: Parser, s: bytes) {
    && (forall k :: 0 <= k < |Lines(s)| ==> GoodLine(parse, Lines(s)[k], k))
    && |Tail(s)| + 1 <= MAX_FRAME_BYTES
  }

  ghost function AllFrames(parse: Parser, s: bytes): (frames: seq<Frame>)
    requires Accepts(parse, s)
    ensures |frames| == |Lines(s)|
  {
    seq(|Lines(s)|, k requires 0 <= k < |Lines(s)| =>
      assert GoodLine(parse, Lines(s)[k], k); Frame(Lines(s)[k], Decode(parse, Lines(s)[k]).value))
  }

  lemma Regroup<T>(a: seq<T>, b: seq<T>, c: seq<T>)
    ensures (a + b) + c == a + (b + c)
  {
  }

  lemma LinesCut(line: bytes, rest: bytes)
    requires |line| > 0 && line[|line| - 1] == LF && LF !in line[..|line| - 1]
    ensures Lines(line + rest) == [line] + Lines(rest)
    ensures Tail(line + rest) == Tail(rest)
  {
    var s, i := line + rest, |line| - 1;
    assert s[..i] == line[..i];
    FirstLFUnique(s, i);
    assert s[..i + 1] == line && s[i + 1..] == rest;
  }

  lemma AppendCut(line: bytes, rest: bytes, b: bytes)
    requires |line| > 0 && line[|line| - 1] == LF && LF !in line[..|line| - 1]
    requires Lines(rest + b) == Lines(rest) + Lines(Tail(rest) + b)
    requires Tail(rest + b) == Tail(Tail(rest) + b)
    ensures Lines((line + rest) + b) == Lines(line + rest) + Lines(Tail(line + rest) + b)
    ensures Tail((line + rest) + b) == Tail(Tail(line + rest) + b)
  {
    LinesCut(line, rest);
    LinesCut(line, rest + b);
    Regroup(line, rest, b);
    Regroup([line], Lines(rest), Lines(Tail(rest) + b));
  }

  lemma {:induction false} LinesAppend(a: bytes, b: bytes)
    ensures Lines(a + b) == Lines(a) + Lines(Tail(a) + b)
    ensures Tail(a + b) == Tail(Tail(a) + b)
    decreases |a|
  {
    var i := FirstLF(a);
    if i < |a| {
      var line, later := a[..i + 1], a[i + 1..];
      assert a == line + later && line[..i] == a[..i];
      LinesAppend(later, b);
      AppendCut(line, later, b);
    } else {
      assert Tail(a) == a && [] + Lines(a + b) == Lines(a + b);
    }
  }

  lemma {:induction false} FirstLFUnique(s: bytes, i: nat)
    requires i < |s| && s[i] == LF && LF !in s[..i]
    ensures FirstLF(s) == i
  {
    if i > 0 {
      assert s[0] == s[..i][0];
      assert s[1..][..i - 1] == s[..i][1..];
      FirstLFUnique(s[1..], i - 1);
    }
  }

  lemma {:induction false} FirstLFNone(s: bytes)
    requires LF !in s
    ensures FirstLF(s) == |s|
  {
  }

  lemma {:induction false} AppendPart(s: bytes, part: bytes)
    requires LF !in part
    ensures Lines(s + part) == Lines(s)
    ensures Tail(s + part) == Tail(s) + part
  {
    LinesAppend(s, part);
    FirstLFNone(Tail(s) + part);
  }

  lemma {:induction false} AppendLF(s: bytes)
    ensures Lines(s + [LF]) == Lines(s) + [Tail(s) + [LF]]
    ensures Tail(s + [LF]) == []
  {
    LinesAppend(s, [LF]);
    var line := Tail(s) + [LF];
    FirstLFUnique(line, |Tail(s)|);
    assert line[..|Tail(s)| + 1] == line;
    assert line[|Tail(s)| + 1..] == [];
  }

  lemma ConcatCons(head: bytes, rest: seq<bytes>)
    ensures Concat([head] + rest) == head + Concat(rest)
  {
    assert ([head] + rest)[1..] == rest;
  }

  lemma LoseNoneCut(line: bytes, rest: bytes)
    requires |line| > 0 && line[|line| - 1] == LF && LF !in line[..|line| - 1]
    requires Concat(Lines(rest)) + Tail(rest) == rest
    ensures Concat(Lines(line + rest)) + Tail(line + rest) == line + rest
  {
    LinesCut(line, rest);
    ConcatCons(line, Lines(rest));
    Regroup(line, Concat(Lines(rest)), Tail(rest));
  }

  /** Lines and tail lose no byte. */
  lemma {:induction false} NothingLost(s: bytes)
    ensures Concat(Lines(s)) + Tail(s) == s
    decreases |s|
  {
    var i := FirstLF(s);
    if i < |s| {
      var line, later := s[..i + 1], s[i + 1..];
      assert line[..i] == s[..i] && line + later == s;
      NothingLost(later);
      LoseNoneCut(line, later);
    } else {
      assert Lines(s) == [] && Tail(s) == s;
    }
  }

  /** A stream that is accepted had only accepted prefixes. */
  lemma {:induction false} AcceptsPrefix(parse: Parser, a: bytes, b: bytes)
    requires Accepts(parse, a + b)
    ensures Accepts(parse, a)
    ensures AllFrames(parse, a) <= AllFrames(parse, a + b)
  {
    LinesAppend(a, b);
    forall k | 0 <= k < |Lines(a)| ensures GoodLine(parse, Lines(a)[k], k) {
      assert Lines(a)[k] == Lines(a + b)[k];
      assert GoodLine(parse, Lines(a + b)[k], k);
    }
    var rest := Tail(a) + b;
    var i := FirstLF(rest);
    if i < |rest| {
      // The tail of `a` begins a later line, and lines are bounded.
      var k := |Lines(a)|;
      assert Lines(a + b)[k] == rest[..i + 1];
      assert GoodLine(parse, Lines(a + b)[k], k);
      TailBefore(Tail(a), b);
    }
  }

  lemma {:induction false} TailBefore(t: bytes, b: bytes)
    requires LF !in t
    ensures FirstLF(t + b) >= |t|
  {
    if t != [] {
      assert (t + b)[0] == t[0] && (t + b)[1..] == t[1..] + b;
      TailBefore(t[1..], b);
    }
  }

  // ---------- Splitting a chunk ----------

  /** Python's `data.split(b"\n")`. */
  function SplitLF(data: bytes): (parts: seq<bytes>)
    ensures |parts| > 0
    ensures forall p :: p in parts ==> LF !in p
  {
    var i := FirstLF(data);
    if i == |data| then [data] else [data[..i]] + SplitLF(data[i + 1..])
  }

  /** The bytes a split came from: LF between the parts. */
  function Rejoin(parts: seq<bytes>): bytes
    requires |parts| > 0
  {
    if |parts| == 1 then parts[0] else parts[0] + [LF] + Rejoin(parts[1..])
  }

  /** A part with the LF that followed it, if any. */
  function Ended(part: bytes, last: bool): bytes { if last then part else part + [LF] }

  lemma RejoinCons(head: bytes, rest: seq<bytes>)
    requires |rest| > 0
    ensures Rejoin([head] + rest) == head + [LF] + Rejoin(rest)
  {
    assert ([head] + rest)[1..] == rest;
  }

  lemma {:induction false} SplitRejoins(data: bytes)
    ensures Rejoin(SplitLF(data)) == data
    decreases |data|
  {
    var i := FirstLF(data);
    if i < |data| {
      var head, later := data[..i], data[i + 1..];
      SplitRejoins(later);
      SplitCut(data, i);
      RejoinCons(head, SplitLF(later));
      assert data == head + [LF] + later;
    } else {
      SplitUncut(data);
    }
  }

  lemma SplitCut(data: bytes, i: nat)
    requires i == FirstLF(data) < |data|
    ensures SplitLF(data) == [data[..i]] + SplitLF(data[i + 1..])
  {
  }

  lemma SplitUncut(data: bytes)
    requires FirstLF(data) == |data|
    ensures SplitLF(data) == [data] && Rejoin(SplitLF(data)) == data
  {
  }

  lemma RestOf(parts: seq<bytes>, index: nat)
    requires index < |parts|
    ensures |parts[index..]| == |parts| - index && parts[index..][0] == parts[index]
    ensures parts[index..][1..] == parts[index + 1..]
  {
  }

  // ---------- The incremental framer ----------

  class EventFrames {
    const parse: Parser
    var buffer: bytes
    var next: nat
    var failed: bool
    /** Every byte of the chunks accepted so far. */
    ghost var fed: bytes

    ghost predicate Valid()
      reads this
    {
      !failed ==>
        && Accepts(parse, fed)
        && buffer == Tail(fed)
        && next == |Lines(fed)| + 1
    }

    constructor (parse: Parser)
      ensures Valid() && !failed && fed == [] && this.parse == parse
    {
      this.parse := parse;
      buffer, next, failed, fed := [], 1, false, [];
    }

    /** The retained fields after reading exactly `seen`. */
    ghost predicate Reading(seen: bytes, frames: seq<Frame>)
      reads this
    {
      && !failed && Accepts(parse, seen)
      && buffer == Tail(seen)
      && next == |Lines(seen)| + 1
      && frames == AllFrames(parse, seen)
    }

    /** Extends the partial line, within the bound a whole line has to meet. */
    method TakePart(part: bytes, ghost seen: bytes, ghost frames: seq<Frame>) returns (ok: bool)
      requires Reading(seen, frames) && LF !in part
      modifies this`buffer, this`failed
      ensures ok <==> |Tail(seen)| + |part| + 1 <= MAX_FRAME_BYTES
      ensures if ok then Reading(seen + part, frames) else failed
    {
      ok := |buffer| + |part| + 1 <= MAX_FRAME_BYTES;
      if ok {
        KeepFrames(parse, seen, part);
        buffer := buffer + part;
      } else {
        failed := true;
      }
    }

    /** Ends the line at an LF and decodes it in its place of the one sequence. */
    method TakeLine(ghost seen: bytes, ghost frames: seq<Frame>) returns (frame: Option<Frame>)
      requires Reading(seen, frames)
      modifies this`buffer, this`next, this`failed
      ensures frame.Some? <==> GoodLine(parse, Tail(seen) + [LF], |Lines(seen)|)
      ensures if frame.Some? then Reading(seen + [LF], frames + [frame.value]) else failed
    {
      var line := buffer + [LF];
      buffer := [];
      var event := Decode(parse, line);
      if event.None? || event.value.number != next {
        failed := true;
        return None;
      }
      next := next + 1;
      OneMoreFrame(parse, seen);
      frame := Some(Frame(line, event.value));
    }

    /**
     * Reads one part, and the LF after it unless it is the last; a part or line in the way rules out
     * the whole stream.
     */
    method TakePiece(part: bytes, last: bool, ghost seen: bytes, ghost frames: seq<Frame>, ghost whole: bytes)
      returns (ok: bool, more: seq<Frame>)
      requires Reading(seen, frames) && LF !in part
      requires if last then seen + part == whole else seen + part + [LF] <= whole
      modifies this`buffer, this`next, this`failed
      ensures if ok then Reading(seen + Ended(part, last), frames + more) else failed && !Accepts(parse, whole)
    {
      more := [];
      assert frames + more == frames;
      ok := TakePart(part, seen, frames);
      if !ok {
        TooLong(parse, seen, part, last, whole);
      } else if !last {
        assert seen + Ended(part, last) == (seen + part) + [LF];
        var frame := TakeLine(seen + part, frames);
        if frame.None? {
          BadLine(parse, seen + part, whole);
          ok := false;
        } else {
          more := [frame.value];
        }
      }
    }

    /** Accepts a chunk exactly when the whole stream so far is acceptable as a batch. */
    method Feed(data: bytes) returns (r: Fed)
      requires Valid()
      modifies this
      ensures Valid()
      ensures r.Accepted? <==> !old(failed) && |data| <= MAX_FRAME_BYTES && Accepts(parse, old(fed) + data)
      ensures r.Accepted? ==> !failed && fed == old(fed) + data
      ensures r.Accepted? ==> old(Accepts(parse, fed)) && AllFrames(parse, fed) == old(AllFrames(parse, fed)) + r.frames
      ensures r.Rejected? ==> failed && fed == old(fed)
    {
      if failed || |data| > MAX_FRAME_BYTES {
        failed := true;
        return Rejected;
      }
      var parts := SplitLF(data);
      var frames := [];
      ghost var seen, base, whole := fed, AllFrames(parse, fed), fed + data;
      SplitRejoins(data);
      assert parts[0..] == parts && base + frames == base;
      var index := 0;
      while index < |parts|
        invariant 0 <= index <= |parts|
        invariant fed == old(fed)
        invariant Reading(seen, base + frames)
        invariant if index == |parts| then seen == whole else seen + Rejoin(parts[index..]) == whole
      {
        NextPart(seen, parts[index..], whole);
        RestOf(parts, index);
        var part, last := parts[index], index == |parts| - 1;
        var ok, more := TakePiece(part, last, seen, base + frames, whole);
        if !ok {
          return Rejected;
        }
        Regroup(base, frames, more);
        frames := frames + more;
        seen := seen + Ended(part, last);
        index := index + 1;
      }
      fed := whole;
      r := Accepted(frames);
    }

    /** The telemetry stream may end only between two frames. */
    method Eof() returns (clean: bool)
      requires Valid()
      ensures clean <==> !failed && Tail(fed) == []
    {
      clean := !failed && buffer == [];
    }
  }

  lemma {:induction false} RejectedPrefix(parse: Parser, p: bytes, s: bytes)
    requires p <= s && !Accepts(parse, p)
    ensures !Accepts(parse, s)
  {
    if Accepts(parse, s) {
      assert s == p + s[|p|..];
      AcceptsPrefix(parse, p, s[|p|..]);
    }
  }

  lemma {:induction false} TooLong(parse: Parser, s: bytes, part: bytes, last: bool, whole: bytes)
    requires LF !in part && |Tail(s)| + |part| + 1 > MAX_FRAME_BYTES
    requires if last then s + part == whole else s + part + [LF] <= whole
    ensures !Accepts(parse, whole)
  {
    AppendPart(s, part);
    if !last {
      assert whole[..|s + part|] == (s + part + [LF])[..|s + part|] == s + part;
    }
    RejectedPrefix(parse, s + part, whole);
  }

  lemma {:induction false} BadLine(parse: Parser, s: bytes, whole: bytes)
    requires s + [LF] <= whole && !GoodLine(parse, Tail(s) + [LF], |Lines(s)|)
    ensures !Accepts(parse, whole)
  {
    AppendLF(s);
    assert Lines(s + [LF])[|Lines(s)|] == Tail(s) + [LF];
    RejectedPrefix(parse, s + [LF], whole);
  }

  lemma {:induction false} KeepFrames(parse: Parser, s: bytes, part: bytes)
    requires Accepts(parse, s) && LF !in part && |Tail(s)| + |part| + 1 <= MAX_FRAME_BYTES
    ensures Lines(s + part) == Lines(s) && Tail(s + part) == Tail(s) + part
    ensures Accepts(parse, s + part) && AllFrames(parse, s + part) == AllFrames(parse, s)
  {
    AppendPart(s, part);
    forall k | 0 <= k < |Lines(s + part)| ensures GoodLine(parse, Lines(s + part)[k], k) {
      assert GoodLine(parse, Lines(s)[k], k);
    }
  }

  lemma {:induction false} OneMoreFrame(parse: Parser, s: bytes)
    requires Accepts(parse, s) && GoodLine(parse, Tail(s) + [LF], |Lines(s)|)
    ensures Accepts(parse, s + [LF])
    ensures Tail(s + [LF]) == [] && |Lines(s + [LF])| == |Lines(s)| + 1
    ensures AllFrames(parse, s + [LF])
         == AllFrames(parse, s) + [Frame(Tail(s) + [LF], Decode(parse, Tail(s) + [LF]).value)]
  {
    AppendLF(s);
    var more := s + [LF];
    forall k | 0 <= k < |Lines(more)| ensures GoodLine(parse, Lines(more)[k], k) {
      if k < |Lines(s)| {
        assert Lines(more)[k] == Lines(s)[k];
        assert GoodLine(parse, Lines(s)[k], k);
      }
    }
  }

  /** What reading the next part of a chunk leaves to read. */
  lemma {:induction false} NextPart(seen: bytes, rest: seq<bytes>, whole: bytes)
    requires |rest| > 0 && seen + Rejoin(rest) == whole
    ensures |rest| == 1 ==> seen + rest[0] == whole
    ensures |rest| == 1 ==> seen + Ended(rest[0], true) == whole
    ensures |rest| > 1 ==> seen + Ended(rest[0], false) + Rejoin(rest[1..]) == whole
    ensures |rest| > 1 ==> seen + rest[0] + [LF] <= whole
  {
    if |rest| > 1 {
      var later := Rejoin(rest[1..]);
      assert Rejoin(rest) == rest[0] + [LF] + later;
      assert seen + (rest[0] + [LF] + later) == (seen + rest[0] + [LF]) + later;
      assert seen + (rest[0] + [LF]) == seen + rest[0] + [LF];
    }
  }

  // ---------- Any chunking of a stream ----------

  ghost predicate Admissible(chunks: seq<bytes>) {
    forall c :: c in chunks ==> |c| <= MAX_FRAME_BYTES
  }

  /** A chunking that the framer takes whole. */
  ghost predicate Taken(parse: Parser, chunks: seq<bytes>) {
    Admissible(chunks) && Accepts(parse, Concat(chunks))
  }

  lemma NothingIsTaken(parse: Parser)
    ensures Taken(parse, [])
  {
    FirstLFNone([]);
  }

  lemma TakenFront(parse: Parser, chunks: seq<bytes>, n: nat)
    requires n <= |chunks| && Taken(parse, chunks)
    ensures Taken(parse, chunks[..n])
  {
    assert chunks == chunks[..n] + chunks[n..];
    ConcatSplit(chunks[..n], chunks[n..]);
    AcceptsPrefix(parse, Concat(chunks[..n]), Concat(chunks[n..]));
  }

  /** How many leading chunks are taken whole. */
  ghost function Leading(parse: Parser, chunks: seq<bytes>): (n: nat)
    ensures n <= |chunks|
    decreases |chunks|
  {
    if chunks == [] || Taken(parse, chunks) then |chunks| else Leading(parse, chunks[..|chunks| - 1])
  }

  lemma LeadingAll(parse: Parser, chunks: seq<bytes>)
    requires Taken(parse, chunks)
    ensures Leading(parse, chunks) == |chunks|
  {
  }

  lemma LeadingFront(parse: Parser, chunks: seq<bytes>)
    requires chunks != [] && !Taken(parse, chunks)
    ensures Leading(parse, chunks) == Leading(parse, chunks[..|chunks| - 1])
  {
  }

  /** No longer run of leading chunks is taken whole. */
  lemma {:induction false} LeadingIsLongest(parse: Parser, chunks: seq<bytes>, m: nat)
    ensures Taken(parse, chunks[..Leading(parse, chunks)])
    ensures Leading(parse, chunks) < m <= |chunks| ==> !Taken(parse, chunks[..m])
    decreases |chunks|
  {
    if chunks == [] {
      NothingIsTaken(parse);
    } else if Taken(parse, chunks) {
      LeadingAll(parse, chunks);
      assert chunks[..|chunks|] == chunks;
    } else {
      var front, n := chunks[..|chunks| - 1], Leading(parse, chunks[..|chunks| - 1]);
      LeadingFront(parse, chunks);
      LeadingIsLongest(parse, front, m);
      assert front[..n] == chunks[..n];
      if m < |chunks| {
        assert front[..m] == chunks[..m];
      } else if m == |chunks| {
        assert chunks[..m] == chunks;
      }
    }
  }

  lemma NotTakenLonger(parse: Parser, chunks: seq<bytes>, n: nat)
    requires n <= |chunks| && !Taken(parse, chunks[..n])
    ensures !Taken(parse, chunks)
  {
    if Taken(parse, chunks) {
      TakenFront(parse, chunks, n);
    }
  }

  /** The first refusal ends the leading chunks. */
  lemma {:induction false} LeadingIs(parse: Parser, chunks: seq<bytes>, n: nat)
    requires n <= |chunks| && Taken(parse, chunks[..n])
    requires n < |chunks| ==> !Taken(parse, chunks[..n + 1])
    ensures Leading(parse, chunks) == n
    decreases |chunks|
  {
    if n == |chunks| {
      assert chunks[..n] == chunks;
      LeadingAll(parse, chunks);
    } else {
      var front := chunks[..|chunks| - 1];
      NotTakenLonger(parse, chunks, n + 1);
      LeadingFront(parse, chunks);
      assert front[..n] == chunks[..n];
      if n < |front| {
        assert front[..n + 1] == chunks[..n + 1];
      }
      LeadingIs(parse, front, n);
    }
  }

  /** The bytes of the leading chunks: the frames handed out are theirs. */
  ghost function Delivered(parse: Parser, chunks: seq<bytes>): (s: bytes)
    ensures Accepts(parse, s)
  {
    LeadingIsLongest(parse, chunks, 0);
    Concat(chunks[..Leading(parse, chunks)])
  }

  /**
   * Runs the framer over any chunking: the verdict depends only on the bytes, and the frames handed
   * out are those of the leading chunks taken whole, also when a later one is refused.
   */
  method ReadStream(parse: Parser, chunks: seq<bytes>) returns (accepted: bool, frames: seq<Frame>, left: bytes)
    ensures accepted <==> Taken(parse, chunks)
    ensures frames == AllFrames(parse, Delivered(parse, chunks))
    ensures accepted ==> Delivered(parse, chunks) == Concat(chunks)
    ensures accepted ==> Concat(Lines(Concat(chunks))) + left == Concat(chunks)
  {
    var framer := new EventFrames(parse);
    frames, left := [], [];
    var i := 0;
    assert chunks[..0] == [];
    NothingIsTaken(parse);
    while i < |chunks|
      invariant 0 <= i <= |chunks|
      invariant framer.Valid() && framer.parse == parse && !framer.failed && fresh(framer)
      invariant Taken(parse, chunks[..i]) && framer.fed == Concat(chunks[..i])
      invariant frames == AllFrames(parse, framer.fed)
    {
      NextChunk(parse, chunks, i);
      var step := framer.Feed(chunks[i]);
      if step.Rejected? {
        RefusedThere(parse, chunks, i);
        return false, frames, [];
      }
      frames := frames + step.frames;
      i := i + 1;
    }
    assert chunks[..|chunks|] == chunks;
    LeadingAll(parse, chunks);
    left := framer.buffer;
    NothingLost(framer.fed);
    accepted := true;
  }

  lemma NextChunk(parse: Parser, chunks: seq<bytes>, i: nat)
    requires i < |chunks| && Taken(parse, chunks[..i])
    ensures Concat(chunks[..i + 1]) == Concat(chunks[..i]) + chunks[i]
    ensures Taken(parse, chunks[..i + 1])
      <==> |chunks[i]| <= MAX_FRAME_BYTES && Accepts(parse, Concat(chunks[..i]) + chunks[i])
  {
    assert chunks[..i + 1] == chunks[..i] + [chunks[i]];
    ConcatSnoc(chunks[..i], chunks[i]);
    AdmissibleSnoc(chunks[..i], chunks[i]);
  }

  lemma AdmissibleSnoc(chunks: seq<bytes>, c: bytes)
    ensures Admissible(chunks + [c]) <==> Admissible(chunks) && |c| <= MAX_FRAME_BYTES
  {
    assert c in chunks + [c];
    if Admissible(chunks + [c]) {
      forall d | d in chunks ensures |d| <= MAX_FRAME_BYTES {
        assert d in chunks + [c];
      }
    }
  }

  lemma RefusedThere(parse: Parser, chunks: seq<bytes>, i: nat)
    requires i < |chunks| && Taken(parse, chunks[..i]) && !Taken(parse, chunks[..i + 1])
    ensures !Taken(parse, chunks) && Leading(parse, chunks) == i
  {
    NotTakenLonger(parse, chunks, i + 1);
    LeadingIs(parse, chunks, i);
  }

  lemma ShorterDelivers(parse: Parser, s: bytes, t: bytes)
    requires Accepts(parse, s) && Accepts(parse, t) && s <= t
    ensures AllFrames(parse, s) == AllFrames(parse, t) <==> |Lines(s)| == |Lines(t)|
  {
    assert t == s + t[|s|..];
    AcceptsPrefix(parse, s, t[|s|..]);
    var some, all := AllFrames(parse, s), AllFrames(parse, t);
    if |some| == |all| {
      assert some == all;
    }
  }

  lemma LeadingBytes(parse: Parser, chunks: seq<bytes>)
    ensures Delivered(parse, chunks) <= Concat(chunks)
  {
    var n := Leading(parse, chunks);
    assert chunks == chunks[..n] + chunks[n..];
    ConcatSplit(chunks[..n], chunks[n..]);
  }

  /**
   * Two chunkings of one stream hand out the same frames exactly when their leading chunks hold the
   * same number of complete lines.
   */
  lemma SameFramesExactly(parse: Parser, a: seq<bytes>, b: seq<bytes>)
    requires Concat(a) == Concat(b)
    ensures AllFrames(parse, Delivered(parse, a)) == AllFrames(parse, Delivered(parse, b))
      <==> |Lines(Delivered(parse, a))| == |Lines(Delivered(parse, b))|
  {
    LeadingBytes(parse, a);
    LeadingBytes(parse, b);
    var s, t := Delivered(parse, a), Delivered(parse, b);
    if |s| <= |t| {
      assert s <= t;
      ShorterDelivers(parse, s, t);
    } else {
      assert t <= s;
      ShorterDelivers(parse, t, s);
    }
  }

  lemma OneLine(parse: Parser, line: bytes)
    requires GoodLine(parse, line, 0)
    ensures Accepts(parse, line) && |AllFrames(parse, line)| == 1
  {
    var body := line[..|line| - 1];
    assert line == body + [LF];
    FirstLFNone(body);
    OneMoreFrame(parse, body);
  }

  /**
   * What is handed out before a rejection does depend on the chunking: a good first line
   * is delivered when it arrives alone and discarded when a bad line shares its chunk.
   */
  method RejectionDiscardsItsChunk(parse: Parser, good: bytes, bad: bytes)
    returns (alone: Fed, second: Fed, together: Fed)
    requires GoodLine(parse, good, 0) && |good| + |bad| <= MAX_FRAME_BYTES
    requires !Accepts(parse, good + bad)
    ensures alone.Accepted? && |alone.frames| == 1 && second.Rejected?
    ensures together.Rejected?
  {
    OneLine(parse, good);
    var whole := new EventFrames(parse);
    assert [] + (good + bad) == good + bad;
    together := whole.Feed(good + bad);
    var split := new EventFrames(parse);
    assert [] + good == good;
    alone := split.Feed(good);
    second := split.Feed(bad);
  }
}
