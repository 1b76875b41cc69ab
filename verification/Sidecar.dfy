/**
 * The timestamp sidecar of a narration take: what the recorder generates
 * (`narration_timestamp_sidecar_payload`) and what the publisher independently accepts
 * (`_validate_timestamp_sidecar`).
 */
module Sidecar {
  import opened Common
  import opened Narration

  /** A planned member of the take: its part of the take's text. */
  datatype Member = Member(beat: string, textStart: nat, textEnd: nat, text: string)

  /** An anchor or a wait: `name` is the anchor's id or the wait's target. */
  datatype Marker = Marker(beat: string, name: string, offset: nat, gap: int)

  datatype Take = Take(text: string, members: seq<Member>, anchors: seq<Marker>, waits: seq<Marker>)

  datatype TimedMember = TimedMember(beat: string, textStart: nat, textEnd: nat, startMs: int, endMs: int)
  datatype TimedMarker = TimedMarker(marker: Marker, ms: int)

  datatype Sidecar = Sidecar(
    duration: int, members: seq<TimedMember>, words: seq<Word>, anchors: seq<TimedMarker>, waits: seq<TimedMarker>)

  // ---------- Words ----------

  /** The shape of a word's trace: a raw range is whole, nonempty and not negative. */
  predicate TraceShaped(t: Timing) { t.raw.Some? ==> 0 <= t.raw.value.start < t.raw.value.end }

  predicate WordFits(text: string, w: Word, duration: int) {
    && TraceShaped(w.timing)
    && 0 <= w.textStart < w.textEnd <= |text| && 0 <= w.startMs < w.endMs <= duration
    && text[w.textStart..w.textEnd] == w.text
  }

  /** A word fits the text and comes after the word before it, in text and in time. */
  predicate FitsAfter(text: string, words: seq<Word>, duration: int, i: nat)
    requires i < |words|
  {
    && WordFits(text, words[i], duration)
    && (i > 0 ==> words[i - 1].textEnd <= words[i].textStart && words[i - 1].endMs <= words[i].startMs)
  }

  predicate WordsFit(text: string, words: seq<Word>, duration: int) {
    forall i :: 0 <= i < |words| ==> FitsAfter(text, words, duration, i)
  }

  lemma {:induction false} FitsFarAfter(text: string, words: seq<Word>, duration: int, i: nat, j: nat)
    requires WordsFit(text, words, duration) && i < j < |words|
    ensures words[i].textEnd <= words[j].textStart && words[i].endMs <= words[j].startMs
    decreases j
  {
    assert FitsAfter(text, words, duration, j);
    if i < j - 1 {
      assert FitsAfter(text, words, duration, j - 1);
      FitsFarAfter(text, words, duration, i, j - 1);
    }
  }

  lemma FittingWordsAreOrdered(text: string, words: seq<Word>, duration: int)
    requires WordsFit(text, words, duration)
    ensures Ordered(words, |text|, duration)
  {
    forall i | 0 <= i < |words| ensures
      0 <= words[i].textStart < words[i].textEnd <= |text| && 0 <= words[i].startMs < words[i].endMs <= duration
    {
      assert FitsAfter(text, words, duration, i);
    }
    forall i, j | 0 <= i < j < |words|
      ensures words[i].textEnd <= words[j].textStart && words[i].endMs <= words[j].startMs
    {
      FitsFarAfter(text, words, duration, i, j);
    }
  }

  /** The recorder's pass over the recognized words. */
  method CheckWords(text: string, words: seq<Word>, duration: int) returns (ok: bool)
    ensures ok <==> WordsFit(text, words, duration)
  {
    var textEnd, timeEnd := 0, 0;
    for i := 0 to |words|
      invariant forall k :: 0 <= k < i ==> FitsAfter(text, words, duration, k)
      invariant textEnd == if i == 0 then 0 else words[i - 1].textEnd
      invariant timeEnd == if i == 0 then 0 else words[i - 1].endMs
    {
      var w := words[i];
      if !TraceShaped(w.timing) || w.textStart < textEnd || w.textEnd <= w.textStart || w.endMs <= w.startMs
         || w.startMs < timeEnd || w.endMs > duration || w.textEnd > |text|
      {
        assert !FitsAfter(text, words, duration, i);
        return false;
      }
      assert i > 0 ==> FitsAfter(text, words, duration, i - 1);
      if text[w.textStart..w.textEnd] != w.text {
        assert !FitsAfter(text, words, duration, i);
        return false;
      }
      textEnd, timeEnd := w.textEnd, w.endMs;
    }
    ok := true;
  }

  // ---------- Generating ----------

  function MemberStart(take: Take, words: seq<Word>, duration: int, i: nat): Option<int>
    requires i < |take.members| && Ordered(words, |take.text|, duration)
  {
    if i == 0 then Some(0) else TimeAt(take.members[i].textStart, words, duration)
  }

  function MemberEnd(take: Take, words: seq<Word>, duration: int, i: nat): Option<int>
    requires i < |take.members| && Ordered(words, |take.text|, duration)
  {
    if i + 1 == |take.members| then Some(duration) else TimeAt(take.members[i].textEnd, words, duration)
  }

  predicate GeneratedMember(take: Take, words: seq<Word>, duration: int, i: nat, t: TimedMember)
    requires i < |take.members| && Ordered(words, |take.text|, duration)
  {
    var m := take.members[i];
    && t.beat == m.beat && t.textStart == m.textStart && t.textEnd == m.textEnd
    && MemberStart(take, words, duration, i) == Some(t.startMs) && MemberEnd(take, words, duration, i) == Some(t.endMs)
  }

  predicate GeneratedAnchor(words: seq<Word>, length: nat, duration: int, m: Marker, t: TimedMarker)
    requires Ordered(words, length, duration)
  {
    t.marker == m && TimeAt(m.offset, words, duration) == Some(t.ms)
  }

  predicate GeneratedWait(words: seq<Word>, text: string, space: Spacing, duration: int, m: Marker, t: TimedMarker)
    requires Ordered(words, |text|, duration)
  {
    t.marker == m && WaitAt(m.offset, words, text, space, duration) == Some(t.ms)
  }

  predicate Generated(take: Take, words: seq<Word>, space: Spacing, duration: int, s: Sidecar)
    requires Ordered(words, |take.text|, duration)
  {
    && s.duration == duration && s.words == words
    && |s.members| == |take.members| && |s.anchors| == |take.anchors| && |s.waits| == |take.waits|
    && (forall i :: 0 <= i < |s.members| ==> GeneratedMember(take, words, duration, i, s.members[i]))
    && (forall i :: 0 <= i < |s.anchors| ==>
        GeneratedAnchor(words, |take.text|, duration, take.anchors[i], s.anchors[i]))
    && (forall i :: 0 <= i < |s.waits| ==> GeneratedWait(words, take.text, space, duration, take.waits[i], s.waits[i]))
  }

  predicate TrailsOff(text: string, space: Spacing, m: Marker) { AllSpace(Slice(text, m.offset, |text|), space) }

  /** Without words only a single unmarked member can be timed, and waits in trailing space. */
  predicate Resolvable(take: Take, words: seq<Word>, space: Spacing) {
    words != [] ||
      (|take.members| <= 1 && take.anchors == [] &&
       forall i :: 0 <= i < |take.waits| ==> TrailsOff(take.text, space, take.waits[i]))
  }

  method TimeMembers(take: Take, words: seq<Word>, duration: int) returns (ok: bool, members: seq<TimedMember>)
    requires Ordered(words, |take.text|, duration)
    ensures ok <==> words != [] || |take.members| <= 1
    ensures ok ==> |members| == |take.members|
    ensures ok ==> forall i :: 0 <= i < |members| ==> GeneratedMember(take, words, duration, i, members[i])
  {
    members := [];
    for i := 0 to |take.members|
      invariant |members| == i
      invariant forall k :: 0 <= k < i ==> GeneratedMember(take, words, duration, k, members[k])
      invariant i > 0 ==> words != [] || |take.members| <= 1
    {
      var m := take.members[i];
      var start, end := MemberStart(take, words, duration, i), MemberEnd(take, words, duration, i);
      if start.None? || end.None? {
        return false, members;
      }
      members := members + [TimedMember(m.beat, m.textStart, m.textEnd, start.value, end.value)];
    }
    ok := true;
  }

  method TimeAnchors(anchors: seq<Marker>, words: seq<Word>, length: nat, duration: int)
    returns (ok: bool, timed: seq<TimedMarker>)
    requires Ordered(words, length, duration)
    ensures ok <==> words != [] || anchors == []
    ensures ok ==> |timed| == |anchors| && forall i :: 0 <= i < |timed| ==>
      GeneratedAnchor(words, length, duration, anchors[i], timed[i])
  {
    timed := [];
    for i := 0 to |anchors|
      invariant |timed| == i && (i > 0 ==> words != [])
      invariant forall k :: 0 <= k < i ==> GeneratedAnchor(words, length, duration, anchors[k], timed[k])
    {
      var ms := TimeAt(anchors[i].offset, words, duration);
      if ms.None? {
        return false, timed;
      }
      timed := timed + [TimedMarker(anchors[i], ms.value)];
    }
    ok := true;
  }

  lemma WaitResolves(m: Marker, words: seq<Word>, text: string, space: Spacing, duration: int)
    requires Ordered(words, |text|, duration)
    ensures WaitAt(m.offset, words, text, space, duration).Some? <==> words != [] || TrailsOff(text, space, m)
  {
  }

  method TimeWaits(waits: seq<Marker>, words: seq<Word>, text: string, space: Spacing, duration: int)
    returns (ok: bool, timed: seq<TimedMarker>)
    requires Ordered(words, |text|, duration)
    ensures ok <==> words != [] || forall i :: 0 <= i < |waits| ==> TrailsOff(text, space, waits[i])
    ensures ok ==> |timed| == |waits| && forall i :: 0 <= i < |timed| ==>
      GeneratedWait(words, text, space, duration, waits[i], timed[i])
  {
    timed := [];
    for i := 0 to |waits|
      invariant |timed| == i
      invariant forall k :: 0 <= k < i ==> GeneratedWait(words, text, space, duration, waits[k], timed[k])
    {
      var ms := ResolveWait(waits[i].offset, words, text, space, duration);
      WaitResolves(waits[i], words, text, space, duration);
      if ms.None? {
        return false, timed;
      }
      timed := timed + [TimedMarker(waits[i], ms.value)];
    }
    ok := true;
    forall k | 0 <= k < |waits| && words == [] ensures TrailsOff(text, space, waits[k]) {
      assert GeneratedWait(words, text, space, duration, waits[k], timed[k]);
      WaitResolves(waits[k], words, text, space, duration);
    }
  }

  /** The generated sidecar, exactly when the words fit and everything can be timed. */
  method Generate(take: Take, words: seq<Word>, space: Spacing, duration: int) returns (r: Option<Sidecar>)
    ensures r.Some? <==> duration >= 0 && WordsFit(take.text, words, duration) && Resolvable(take, words, space)
    ensures r.Some? ==> Ordered(words, |take.text|, duration) && Generated(take, words, space, duration, r.value)
  {
    if duration < 0 {
      return None;
    }
    var ok := CheckWords(take.text, words, duration);
    if !ok {
      return None;
    }
    FittingWordsAreOrdered(take.text, words, duration);
    var fine, members := TimeMembers(take, words, duration);
    var anchored, anchors := TimeAnchors(take.anchors, words, |take.text|, duration);
    var waited, waits := TimeWaits(take.waits, words, take.text, space, duration);
    if !fine || !anchored || !waited {
      return None;
    }
    r := Some(Sidecar(duration, members, words, anchors, waits));
  }

  // ---------- Accepting ----------

  datatype Bounds = Bounds(textStart: int, textEnd: int, text: string)
  datatype Entry = Entry(beat: string, bounds: Bounds)

  /** A dictionary in insertion order: a repeated key keeps its place and takes the new value. */
  function Put(ranges: seq<Entry>, beat: string, b: Bounds): seq<Entry> {
    if ranges == [] then [Entry(beat, b)]
    else if ranges[0].beat == beat then [Entry(beat, b)] + ranges[1..]
    else [ranges[0]] + Put(ranges[1..], beat, b)
  }

  function Ranges(members: seq<Member>): seq<Entry>
    decreases |members|
  {
    if members == [] then []
    else
      var m := members[|members| - 1];
      Put(Ranges(members[..|members| - 1]), m.beat, Bounds(m.textStart, m.textEnd, m.text))
  }

  predicate Holds(b: Bounds, w: Word) { b.textStart <= w.textStart < w.textEnd <= b.textEnd }

  /** The first member range that holds the word. */
  function Owner(ranges: seq<Entry>, w: Word): (r: Option<Bounds>)
    ensures r.Some? ==> Holds(r.value, w) && exists i :: 0 <= i < |ranges| && ranges[i].bounds == r.value
    ensures r.None? ==> forall i :: 0 <= i < |ranges| ==> !Holds(ranges[i].bounds, w)
  {
    if ranges == [] then None else if Holds(ranges[0].bounds, w) then Some(ranges[0].bounds)
    else
      var rest := Owner(ranges[1..], w);
      assert rest.Some? ==>
        exists i :: 0 <= i < |ranges[1..]| && ranges[1..][i].bounds == rest.value && ranges[i + 1].bounds == rest.value;
      rest
  }

  function RangeOf(ranges: seq<Entry>, beat: string): Option<Bounds> {
    if ranges == [] then None else if ranges[0].beat == beat then Some(ranges[0].bounds) else RangeOf(ranges[1..], beat)
  }

  predicate TraceAccepted(t: Timing) {
    || t == Timing(NoSource, NoConfidence, None)
    || (t.source.Transcription? && t.confidence.High? && t.raw.Some? && 0 <= t.raw.value.start < t.raw.value.end)
    || t == Timing(InterpolatedSource, Low, None)
  }

  predicate AcceptsMember(members: seq<Member>, s: Sidecar, i: nat)
    requires i < |members| == |s.members|
  {
    var m, t := members[i], s.members[i];
    && t.beat == m.beat && t.textStart == m.textStart && t.textEnd == m.textEnd
    && (if i == 0 then 0 else s.members[i - 1].endMs) <= t.startMs <= t.endMs <= s.duration
  }

  /** The word is the owner's own text there. */
  predicate OwnWord(owner: Bounds, w: Word)
    requires Holds(owner, w)
  {
    Slice(owner.text, w.textStart - owner.textStart, w.textEnd - owner.textStart) == w.text
  }

  predicate AcceptsWord(ranges: seq<Entry>, s: Sidecar, i: nat)
    requires i < |s.words|
  {
    var w, owner := s.words[i], Owner(ranges, s.words[i]);
    && owner.Some? && TraceAccepted(w.timing)
    && (if i == 0 then 0 else s.words[i - 1].textEnd) <= w.textStart
    && (if i == 0 then 0 else s.words[i - 1].endMs) <= w.startMs < w.endMs <= s.duration
    && OwnWord(owner.value, w)
  }

  predicate AcceptsMarker(ranges: seq<Entry>, markers: seq<TimedMarker>, duration: int, wait: bool, i: nat)
    requires i < |markers|
  {
    var m, bounds := markers[i].marker, RangeOf(ranges, markers[i].marker.beat);
    && bounds.Some? && bounds.value.textStart <= m.offset <= bounds.value.textEnd
    && (if i == 0 then 0 else markers[i - 1].ms) <= markers[i].ms <= duration
    && m.name != "" && (wait ==> m.gap >= 0)
  }

  predicate Accepts(members: seq<Member>, duration: int, s: Sidecar) {
    && s.duration == duration && |s.members| == |members|
    && (forall i :: 0 <= i < |members| ==> AcceptsMember(members, s, i))
    && (members != [] ==> s.members[0].startMs == 0 && s.members[|members| - 1].endMs == duration)
    && (forall i :: 0 <= i < |s.words| ==> AcceptsWord(Ranges(members), s, i))
    && (forall i :: 0 <= i < |s.anchors| ==> AcceptsMarker(Ranges(members), s.anchors, duration, false, i))
    && (forall i :: 0 <= i < |s.waits| ==> AcceptsMarker(Ranges(members), s.waits, duration, true, i))
  }

  method ValidateMembers(members: seq<Member>, s: Sidecar) returns (ok: bool, ranges: seq<Entry>)
    requires |members| == |s.members|
    ensures ok <==> forall i :: 0 <= i < |members| ==> AcceptsMember(members, s, i)
    ensures ok ==> ranges == Ranges(members)
  {
    ranges := [];
    var previousEnd := 0;
    assert members[..0] == [];
    for i := 0 to |members|
      invariant forall k :: 0 <= k < i ==> AcceptsMember(members, s, k)
      invariant previousEnd == if i == 0 then 0 else s.members[i - 1].endMs
      invariant ranges == Ranges(members[..i])
    {
      var m, t := members[i], s.members[i];
      if t.beat != m.beat || t.textStart != m.textStart || t.textEnd != m.textEnd
         || t.startMs < previousEnd || t.endMs < t.startMs || t.endMs > s.duration
      {
        assert !AcceptsMember(members, s, i);
        return false, ranges;
      }
      assert members[..i + 1][..i] == members[..i];
      ranges := Put(ranges, t.beat, Bounds(t.textStart, t.textEnd, m.text));
      previousEnd := t.endMs;
    }
    assert members[..|members|] == members;
    ok := true;
  }

  method ValidateWords(ranges: seq<Entry>, s: Sidecar) returns (ok: bool)
    ensures ok <==> forall i :: 0 <= i < |s.words| ==> AcceptsWord(ranges, s, i)
  {
    var textEnd, timeEnd := 0, 0;
    for i := 0 to |s.words|
      invariant forall k :: 0 <= k < i ==> AcceptsWord(ranges, s, k)
      invariant textEnd == if i == 0 then 0 else s.words[i - 1].textEnd
      invariant timeEnd == if i == 0 then 0 else s.words[i - 1].endMs
    {
      ok := ValidateWord(ranges, s, i, textEnd, timeEnd);
      if !ok {
        return;
      }
      textEnd, timeEnd := s.words[i].textEnd, s.words[i].endMs;
    }
    ok := true;
  }

  method ValidateWord(ranges: seq<Entry>, s: Sidecar, i: nat, textEnd: int, timeEnd: int) returns (ok: bool)
    requires i < |s.words|
    requires textEnd == if i == 0 then 0 else s.words[i - 1].textEnd
    requires timeEnd == if i == 0 then 0 else s.words[i - 1].endMs
    ensures ok <==> AcceptsWord(ranges, s, i)
  {
    var w := s.words[i];
    var owner := Owner(ranges, w);
    if owner.None? || !TraceAccepted(w.timing) {
      return false;
    }
    if w.textStart < textEnd || w.startMs < timeEnd || w.endMs <= w.startMs || w.endMs > s.duration {
      return false;
    }
    ok := OwnWord(owner.value, w);
  }

  method ValidateMarkers(ranges: seq<Entry>, markers: seq<TimedMarker>, duration: int, wait: bool) returns (ok: bool)
    ensures ok <==> forall i :: 0 <= i < |markers| ==> AcceptsMarker(ranges, markers, duration, wait, i)
  {
    var previous := 0;
    for i := 0 to |markers|
      invariant forall k :: 0 <= k < i ==> AcceptsMarker(ranges, markers, duration, wait, k)
      invariant previous == if i == 0 then 0 else markers[i - 1].ms
    {
      var t := markers[i];
      var bounds := RangeOf(ranges, t.marker.beat);
      if bounds.None? || !(bounds.value.textStart <= t.marker.offset <= bounds.value.textEnd) || t.ms < previous
         || t.ms > duration || t.marker.name == "" || (wait && t.marker.gap < 0)
      {
        assert !AcceptsMarker(ranges, markers, duration, wait, i);
        return false;
      }
      previous := t.ms;
    }
    ok := true;
  }

  /** The publisher's validation, independent of how the sidecar was made. */
  method Validate(members: seq<Member>, duration: int, s: Sidecar) returns (ok: bool)
    ensures ok <==> Accepts(members, duration, s)
  {
    if s.duration != duration || |s.members| != |members| {
      return false;
    }
    var fine, ranges := ValidateMembers(members, s);
    if !fine {
      return false;
    }
    if s.members != [] && (s.members[0].startMs != 0 || s.members[|s.members| - 1].endMs != duration) {
      return false;
    }
    ok := ValidateWords(ranges, s);
    if !ok {
      return;
    }
    ok := ValidateMarkers(ranges, s.anchors, duration, false);
    if !ok {
      return;
    }
    ok := ValidateMarkers(ranges, s.waits, duration, true);
  }

  // ---------- What the recorder generates, the publisher accepts ----------

  /** Members lie in order over the take's text, under distinct names, each with its own part of the text. */
  predicate MemberFits(take: Take, i: nat)
    requires i < |take.members|
  {
    var m := take.members[i];
    && m.textStart <= m.textEnd <= |take.text| && m.text == take.text[m.textStart..m.textEnd]
    && (i > 0 ==> take.members[i - 1].textEnd <= m.textStart)
  }

  predicate LaidOut(take: Take) {
    && (forall i :: 0 <= i < |take.members| ==> MemberFits(take, i))
    && (forall i, j :: 0 <= i < j < |take.members| ==> take.members[i].beat != take.members[j].beat)
  }

  predicate InMember(members: seq<Member>, w: Word) {
    exists i :: 0 <= i < |members| && members[i].textStart <= w.textStart && w.textEnd <= members[i].textEnd
  }

  predicate PlacedIn(m: Member, k: Marker) { m.beat == k.beat && m.textStart <= k.offset <= m.textEnd }

  predicate Placed(members: seq<Member>, k: Marker) {
    exists i :: 0 <= i < |members| && PlacedIn(members[i], k)
  }

  predicate MarkersPlaced(members: seq<Member>, markers: seq<Marker>, wait: bool) {
    forall i :: 0 <= i < |markers| ==>
      Placed(members, markers[i]) && markers[i].name != "" && (wait ==> markers[i].gap >= 0)
  }

  predicate MarkersFit(members: seq<Member>, markers: seq<Marker>, wait: bool) {
    && MarkersPlaced(members, markers, wait)
    && (forall i, j :: 0 <= i < j < |markers| ==> markers[i].offset <= markers[j].offset)
  }

  predicate WordsPlaced(members: seq<Member>, words: seq<Word>) {
    forall i :: 0 <= i < |words| ==> InMember(members, words[i]) && TraceAccepted(words[i].timing)
  }

  /** Two resolved times do not fall. */
  predicate Rises(a: Option<int>, b: Option<int>) { a.Some? && b.Some? ==> a.value <= b.value }

  predicate AnchorsRise(anchors: seq<Marker>, words: seq<Word>, duration: int) {
    forall i :: 0 < i < |anchors| ==>
      Rises(TimeAt(anchors[i - 1].offset, words, duration), TimeAt(anchors[i].offset, words, duration))
  }

  predicate WaitsRise(waits: seq<Marker>, words: seq<Word>, text: string, space: Spacing, duration: int) {
    forall i :: 0 < i < |waits| ==>
      Rises(WaitAt(waits[i - 1].offset, words, text, space, duration),
            WaitAt(waits[i].offset, words, text, space, duration))
  }

  /** Words and markers are placed and named, and the resolved times of neighbouring markers do not fall. */
  predicate Publishable(take: Take, words: seq<Word>, space: Spacing, duration: int) {
    && WordsPlaced(take.members, words)
    && MarkersPlaced(take.members, take.anchors, false) && MarkersPlaced(take.members, take.waits, true)
    && AnchorsRise(take.anchors, words, duration) && WaitsRise(take.waits, words, take.text, space, duration)
  }

  /** The sidecars the recorder is meant to produce: one trace per word, words and markers inside members. */
  predicate WellFormed(take: Take, words: seq<Word>, space: Spacing) {
    && LaidOut(take)
    && WordsPlaced(take.members, words)
    && MarkersFit(take.members, take.anchors, false) && MarkersFit(take.members, take.waits, true)
    && NoStrayText(words, take.text, space)
  }

  lemma {:induction false} PutNew(ranges: seq<Entry>, beat: string, b: Bounds)
    requires forall i :: 0 <= i < |ranges| ==> ranges[i].beat != beat
    ensures Put(ranges, beat, b) == ranges + [Entry(beat, b)]
    decreases |ranges|
  {
    if ranges != [] {
      PutNew(ranges[1..], beat, b);
      assert [ranges[0]] + (ranges[1..] + [Entry(beat, b)]) == ranges + [Entry(beat, b)];
    }
  }

  function BoundsOf(m: Member): Bounds { Bounds(m.textStart, m.textEnd, m.text) }

  lemma {:induction false} RangesInOrder(members: seq<Member>)
    requires forall i, j :: 0 <= i < j < |members| ==> members[i].beat != members[j].beat
    ensures |Ranges(members)| == |members|
    ensures forall i :: 0 <= i < |members| ==> Ranges(members)[i] == Entry(members[i].beat, BoundsOf(members[i]))
    decreases |members|
  {
    if members != [] {
      var front, m := members[..|members| - 1], members[|members| - 1];
      RangesInOrder(front);
      PutNew(Ranges(front), m.beat, BoundsOf(m));
    }
  }

  lemma {:induction false} RangeFound(ranges: seq<Entry>, k: nat)
    requires k < |ranges|
    requires forall i, j :: 0 <= i < j < |ranges| ==> ranges[i].beat != ranges[j].beat
    ensures RangeOf(ranges, ranges[k].beat) == Some(ranges[k].bounds)
    decreases |ranges|
  {
    if k > 0 {
      RangeFound(ranges[1..], k - 1);
    }
  }

  lemma MembersAccepted(take: Take, words: seq<Word>, space: Spacing, duration: int, s: Sidecar, i: nat)
    requires duration >= 0 && Ordered(words, |take.text|, duration) && Generated(take, words, space, duration, s)
    requires LaidOut(take) && i < |take.members|
    ensures AcceptsMember(take.members, s, i)
  {
    assert GeneratedMember(take, words, duration, i, s.members[i]) && MemberFits(take, i);
    if words == [] {
      assert i == 0 && |take.members| == 1;
    } else {
      TimeKeepsOrder(take.members[i].textStart, take.members[i].textEnd, words, |take.text|, duration);
      if i > 0 {
        assert GeneratedMember(take, words, duration, i - 1, s.members[i - 1]);
        TimeKeepsOrder(take.members[i - 1].textEnd, take.members[i].textStart, words, |take.text|, duration);
      }
    }
  }

  lemma OwnerIsMember(members: seq<Member>, w: Word) returns (o: nat)
    requires forall i, j :: 0 <= i < j < |members| ==> members[i].beat != members[j].beat
    requires InMember(members, w) && w.textStart < w.textEnd
    ensures o < |members| && Owner(Ranges(members), w) == Some(BoundsOf(members[o])) && Holds(BoundsOf(members[o]), w)
  {
    var ranges := Ranges(members);
    RangesInOrder(members);
    var k :| 0 <= k < |members| && members[k].textStart <= w.textStart && w.textEnd <= members[k].textEnd;
    assert Holds(ranges[k].bounds, w);
    o :| 0 <= o < |ranges| && ranges[o].bounds == Owner(ranges, w).value;
  }

  lemma WordAccepted(take: Take, words: seq<Word>, space: Spacing, duration: int, s: Sidecar, i: nat)
    requires duration >= 0 && WordsFit(take.text, words, duration) && i < |words|
    requires s.words == words && s.duration == duration && LaidOut(take) && WordsPlaced(take.members, words)
    ensures AcceptsWord(Ranges(take.members), s, i)
  {
    assert FitsAfter(take.text, words, duration, i) && InMember(take.members, words[i]);
    var o := OwnerIsMember(take.members, words[i]);
    assert MemberFits(take, o);
    OwnText(take.text, take.members[o], words[i]);
  }

  lemma SliceOfSlice(text: string, start: nat, end: nat, from: nat, to: nat)
    requires start <= end <= |text| && from <= to <= end - start
    ensures text[start..end][from..to] == text[start + from..start + to]
  {
    var whole, part := text[start..end][from..to], text[start + from..start + to];
    assert |whole| == |part|;
    forall i | 0 <= i < |whole| ensures whole[i] == part[i] {
      assert whole[i] == text[start..end][from + i] == text[start + (from + i)];
    }
  }

  lemma SliceInside(text: string, from: nat, to: nat)
    requires from < to <= |text|
    ensures Slice(text, from, to) == text[from..to]
  {
  }

  lemma OwnText(text: string, m: Member, w: Word)
    requires m.textStart <= m.textEnd <= |text| && m.text == text[m.textStart..m.textEnd]
    requires m.textStart <= w.textStart < w.textEnd <= m.textEnd && text[w.textStart..w.textEnd] == w.text
    ensures OwnWord(BoundsOf(m), w)
  {
    var from, to := w.textStart - m.textStart, w.textEnd - m.textStart;
    SliceOfSlice(text, m.textStart, m.textEnd, from, to);
    SliceInside(m.text, from, to);
  }

  lemma PlacedAccepted(members: seq<Member>, k: Marker)
    requires forall i, j :: 0 <= i < j < |members| ==> members[i].beat != members[j].beat
    requires Placed(members, k)
    ensures var r := RangeOf(Ranges(members), k.beat); r.Some? && r.value.textStart <= k.offset <= r.value.textEnd
  {
    RangesInOrder(members);
    var i :| 0 <= i < |members| && PlacedIn(members[i], k);
    RangeFound(Ranges(members), i);
  }

  lemma MarkerAccepted(members: seq<Member>, markers: seq<Marker>, timed: seq<TimedMarker>, duration: int, wait: bool,
                       i: nat)
    requires forall i, j :: 0 <= i < j < |members| ==> members[i].beat != members[j].beat
    requires MarkersPlaced(members, markers, wait) && i < |timed| == |markers| && timed[i].marker == markers[i]
    requires 0 <= timed[i].ms <= duration && (i > 0 ==> timed[i - 1].ms <= timed[i].ms)
    ensures AcceptsMarker(Ranges(members), timed, duration, wait, i)
  {
    PlacedAccepted(members, markers[i]);
  }

  lemma AnchorAccepted(take: Take, words: seq<Word>, space: Spacing, duration: int, s: Sidecar, i: nat)
    requires duration >= 0 && Ordered(words, |take.text|, duration) && Generated(take, words, space, duration, s)
    requires LaidOut(take) && Publishable(take, words, space, duration) && i < |s.anchors|
    ensures AcceptsMarker(Ranges(take.members), s.anchors, duration, false, i)
  {
    assert GeneratedAnchor(words, |take.text|, duration, take.anchors[i], s.anchors[i]);
    TimeKeepsOrder(take.anchors[i].offset, take.anchors[i].offset, words, |take.text|, duration);
    if i > 0 {
      assert GeneratedAnchor(words, |take.text|, duration, take.anchors[i - 1], s.anchors[i - 1]);
    }
    MarkerAccepted(take.members, take.anchors, s.anchors, duration, false, i);
  }

  /** Every wait that resolves lies within the take, stray text or not. */
  lemma WaitWithin(offset: nat, words: seq<Word>, text: string, space: Spacing, duration: int)
    requires duration >= 0 && Ordered(words, |text|, duration) && WaitAt(offset, words, text, space, duration).Some?
    ensures 0 <= WaitAt(offset, words, text, space, duration).value <= duration
  {
    var k := Before(words, offset);
    SilenceBounds(words, |text|, duration, k);
    if words != [] {
      TimeKeepsOrder(offset, offset, words, |text|, duration);
    }
  }

  lemma WaitsInOrder(a: Marker, b: Marker, words: seq<Word>, text: string, space: Spacing, duration: int, s: int,
                     t: int)
    requires duration >= 0 && Ordered(words, |text|, duration) && NoStrayText(words, text, space)
    requires a.offset <= b.offset <= |text|
    requires WaitAt(a.offset, words, text, space, duration) == Some(s)
      && WaitAt(b.offset, words, text, space, duration) == Some(t)
    ensures 0 <= s <= t <= duration
  {
    if words != [] {
      WaitOrder(a.offset, b.offset, words, text, space, duration);
      WaitBounds(a.offset, words, text, space, duration, Before(words, a.offset));
      WaitBounds(b.offset, words, text, space, duration, Before(words, b.offset));
    }
  }

  lemma PlacedWithin(take: Take, k: Marker)
    requires LaidOut(take) && Placed(take.members, k)
    ensures k.offset <= |take.text|
  {
    var i :| 0 <= i < |take.members| && PlacedIn(take.members[i], k);
    assert MemberFits(take, i);
  }

  lemma WaitAccepted(take: Take, words: seq<Word>, space: Spacing, duration: int, s: Sidecar, i: nat)
    requires duration >= 0 && Ordered(words, |take.text|, duration) && Generated(take, words, space, duration, s)
    requires LaidOut(take) && Publishable(take, words, space, duration) && i < |s.waits|
    ensures AcceptsMarker(Ranges(take.members), s.waits, duration, true, i)
  {
    assert GeneratedWait(words, take.text, space, duration, take.waits[i], s.waits[i]);
    WaitWithin(take.waits[i].offset, words, take.text, space, duration);
    if i > 0 {
      assert GeneratedWait(words, take.text, space, duration, take.waits[i - 1], s.waits[i - 1]);
    }
    MarkerAccepted(take.members, take.waits, s.waits, duration, true, i);
  }

  lemma PublishableIsAccepted(take: Take, words: seq<Word>, space: Spacing, duration: int, s: Sidecar)
    requires duration >= 0 && WordsFit(take.text, words, duration) && LaidOut(take)
    requires Ordered(words, |take.text|, duration) && Generated(take, words, space, duration, s)
    requires Publishable(take, words, space, duration)
    ensures Accepts(take.members, duration, s)
  {
    forall i | 0 <= i < |take.members| ensures AcceptsMember(take.members, s, i) {
      MembersAccepted(take, words, space, duration, s, i);
    }
    if take.members != [] {
      assert GeneratedMember(take, words, duration, 0, s.members[0]);
      assert GeneratedMember(take, words, duration, |take.members| - 1, s.members[|take.members| - 1]);
    }
    forall i | 0 <= i < |s.words| ensures AcceptsWord(Ranges(take.members), s, i) {
      WordAccepted(take, words, space, duration, s, i);
    }
    forall i | 0 <= i < |s.anchors| ensures AcceptsMarker(Ranges(take.members), s.anchors, duration, false, i) {
      AnchorAccepted(take, words, space, duration, s, i);
    }
    forall i | 0 <= i < |s.waits| ensures AcceptsMarker(Ranges(take.members), s.waits, duration, true, i) {
      WaitAccepted(take, words, space, duration, s, i);
    }
  }

  lemma AcceptedRises(take: Take, words: seq<Word>, space: Spacing, duration: int, s: Sidecar)
    requires Ordered(words, |take.text|, duration) && Generated(take, words, space, duration, s)
    requires Accepts(take.members, duration, s)
    ensures AnchorsRise(take.anchors, words, duration) && WaitsRise(take.waits, words, take.text, space, duration)
  {
    var ranges := Ranges(take.members);
    forall i | 0 < i < |take.anchors|
      ensures Rises(TimeAt(take.anchors[i - 1].offset, words, duration),
                    TimeAt(take.anchors[i].offset, words, duration))
    {
      assert GeneratedAnchor(words, |take.text|, duration, take.anchors[i], s.anchors[i]);
      assert GeneratedAnchor(words, |take.text|, duration, take.anchors[i - 1], s.anchors[i - 1]);
      assert AcceptsMarker(ranges, s.anchors, duration, false, i);
    }
    forall i | 0 < i < |take.waits|
      ensures Rises(WaitAt(take.waits[i - 1].offset, words, take.text, space, duration),
                    WaitAt(take.waits[i].offset, words, take.text, space, duration))
    {
      assert GeneratedWait(words, take.text, space, duration, take.waits[i], s.waits[i]);
      assert GeneratedWait(words, take.text, space, duration, take.waits[i - 1], s.waits[i - 1]);
      assert AcceptsMarker(ranges, s.waits, duration, true, i);
    }
  }

  /**
   * On members laid out in order, a generated sidecar is accepted by the publisher exactly when words
   * and markers are placed and named, and the resolved times of neighbouring markers do not fall.
   */
  lemma AcceptedExactly(take: Take, words: seq<Word>, space: Spacing, duration: int, s: Sidecar)
    requires duration >= 0 && WordsFit(take.text, words, duration) && LaidOut(take)
    requires Ordered(words, |take.text|, duration) && Generated(take, words, space, duration, s)
    ensures Accepts(take.members, duration, s) <==> Publishable(take, words, space, duration)
  {
    if Publishable(take, words, space, duration) {
      PublishableIsAccepted(take, words, space, duration, s);
    }
    if Accepts(take.members, duration, s) {
      AcceptedRises(take, words, space, duration, s);
      AcceptedIsWellFormed(take, duration, s);
      GeneratedMarkers(take, words, space, duration, s);
    }
  }

  /** The markers of a generated sidecar are those of the take. */
  lemma GeneratedMarkers(take: Take, words: seq<Word>, space: Spacing, duration: int, s: Sidecar)
    requires Ordered(words, |take.text|, duration) && Generated(take, words, space, duration, s)
    ensures forall i :: 0 <= i < |take.anchors| ==> s.anchors[i].marker == take.anchors[i]
    ensures forall i :: 0 <= i < |take.waits| ==> s.waits[i].marker == take.waits[i]
  {
    forall i | 0 <= i < |take.anchors| ensures s.anchors[i].marker == take.anchors[i] {
      assert GeneratedAnchor(words, |take.text|, duration, take.anchors[i], s.anchors[i]);
    }
    forall i | 0 <= i < |take.waits| ensures s.waits[i].marker == take.waits[i] {
      assert GeneratedWait(words, take.text, space, duration, take.waits[i], s.waits[i]);
    }
  }

  lemma WellFormedIsPublishable(take: Take, words: seq<Word>, space: Spacing, duration: int)
    requires duration >= 0 && Ordered(words, |take.text|, duration) && WellFormed(take, words, space)
    ensures Publishable(take, words, space, duration)
  {
    forall i | 0 < i < |take.anchors|
      ensures Rises(TimeAt(take.anchors[i - 1].offset, words, duration),
                    TimeAt(take.anchors[i].offset, words, duration))
    {
      if words != [] {
        TimeKeepsOrder(take.anchors[i - 1].offset, take.anchors[i].offset, words, |take.text|, duration);
      }
    }
    forall i | 0 < i < |take.waits|
      ensures Rises(WaitAt(take.waits[i - 1].offset, words, take.text, space, duration),
                    WaitAt(take.waits[i].offset, words, take.text, space, duration))
    {
      var a, b := take.waits[i - 1], take.waits[i];
      PlacedWithin(take, b);
      var s, t := WaitAt(a.offset, words, take.text, space, duration),
        WaitAt(b.offset, words, take.text, space, duration);
      if s.Some? && t.Some? {
        WaitsInOrder(a, b, words, take.text, space, duration, s.value, t.value);
      }
    }
  }

  /** Every generated sidecar of a well-formed take is accepted by the publisher. */
  lemma GeneratedIsAccepted(take: Take, words: seq<Word>, space: Spacing, duration: int, s: Sidecar)
    requires duration >= 0 && WordsFit(take.text, words, duration) && WellFormed(take, words, space)
    requires Ordered(words, |take.text|, duration) && Generated(take, words, space, duration, s)
    ensures Accepts(take.members, duration, s)
  {
    WellFormedIsPublishable(take, words, space, duration);
    PublishableIsAccepted(take, words, space, duration, s);
  }

  /** The whole path: what the recorder makes, the publisher accepts exactly if it is publishable. */
  method RecordThenPublish(take: Take, words: seq<Word>, space: Spacing, duration: int)
    returns (made: bool, accepted: bool)
    requires LaidOut(take)
    ensures made <==> duration >= 0 && WordsFit(take.text, words, duration) && Resolvable(take, words, space)
    ensures accepted <==> made && Publishable(take, words, space, duration)
  {
    var r := Generate(take, words, space, duration);
    made, accepted := r.Some?, false;
    if made {
      AcceptedExactly(take, words, space, duration, r.value);
      accepted := Validate(take.members, duration, r.value);
    }
  }

  /**
   * On members laid out in order, whatever is accepted meets the conditions on words and on the place
   * and naming of markers. The order of markers and the absence of stray text are not claimed.
   */
  lemma AcceptedIsWellFormed(take: Take, duration: int, s: Sidecar)
    requires Accepts(take.members, duration, s) && LaidOut(take)
    ensures forall i :: 0 <= i < |s.words| ==> InMember(take.members, s.words[i]) && TraceAccepted(s.words[i].timing)
    ensures forall i :: 0 <= i < |s.anchors| ==>
      Placed(take.members, s.anchors[i].marker) && s.anchors[i].marker.name != ""
    ensures forall i :: 0 <= i < |s.waits| ==>
      Placed(take.members, s.waits[i].marker) && s.waits[i].marker.name != "" && s.waits[i].marker.gap >= 0
  {
    var ranges := Ranges(take.members);
    RangesInOrder(take.members);
    forall i | 0 <= i < |s.words| ensures InMember(take.members, s.words[i]) && TraceAccepted(s.words[i].timing) {
      assert AcceptsWord(ranges, s, i);
      var o :| 0 <= o < |ranges| && ranges[o].bounds == Owner(ranges, s.words[i]).value;
      assert take.members[o].textStart <= s.words[i].textStart && s.words[i].textEnd <= take.members[o].textEnd;
    }
    forall i | 0 <= i < |s.anchors|
      ensures Placed(take.members, s.anchors[i].marker) && s.anchors[i].marker.name != ""
    {
      assert AcceptsMarker(ranges, s.anchors, duration, false, i);
      RangeKnown(take.members, s.anchors[i].marker);
    }
    forall i | 0 <= i < |s.waits|
      ensures Placed(take.members, s.waits[i].marker) && s.waits[i].marker.name != "" && s.waits[i].marker.gap >= 0
    {
      assert AcceptsMarker(ranges, s.waits, duration, true, i);
      RangeKnown(take.members, s.waits[i].marker);
    }
  }

  lemma {:induction false} RangeIsEntry(ranges: seq<Entry>, beat: string) returns (k: nat)
    requires RangeOf(ranges, beat).Some?
    ensures k < |ranges| && ranges[k] == Entry(beat, RangeOf(ranges, beat).value)
    decreases |ranges|
  {
    if ranges[0].beat == beat {
      k := 0;
    } else {
      k := RangeIsEntry(ranges[1..], beat);
      k := k + 1;
    }
  }

  lemma RangeKnown(members: seq<Member>, m: Marker)
    requires forall i, j :: 0 <= i < j < |members| ==> members[i].beat != members[j].beat
    requires var r := RangeOf(Ranges(members), m.beat); r.Some? && r.value.textStart <= m.offset <= r.value.textEnd
    ensures Placed(members, m)
  {
    RangesInOrder(members);
    var k := RangeIsEntry(Ranges(members), m.beat);
    assert PlacedIn(members[k], m);
  }
}
