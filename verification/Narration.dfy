/**
 * Where narration markers fall in recorded speech (`_timestamp_source_ms`,
 * `_wait_timestamp_source_ms`), over exact arithmetic with Python's half-even rounding.
 */
module Narration {
  import opened Common

  datatype Source = NoSource | Transcription | InterpolatedSource
  datatype Confidence = NoConfidence | High | Low
  datatype Raw = Raw(start: int, end: int)
  datatype Timing = Timing(source: Source, confidence: Confidence, raw: Option<Raw>)

  datatype Word = Word(text: string, textStart: int, textEnd: int, startMs: int, endMs: int, timing: Timing)

  /** Which characters are white space is left to the language. */
  type Spacing = char -> bool

  /** Words in the order of the text and of time, within the take. */
  predicate Ordered(words: seq<Word>, length: nat, duration: int) {
    && (forall i :: 0 <= i < |words| ==>
          0 <= words[i].textStart < words[i].textEnd <= length && 0 <= words[i].startMs < words[i].endMs <= duration)
    && (forall i, j :: 0 <= i < j < |words| ==>
          words[i].textEnd <= words[j].textStart && words[i].endMs <= words[j].startMs)
  }

  // ---------- Rounding ----------

  function RoundHalfEven(x: real): int {
    var f := x.Floor;
    var part := x - f as real;
    if part < 0.5 then f else if part > 0.5 then f + 1 else if f % 2 == 0 then f else f + 1
  }

  lemma RoundKeepsOrder(x: real, y: real)
    requires x <= y
    ensures RoundHalfEven(x) <= RoundHalfEven(y)
  {
  }

  lemma RoundKeepsIntegers(n: int)
    ensures RoundHalfEven(n as real) == n
  {
  }

  // ---------- Text to time ----------

  function Clamp(x: real): real { if x < 0.0 then 0.0 else if x > 1.0 then 1.0 else x }

  function Times(a: real, k: real): real { a * k }

  function Over(a: real, w: real): real
    requires w > 0.0
  {
    a / w
  }

  lemma TimesKeepsOrder(a: real, b: real, k: real)
    requires a <= b && k >= 0.0
    ensures Times(a, k) <= Times(b, k)
  {
    assert (b - a) * k >= 0.0;
  }

  lemma OverKeepsOrder(a: real, b: real, w: real)
    requires a <= b && w > 0.0
    ensures Over(a, w) <= Over(b, w)
  {
    assert (b - a) / w >= 0.0;
    assert b / w == a / w + (b - a) / w;
  }

  lemma OverEnds(w: real)
    requires w > 0.0
    ensures Over(0.0, w) == 0.0 && Over(w, w) == 1.0
  {
  }

  function Width(w: Word): (r: real)
    requires w.textStart < w.textEnd
    ensures r > 0.0
  {
    (w.textEnd - w.textStart) as real
  }

  /** How far into a word the offset is. */
  function Share(w: Word, offset: int): real
    requires w.textStart < w.textEnd
  {
    Clamp(Over((offset - w.textStart) as real, Width(w)))
  }

  function Blend(start: int, end: int, share: real): int {
    RoundHalfEven(start as real + Times(share, (end - start) as real))
  }

  /** Linear within one word, rounded; a word without width is a point. */
  function TimeIn(w: Word, offset: int): int {
    if w.textEnd <= w.textStart then w.startMs else Blend(w.startMs, w.endMs, Share(w, offset))
  }

  lemma ShareKeepsOrder(w: Word, offset: int, later: int)
    requires w.textStart < w.textEnd && offset <= later
    ensures 0.0 <= Share(w, offset) <= Share(w, later) <= 1.0
  {
    OverKeepsOrder((offset - w.textStart) as real, (later - w.textStart) as real, Width(w));
  }

  lemma ShareEnds(w: Word, offset: int)
    requires w.textStart < w.textEnd
    ensures offset <= w.textStart ==> Share(w, offset) == 0.0
    ensures offset >= w.textEnd ==> Share(w, offset) == 1.0
  {
    var width := Width(w);
    OverEnds(width);
    if offset <= w.textStart {
      OverKeepsOrder((offset - w.textStart) as real, 0.0, width);
    }
    if offset >= w.textEnd {
      OverKeepsOrder(width, (offset - w.textStart) as real, width);
    }
  }

  lemma BlendKeepsOrder(start: int, end: int, a: real, b: real)
    requires start <= end && a <= b
    ensures Blend(start, end, a) <= Blend(start, end, b)
  {
    var k := (end - start) as real;
    TimesKeepsOrder(a, b, k);
    RoundKeepsOrder(start as real + Times(a, k), start as real + Times(b, k));
  }

  lemma TimesEnds(k: real)
    ensures Times(0.0, k) == 0.0 && Times(1.0, k) == k
  {
  }

  lemma BlendEnds(start: int, end: int)
    ensures Blend(start, end, 0.0) == start && Blend(start, end, 1.0) == end
  {
    TimesEnds((end - start) as real);
    RoundKeepsIntegers(start);
    RoundKeepsIntegers(end);
    assert start as real + (end - start) as real == end as real;
  }

  lemma TimeInKeepsOrder(w: Word, offset: int, later: int)
    requires w.textStart < w.textEnd && w.startMs <= w.endMs && offset <= later
    ensures TimeIn(w, offset) <= TimeIn(w, later)
  {
    ShareKeepsOrder(w, offset, later);
    BlendKeepsOrder(w.startMs, w.endMs, Share(w, offset), Share(w, later));
  }

  lemma TimeInBounds(w: Word, offset: int)
    requires w.textStart < w.textEnd && w.startMs <= w.endMs
    ensures w.startMs <= TimeIn(w, offset) <= w.endMs
    ensures offset <= w.textStart ==> TimeIn(w, offset) == w.startMs
    ensures offset >= w.textEnd ==> TimeIn(w, offset) == w.endMs
  {
    ShareKeepsOrder(w, offset, offset);
    BlendEnds(w.startMs, w.endMs);
    BlendKeepsOrder(w.startMs, w.endMs, 0.0, Share(w, offset));
    BlendKeepsOrder(w.startMs, w.endMs, Share(w, offset), 1.0);
    ShareEnds(w, offset);
  }

  /** The first word that ends at or after the offset, or the end of the take. */
  function TimeFrom(offset: int, words: seq<Word>, duration: int): int {
    if words == [] then duration
    else if offset <= words[0].textEnd then TimeIn(words[0], offset)
    else TimeFrom(offset, words[1..], duration)
  }

  function TimeAt(offset: int, words: seq<Word>, duration: int): Option<int> {
    if words == [] then None
    else if offset <= words[0].textStart then Some(words[0].startMs)
    else Some(TimeFrom(offset, words, duration))
  }

  lemma OrderedTail(words: seq<Word>, length: nat, duration: int)
    requires Ordered(words, length, duration) && words != []
    ensures Ordered(words[1..], length, duration)
  {
  }

  lemma {:induction false} TimeFromBounds(offset: int, words: seq<Word>, length: nat, duration: int)
    requires Ordered(words, length, duration) && duration >= 0
    ensures (if words == [] then duration else words[0].startMs) <= TimeFrom(offset, words, duration) <= duration
    decreases |words|
  {
    if words != [] {
      TimeInBounds(words[0], offset);
      OrderedTail(words, length, duration);
      TimeFromBounds(offset, words[1..], length, duration);
    }
  }

  lemma {:induction false} TimeFromKeepsOrder(offset: int, later: int, words: seq<Word>, length: nat, duration: int)
    requires Ordered(words, length, duration) && duration >= 0 && offset <= later
    ensures TimeFrom(offset, words, duration) <= TimeFrom(later, words, duration)
    decreases |words|
  {
    if words != [] {
      OrderedTail(words, length, duration);
      if later <= words[0].textEnd {
        TimeInKeepsOrder(words[0], offset, later);
      } else if offset <= words[0].textEnd {
        TimeInBounds(words[0], offset);
        TimeFromBounds(later, words[1..], length, duration);
      } else {
        TimeFromKeepsOrder(offset, later, words[1..], length, duration);
      }
    }
  }

  /** Later text is never earlier in the recording, and always within it. */
  lemma TimeKeepsOrder(offset: int, later: int, words: seq<Word>, length: nat, duration: int)
    requires Ordered(words, length, duration) && duration >= 0 && words != [] && offset <= later
    ensures 0 <= TimeAt(offset, words, duration).value <= TimeAt(later, words, duration).value <= duration
  {
    TimeInBounds(words[0], offset);
    TimeInBounds(words[0], later);
    TimeFromKeepsOrder(offset, later, words, length, duration);
    TimeFromBounds(offset, words, length, duration);
    TimeFromBounds(later, words, length, duration);
  }

  /** Scanning word by word comes to the word that covers the offset, or the gap before it. */
  lemma {:induction false} TimeFromAt(offset: int, words: seq<Word>, length: nat, duration: int, k: nat)
    requires Ordered(words, length, duration) && k < |words|
    requires k > 0 ==> words[k - 1].textEnd < offset
    requires offset <= words[k].textEnd
    ensures TimeFrom(offset, words, duration) == TimeIn(words[k], offset)
    decreases k
  {
    if k > 0 {
      OrderedTail(words, length, duration);
      assert words[0].textEnd < offset by {
        if k > 1 {
          assert words[0].textEnd <= words[k - 1].textStart;
        }
      }
      TimeFromAt(offset, words[1..], length, duration, k - 1);
    }
  }

  lemma {:induction false} TimeFromPast(offset: int, words: seq<Word>, duration: int)
    requires forall i :: 0 <= i < |words| ==> words[i].textStart < words[i].textEnd < offset
    ensures TimeFrom(offset, words, duration) == duration
    decreases |words|
  {
    if words != [] {
      TimeFromPast(offset, words[1..], duration);
    }
  }

  // ---------- Waits ----------

  predicate AllSpace(s: string, space: Spacing) { forall i :: 0 <= i < |s| ==> space(s[i]) }

  /** Python's `text[a:b]` for offsets that are not negative. */
  function Slice(text: string, a: nat, b: int): string {
    if a < b && a < |text| then text[a..if b < |text| then b else |text|] else ""
  }

  /** The middle of the silence before a word. */
  function Middle(previous: Option<Word>, w: Word): int {
    if previous.None? then 0 else previous.value.endMs + (w.startMs - previous.value.endMs) / 2
  }

  /** How many words begin before the offset. */
  function Before(words: seq<Word>, offset: int): (k: nat)
    ensures k <= |words|
  {
    if words == [] || words[|words| - 1].textStart < offset then |words| else Before(words[..|words| - 1], offset)
  }

  lemma {:induction false} BeforeSplits(words: seq<Word>, length: nat, duration: int, offset: int)
    requires Ordered(words, length, duration)
    ensures forall i :: 0 <= i < |words| ==> (words[i].textStart < offset <==> i < Before(words, offset))
    decreases |words|
  {
    if words != [] && words[|words| - 1].textStart >= offset {
      BeforeSplits(words[..|words| - 1], length, duration, offset);
      var front := words[..|words| - 1];
      forall i | 0 <= i < |words| ensures words[i].textStart < offset <==> i < Before(words, offset) {
        if i < |front| {
          assert front[i] == words[i];
        }
      }
    }
  }

  function PreviousWord(words: seq<Word>, k: nat): Option<Word>
    requires k <= |words|
  {
    if k == 0 then None else Some(words[k - 1])
  }

  /** A wait with only white space up to the next word, or to the end, falls into that silence. */
  function WaitAt(offset: nat, words: seq<Word>, text: string, space: Spacing, duration: int): Option<int> {
    var k := Before(words, offset);
    if k < |words| && AllSpace(Slice(text, offset, words[k].textStart), space)
    then Some(Middle(PreviousWord(words, k), words[k]))
    else if AllSpace(Slice(text, offset, |text|), space) then Some(duration)
    else TimeAt(offset, words, duration)
  }

  lemma LongerSlice(text: string, a: nat, b: int, c: int, space: Spacing)
    requires b <= c && AllSpace(Slice(text, a, c), space)
    ensures AllSpace(Slice(text, a, b), space)
  {
    var s, t := Slice(text, a, b), Slice(text, a, c);
    forall i | 0 <= i < |s| ensures space(s[i]) {
      assert s[i] == t[i];
    }
  }

  lemma ShorterSlice(text: string, a: nat, c: nat, b: int, space: Spacing)
    requires a <= c && AllSpace(Slice(text, a, b), space)
    ensures AllSpace(Slice(text, c, b), space)
  {
    var s, t := Slice(text, c, b), Slice(text, a, b);
    forall i | 0 <= i < |s| ensures space(s[i]) {
      assert s[i] == t[c - a + i];
    }
  }

  /** `_wait_timestamp_source_ms`: one pass with the previous word in hand. */
  method ResolveWait(offset: nat, words: seq<Word>, text: string, space: Spacing, duration: int)
    returns (r: Option<int>)
    requires Ordered(words, |text|, duration)
    ensures r == WaitAt(offset, words, text, space, duration)
  {
    var previous: Option<Word> := None;
    ghost var k := Before(words, offset);
    BeforeSplits(words, |text|, duration, offset);
    for i := 0 to |words|
      invariant previous == PreviousWord(words, if i < k then i else k)
      invariant i > k ==> !AllSpace(Slice(text, offset, words[k].textStart), space)
    {
      if words[i].textStart < offset {
        previous := Some(words[i]);
      } else {
        var separator := Slice(text, offset, words[i].textStart);
        if AllSpace(separator, space) {
          if i > k {
            LongerSlice(text, offset, words[k].textStart, words[i].textStart, space);
          }
          return Some(Middle(previous, words[i]));
        }
      }
    }
    if AllSpace(Slice(text, offset, |text|), space) {
      if k < |words| {
        LongerSlice(text, offset, words[k].textStart, |text|, space);
      }
      return Some(duration);
    }
    r := TimeAt(offset, words, duration);
  }

  // ---------- When waits keep their order ----------

  /** A character that is no space lies strictly between two word positions. */
  predicate Marked(text: string, space: Spacing, from: int, to: int) {
    exists c :: from < c < to && 0 <= c < |text| && !space(text[c])
  }

  /**
   * No text outside the words can pull a wait past its silence: where something other than space
   * stands before the first word, or more than one place behind a word, there is no silence at all.
   */
  predicate NoStrayText(words: seq<Word>, text: string, space: Spacing) {
    && (words != [] && Marked(text, space, -1, words[0].textStart) ==> words[0].startMs == 0)
    && (forall i :: 0 <= i < |words| - 1 && Marked(text, space, words[i].textEnd, words[i + 1].textStart) ==>
          words[i + 1].startMs == words[i].endMs)
  }

  /** Words that cover all visible text leave none of it stray. */
  predicate CoversText(words: seq<Word>, text: string, space: Spacing) {
    forall c :: 0 <= c < |text| && !space(text[c]) ==> Covered(words, c)
  }

  predicate Covered(words: seq<Word>, c: int) {
    exists i :: 0 <= i < |words| && words[i].textStart <= c < words[i].textEnd
  }

  lemma GapIsUncovered(words: seq<Word>, length: nat, duration: int, k: nat, c: int)
    requires Ordered(words, length, duration) && k < |words| && c < words[k].textStart
    requires k > 0 ==> words[k - 1].textEnd <= c
    ensures !Covered(words, c)
  {
    forall i | 0 <= i < |words| ensures !(words[i].textStart <= c < words[i].textEnd) {
      if i < k - 1 {
        assert words[i].textEnd <= words[k - 1].textStart;
      }
      if i > k {
        assert words[k].textEnd <= words[i].textStart;
      }
    }
  }

  lemma CoveredTextIsNotStray(words: seq<Word>, text: string, space: Spacing, duration: int)
    requires Ordered(words, |text|, duration) && CoversText(words, text, space)
    ensures NoStrayText(words, text, space)
  {
    forall k, c | 0 <= k < |words| && 0 <= c < words[k].textStart && (k > 0 ==> words[k - 1].textEnd <= c)
      ensures !Covered(words, c)
    {
      GapIsUncovered(words, |text|, duration, k, c);
    }
    forall i | 0 <= i < |words| - 1 ensures !Marked(text, space, words[i].textEnd, words[i + 1].textStart) {
      forall c | words[i].textEnd < c < words[i + 1].textStart ensures !Covered(words, c) {
        GapIsUncovered(words, |text|, duration, i + 1, c);
      }
    }
  }

  ghost predicate WaitsKeepOrder(words: seq<Word>, text: string, space: Spacing, duration: int)
    requires words != [] && Ordered(words, |text|, duration)
  {
    forall a: nat, b: nat :: a <= b <= |text| ==>
      WaitMs(a, words, text, space, duration) <= WaitMs(b, words, text, space, duration)
  }

  function WaitMs(offset: nat, words: seq<Word>, text: string, space: Spacing, duration: int): int
    requires words != [] && Ordered(words, |text|, duration)
  {
    WaitAt(offset, words, text, space, duration).value
  }

  // ---------- Proof of the order ----------

  lemma AllSpaceMarks(text: string, space: Spacing, a: nat, b: int)
    requires b <= |text|
    ensures AllSpace(Slice(text, a, b), space) <==> !Marked(text, space, a - 1, b)
  {
    var s := Slice(text, a, b);
    if !Marked(text, space, a - 1, b) {
      forall i | 0 <= i < |s| ensures space(s[i]) {
        assert s[i] == text[a + i];
      }
    }
    if AllSpace(s, space) {
      forall c | a - 1 < c < b && 0 <= c < |text| ensures space(text[c]) {
        assert s[c - a] == text[c];
      }
    }
  }

  /** A wait either interpolates inside the word it stands in, or lies in the middle of the silence before the next. */
  predicate Inside(offset: nat, words: seq<Word>, text: string, space: Spacing, k: nat)
    requires 0 < k <= |words|
  {
    offset <= words[k - 1].textEnd
      && !AllSpace(Slice(text, offset, if k < |words| then words[k].textStart else |text|), space)
  }

  /** The silence before word `k`, or the end of the take. */
  function SilenceAt(words: seq<Word>, k: nat, duration: int): int
    requires k <= |words|
  {
    if k == |words| then duration else Middle(PreviousWord(words, k), words[k])
  }

  lemma WaitCases(offset: nat, words: seq<Word>, text: string, space: Spacing, duration: int, k: nat)
    requires words != [] && Ordered(words, |text|, duration) && duration >= 0 && offset <= |text|
    requires NoStrayText(words, text, space) && k == Before(words, offset)
    ensures WaitMs(offset, words, text, space, duration)
         == if k > 0 && Inside(offset, words, text, space, k) then TimeIn(words[k - 1], offset)
           else SilenceAt(words, k, duration)
  {
    BeforeSplits(words, |text|, duration, offset);
    if k > 0 && offset <= words[k - 1].textEnd {
      TimeInWord(offset, words, |text|, duration, k);
    } else if k == |words| {
      TimeFromPastAll(offset, words, |text|, duration);
    } else if !AllSpace(Slice(text, offset, words[k].textStart), space) {
      GapTime(offset, words, text, space, duration, k);
    }
    if k < |words| && AllSpace(Slice(text, offset, |text|), space) {
      LongerSlice(text, offset, words[k].textStart, |text|, space);
    }
  }

  lemma TimeInWord(offset: nat, words: seq<Word>, length: nat, duration: int, k: nat)
    requires Ordered(words, length, duration) && 0 < k <= |words|
    requires words[k - 1].textStart < offset <= words[k - 1].textEnd
    ensures TimeAt(offset, words, duration) == Some(TimeIn(words[k - 1], offset))
  {
    if k > 1 {
      assert words[k - 2].textEnd <= words[k - 1].textStart;
      assert words[0].textStart < words[0].textEnd <= words[k - 1].textStart;
    }
    TimeFromAt(offset, words, length, duration, k - 1);
  }

  lemma TimeFromPastAll(offset: nat, words: seq<Word>, length: nat, duration: int)
    requires words != [] && Ordered(words, length, duration) && words[|words| - 1].textEnd < offset
    ensures TimeAt(offset, words, duration) == Some(duration)
  {
    forall i | 0 <= i < |words| ensures words[i].textEnd < offset {
      if i < |words| - 1 {
        assert words[i].textEnd <= words[|words| - 1].textStart;
      }
    }
    TimeFromPast(offset, words, duration);
  }

  /** Between words, stray text interpolates to the next word, which then begins where the silence does. */
  lemma GapTime(offset: nat, words: seq<Word>, text: string, space: Spacing, duration: int, k: nat)
    requires words != [] && Ordered(words, |text|, duration) && offset <= |text| && k < |words|
    requires NoStrayText(words, text, space) && offset <= words[k].textStart
    requires k > 0 ==> words[k - 1].textEnd < offset
    requires !AllSpace(Slice(text, offset, words[k].textStart), space)
    ensures TimeAt(offset, words, duration) == Some(words[k].startMs)
    ensures words[k].startMs == Middle(PreviousWord(words, k), words[k])
  {
    AllSpaceMarks(text, space, offset, words[k].textStart);
    var c :| offset - 1 < c < words[k].textStart && 0 <= c < |text| && !space(text[c]);
    TimeFromAt(offset, words, |text|, duration, k);
    TimeInBounds(words[k], offset);
    if k == 0 {
      assert Marked(text, space, -1, words[0].textStart);
    } else {
      assert words[0].textStart < offset by {
        if k > 1 {
          assert words[0].textEnd <= words[k - 1].textStart;
        }
      }
      assert Marked(text, space, words[k - 1].textEnd, words[k].textStart);
      assert words[(k - 1) + 1].startMs == words[k - 1].endMs;
    }
  }

  /** The silence before word `k` lies between the words around it. */
  lemma SilenceBounds(words: seq<Word>, length: nat, duration: int, k: nat)
    requires Ordered(words, length, duration) && duration >= 0 && k <= |words|
    ensures (if k > 0 then words[k - 1].endMs else 0) <= SilenceAt(words, k, duration)
    ensures SilenceAt(words, k, duration) <= if k < |words| then words[k].startMs else duration
  {
    if 0 < k < |words| {
      assert words[k - 1].endMs <= words[k].startMs;
    }
  }

  lemma WaitBounds(offset: nat, words: seq<Word>, text: string, space: Spacing, duration: int, k: nat)
    requires words != [] && Ordered(words, |text|, duration) && duration >= 0 && offset <= |text|
    requires NoStrayText(words, text, space) && k == Before(words, offset)
    ensures (if k > 0 then words[k - 1].startMs else 0) <= WaitMs(offset, words, text, space, duration)
    ensures WaitMs(offset, words, text, space, duration) <= if k < |words| then words[k].startMs else duration
    ensures 0 <= WaitMs(offset, words, text, space, duration) <= duration
  {
    WaitCases(offset, words, text, space, duration, k);
    SilenceBounds(words, |text|, duration, k);
    if k > 0 {
      TimeInBounds(words[k - 1], offset);
      if k < |words| {
        assert words[k - 1].endMs <= words[k].startMs;
      }
    }
  }

  lemma WaitOrder(a: nat, b: nat, words: seq<Word>, text: string, space: Spacing, duration: int)
    requires words != [] && Ordered(words, |text|, duration) && duration >= 0 && a <= b <= |text|
    requires NoStrayText(words, text, space)
    ensures WaitMs(a, words, text, space, duration) <= WaitMs(b, words, text, space, duration)
  {
    var j, k := Before(words, a), Before(words, b);
    BeforeSplits(words, |text|, duration, a);
    BeforeSplits(words, |text|, duration, b);
    if j > 0 {
      assert words[j - 1].textStart < a;
    }
    if j < k {
      WaitBounds(a, words, text, space, duration, j);
      WaitBounds(b, words, text, space, duration, k);
      if j < k - 1 {
        assert words[j].endMs <= words[k - 1].startMs;
      }
    } else {
      SameSilence(a, b, words, text, space, duration, k);
    }
  }

  lemma SameSilence(a: nat, b: nat, words: seq<Word>, text: string, space: Spacing, duration: int, k: nat)
    requires words != [] && Ordered(words, |text|, duration) && duration >= 0 && a <= b <= |text|
    requires NoStrayText(words, text, space) && k == Before(words, a) == Before(words, b)
    ensures WaitMs(a, words, text, space, duration) <= WaitMs(b, words, text, space, duration)
  {
    WaitCases(a, words, text, space, duration, k);
    WaitCases(b, words, text, space, duration, k);
    SilenceBounds(words, |text|, duration, k);
    if k > 0 {
      TimeInKeepsOrder(words[k - 1], a, b);
      TimeInBounds(words[k - 1], a);
      var to := if k < |words| then words[k].textStart else |text|;
      if AllSpace(Slice(text, a, to), space) {
        ShorterSlice(text, a, b, to, space);
      }
    }
  }

  /** Stray text before the first word pulls a wait past the silence it belongs to. */
  lemma StrayOpening(words: seq<Word>, text: string, space: Spacing, duration: int)
    requires words != [] && Ordered(words, |text|, duration)
    requires Marked(text, space, -1, words[0].textStart) && words[0].startMs != 0
    ensures !WaitsKeepOrder(words, text, space, duration)
  {
    var c :| -1 < c < words[0].textStart && 0 <= c < |text| && !space(text[c]);
    var b := words[0].textStart;
    BeforeSplits(words, |text|, duration, c);
    BeforeSplits(words, |text|, duration, b);
    AllSpaceMarks(text, space, c, b);
    AllSpaceMarks(text, space, c, |text|);
    assert WaitMs(c, words, text, space, duration) == words[0].startMs;
    assert WaitMs(b, words, text, space, duration) == 0;
  }

  lemma StrayGap(words: seq<Word>, text: string, space: Spacing, duration: int, i: nat)
    requires Ordered(words, |text|, duration) && i < |words| - 1
    requires Marked(text, space, words[i].textEnd, words[i + 1].textStart) && words[i + 1].startMs != words[i].endMs
    ensures !WaitsKeepOrder(words, text, space, duration)
  {
    var c :| words[i].textEnd < c < words[i + 1].textStart && 0 <= c < |text| && !space(text[c]);
    var k, b := i + 1, words[i + 1].textStart;
    BeforeSplits(words, |text|, duration, c);
    BeforeSplits(words, |text|, duration, b);
    assert Before(words, c) == k && Before(words, b) == k;
    AllSpaceMarks(text, space, c, b);
    AllSpaceMarks(text, space, c, |text|);
    TimeFromAt(c, words, |text|, duration, k);
    TimeInBounds(words[k], c);
    assert words[0].textStart < words[0].textEnd <= words[k].textStart;
    assert words[0].textStart < c by {
      if i > 0 {
        assert words[0].textEnd <= words[i].textStart;
      }
    }
    assert WaitMs(c, words, text, space, duration) == words[k].startMs;
    assert WaitMs(b, words, text, space, duration) == Middle(Some(words[i]), words[k]);
    assert words[i].endMs <= words[k].startMs;
  }

  /** Waits keep the order of the text exactly when no stray text stands before a real silence. */
  lemma WaitsKeepOrderExactly(words: seq<Word>, text: string, space: Spacing, duration: int)
    requires words != [] && Ordered(words, |text|, duration) && duration >= 0
    ensures WaitsKeepOrder(words, text, space, duration) <==> NoStrayText(words, text, space)
  {
    if NoStrayText(words, text, space) {
      forall a: nat, b: nat | a <= b <= |text|
        ensures WaitMs(a, words, text, space, duration) <= WaitMs(b, words, text, space, duration)
      {
        WaitOrder(a, b, words, text, space, duration);
      }
    } else if Marked(text, space, -1, words[0].textStart) && words[0].startMs != 0 {
      StrayOpening(words, text, space, duration);
    } else {
      var i :| 0 <= i < |words| - 1 && Marked(text, space, words[i].textEnd, words[i + 1].textStart)
            && words[i + 1].startMs != words[i].endMs;
      StrayGap(words, text, space, duration, i);
    }
  }

  /** A dash one place behind a word: the wait at the dash resolves after the wait behind it. */
  lemma StrayDashReversesWaits()
    ensures var text, space := "a -b", (c: char) => c == ' ';
      var words := [Word("a", 0, 1, 0, 100, Timing(NoSource, NoConfidence, None)),
                    Word("b", 3, 4, 200, 300, Timing(NoSource, NoConfidence, None))];
      && Ordered(words, |text|, 300)
      && WaitAt(2, words, text, space, 300) == Some(200) && WaitAt(3, words, text, space, 300) == Some(150)
  {
    var text, space := "a -b", (c: char) => c == ' ';
    var legacy := Timing(NoSource, NoConfidence, None);
    var a, b := Word("a", 0, 1, 0, 100, legacy), Word("b", 3, 4, 200, 300, legacy);
    var words := [a, b];
    BeforeSplits(words, 4, 300, 2);
    BeforeSplits(words, 4, 300, 3);
    AllSpaceMarks(text, space, 2, 3);
    AllSpaceMarks(text, space, 2, 4);
    assert text[2] == '-';
    assert Marked(text, space, 1, 3) && Marked(text, space, 1, 4);
    TimeFromAt(2, words, 4, 300, 1);
    TimeInBounds(b, 2);
  }
}
