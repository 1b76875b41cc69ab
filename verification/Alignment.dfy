/**
 * Aligning captured motion with its recorded video (`_matching_start_frame_ms`,
 * `_matching_end_frame_ms`, `finalize_dynamic_fragments`). Each frame arrives with its score against
 * the wanted state already judged; the streaming loops are proved equal to closed forms.
 */
module Alignment {
  import opened Common

  const FRAME_MS: int := 40
  const RUN: nat := 3
  const START_LOOKBACK_MS: int := 2000
  const IMPLICIT_MAX_MS: int := 3000

  /** A frame matches the state within tolerance, or precisely. */
  datatype Frame = Frame(close: bool, precise: bool)

  function Max(a: int, b: int): int { if a < b then b else a }
  function Abs(a: int): nat { if a < 0 then -a else a }

  /** Three matching frames in a row, from frame `k`. */
  predicate Window(frames: seq<Frame>, k: nat) {
    k + 2 < |frames| && frames[k].close && frames[k + 1].close && frames[k + 2].close
  }

  function At(search: int, k: nat): int { search + k * FRAME_MS }

  // ---------- Closed forms ----------

  /** The last run that begins before frame `hi`. */
  function LastWindow(frames: seq<Frame>, hi: nat): (r: Option<nat>)
    ensures r.Some? ==> r.value < hi && Window(frames, r.value)
    ensures forall j :: (if r.Some? then r.value < j < hi else 0 <= j < hi) ==> !Window(frames, j)
  {
    if hi == 0 then None else if Window(frames, hi - 1) then Some(hi - 1) else LastWindow(frames, hi - 1)
  }

  /** The first run that begins at or after frame `lo` and before frame `hi`. */
  function FirstWindow(frames: seq<Frame>, lo: nat, hi: nat): (r: Option<nat>)
    ensures r.Some? ==> lo <= r.value < hi && Window(frames, r.value)
    ensures forall j :: lo <= j < (if r.Some? then r.value else hi) ==> !Window(frames, j)
    decreases hi - lo
  {
    if lo >= hi then None else if Window(frames, lo) then Some(lo) else FirstWindow(frames, lo + 1, hi)
  }

  function LastPrecise(frames: seq<Frame>, hi: nat): (r: Option<nat>)
    requires hi <= |frames|
    ensures r.Some? ==> r.value < hi && frames[r.value].precise
    ensures forall j :: (if r.Some? then r.value < j < hi else 0 <= j < hi) ==> !frames[j].precise
  {
    if hi == 0 then None else if frames[hi - 1].precise then Some(hi - 1) else LastPrecise(frames, hi - 1)
  }

  /** How many frames begin at or before `time`. */
  function BeginsBy(search: int, time: int): (n: nat)
    ensures forall k: nat :: k < n <==> At(search, k) <= time
  {
    if time < search then 0 else (time - search) / FRAME_MS + 1
  }

  /** How many frames end at or before `time`. */
  function EndsBy(search: int, time: int): (n: nat)
    ensures forall k: nat :: k < n <==> At(search, k) + FRAME_MS <= time
  {
    if time < search then 0 else (time - search) / FRAME_MS
  }

  function Least(a: nat, b: nat): nat { if a < b then a else b }

  /** The chosen start run among those beginning before frame `hi`. */
  function StartIndex(frames: seq<Frame>, hi: nat, search: int, reference: int, prefer: bool): Option<nat> {
    if !prefer then LastWindow(frames, hi)
    else
      var before := LastWindow(frames, Least(BeginsBy(search, reference), hi));
      if before.Some? then before else FirstWindow(frames, 0, hi)
  }

  function StartSearch(reference: int): int { Max(0, reference - START_LOOKBACK_MS) }

  function StartMs(frames: seq<Frame>, reference: int, prefer: bool, trim: bool): Option<int> {
    var search := StartSearch(reference);
    match StartIndex(frames, |frames|, search, reference, prefer)
    case None => None
    case Some(k) => Some(At(search, k) + (if prefer || !trim then 0 else RUN * FRAME_MS))
  }

  function EndSearch(minimum: int, lookback: int): int { Max(0, minimum - lookback) }

  /** The last precise lookback frame that ends by the minimum, otherwise the first run entirely past it. */
  function EndIndex(frames: seq<Frame>, minimum: int, lookback: int): Option<nat> {
    var past := EndsBy(EndSearch(minimum, lookback), minimum);
    var precise := if lookback > 0 then LastPrecise(frames, Least(past, |frames|)) else None;
    if precise.Some? then precise else FirstWindow(frames, past, |frames|)
  }

  function EndMs(frames: seq<Frame>, minimum: int, lookback: int): Option<int> {
    match EndIndex(frames, minimum, lookback)
    case None => None
    case Some(k) => Some(At(EndSearch(minimum, lookback), k) + FRAME_MS)
  }

  // ---------- What the closed forms promise ----------

  /** A start exists exactly when the footage holds a run, and it is the start of one. */
  lemma StartIsARun(frames: seq<Frame>, reference: int, prefer: bool)
    ensures StartMs(frames, reference, prefer, false).Some? <==> exists k: nat :: Window(frames, k)
    ensures StartMs(frames, reference, prefer, false).Some? ==>
      exists k: nat :: Window(frames, k)
        && StartMs(frames, reference, prefer, false).value == At(StartSearch(reference), k)
  {
    var r := StartIndex(frames, |frames|, StartSearch(reference), reference, prefer);
    if r.Some? {
      assert Window(frames, r.value);
    } else {
      forall k: nat ensures !Window(frames, k) {
        assert k >= |frames| || !Window(frames, k);
      }
    }
  }

  /** With `prefer_reference`, no run lies between the chosen start and the reference, nor nearer after it. */
  lemma PreferredStartIsNearest(frames: seq<Frame>, reference: int, k: nat)
    requires Window(frames, k) && StartMs(frames, reference, true, false).Some?
    ensures var s, other := StartMs(frames, reference, true, false).value, At(StartSearch(reference), k);
      && (other <= reference ==> s <= reference && other <= s)
      && (s > reference ==> s <= other)
  {
    var search := StartSearch(reference);
    var before := LastWindow(frames, Least(BeginsBy(search, reference), |frames|));
    if At(search, k) <= reference {
      assert k < Least(BeginsBy(search, reference), |frames|);
    }
  }

  /** Without it, the last run wins. */
  lemma LatestStartIsLast(frames: seq<Frame>, reference: int, k: nat)
    requires Window(frames, k) && StartMs(frames, reference, false, false).Some?
    ensures At(StartSearch(reference), k) <= StartMs(frames, reference, false, false).value
  {
  }

  /**
   * The start lies at most the lookback before the requested one, its confirming run ends within the
   * footage searched, and so by the aligned end when that footage does. It is past the requested start
   * only when no run begins by then (reference preferred), or when one begins later (latest preferred).
   */
  lemma StartBounds(frames: seq<Frame>, reference: int, maximum: int, prefer: bool, trim: bool)
    requires StartMs(frames, reference, prefer, trim).Some?
    ensures var search, s := StartSearch(reference), StartMs(frames, reference, prefer, trim).value;
      var run := if prefer || !trim then s else s - RUN * FRAME_MS;
      && 0 <= run && reference - START_LOOKBACK_MS <= run && run + RUN * FRAME_MS <= At(search, |frames|)
      && (At(search, |frames|) <= maximum ==> s <= run + RUN * FRAME_MS <= maximum)
      && (prefer ==> (s > reference <==> forall k: nat :: Window(frames, k) ==> At(search, k) > reference))
      && (!prefer ==> (run > reference <==> exists k: nat :: Window(frames, k) && At(search, k) > reference))
  {
    var search := StartSearch(reference);
    var chosen := StartIndex(frames, |frames|, search, reference, prefer).value;
    assert Window(frames, chosen);
    forall k: nat | Window(frames, k)
      ensures prefer && At(search, chosen) > reference ==> At(search, k) > reference
      ensures !prefer && At(search, k) > reference ==> At(search, chosen) > reference
    {
      if prefer {
        PreferredStartIsNearest(frames, reference, k);
      } else {
        LatestStartIsLast(frames, reference, k);
      }
    }
  }

  /** A precise lookback frame keeps the end at or before the minimum; otherwise it is past it, at a stable run. */
  lemma EndBounds(frames: seq<Frame>, minimum: int, lookback: int)
    requires EndMs(frames, minimum, lookback).Some?
    ensures var search, e := EndSearch(minimum, lookback), EndMs(frames, minimum, lookback).value;
      && search < e <= At(search, |frames|)
      && (e <= minimum <==>
            lookback > 0 && exists i: nat :: i < |frames| && frames[i].precise && At(search, i) + FRAME_MS <= minimum)
      && (e > minimum ==> exists k: nat :: Window(frames, k) && e == At(search, k) + FRAME_MS)
  {
    var search := EndSearch(minimum, lookback);
    var past := EndsBy(search, minimum);
    var k := EndIndex(frames, minimum, lookback).value;
    if lookback > 0 {
      var precise := LastPrecise(frames, Least(past, |frames|));
      if precise.Some? {
        assert frames[k].precise && At(search, k) + FRAME_MS <= minimum;
      } else {
        forall i: nat | i < |frames| && At(search, i) + FRAME_MS <= minimum ensures !frames[i].precise {
          assert i < Least(past, |frames|);
        }
      }
    }
  }

  // ---------- The streaming loops ----------

  /** `run` matching frames end at frame `i`, and not one more. */
  predicate Trailing(frames: seq<Frame>, i: nat, run: nat)
    requires i <= |frames|
  {
    && run <= i
    && (forall j :: i - run <= j < i ==> frames[j].close)
    && (run < i ==> !frames[i - run - 1].close)
  }

  lemma TrailingWindow(frames: seq<Frame>, i: nat, run: nat)
    requires 0 < i <= |frames| && Trailing(frames, i, run)
    ensures run >= RUN <==> i >= RUN && Window(frames, i - RUN)
  {
  }

  /** How one more run changes the choice: it replaces the choice unless the choice is nearer on its side. */
  lemma CandidateChosen(frames: seq<Frame>, k: nat, search: int, reference: int, prefer: bool)
    requires Window(frames, k)
    ensures var was, now := StartIndex(frames, k, search, reference, prefer),
      StartIndex(frames, k + 1, search, reference, prefer);
      && (!prefer || was.None? ==> now == Some(k))
      && (prefer && was.Some? ==>
            now == if At(search, was.value) > reference || At(search, k) > reference then was else Some(k))
  {
    var n := BeginsBy(search, reference);
    if prefer && k >= n {
      assert Least(n, k) == n == Least(n, k + 1);
      FirstWindowSnoc(frames, 0, k);
    }
    if prefer && k < n {
      FirstWindowSnoc(frames, 0, k);
    }
  }

  lemma {:induction false} FirstWindowSnoc(frames: seq<Frame>, lo: nat, hi: nat)
    requires lo <= hi
    ensures FirstWindow(frames, lo, hi + 1)
         == if FirstWindow(frames, lo, hi).Some? then FirstWindow(frames, lo, hi)
            else if Window(frames, hi) then Some(hi) else None
    decreases hi - lo
  {
    if lo < hi && !Window(frames, lo) {
      FirstWindowSnoc(frames, lo + 1, hi);
    }
  }

  lemma NothingChosen(frames: seq<Frame>, index: nat, search: int, reference: int, prefer: bool)
    requires 0 < index <= |frames| && !(index >= RUN && Window(frames, index - RUN))
    ensures StartIndex(frames, Max(0, index - 2), search, reference, prefer)
         == StartIndex(frames, Max(0, index - 3), search, reference, prefer)
  {
    if index >= RUN {
      FirstWindowSnoc(frames, 0, index - RUN);
    }
  }

  /** What reading one more frame does to the choice. */
  lemma StartStep(frames: seq<Frame>, index: nat, run: nat, search: int, reference: int, prefer: bool)
    requires 0 < index <= |frames| && Trailing(frames, index, run)
    ensures run >= RUN ==> index >= RUN
    ensures var was := StartIndex(frames, Max(0, index - 3), search, reference, prefer);
      var now := StartIndex(frames, Max(0, index - 2), search, reference, prefer);
      if run < RUN then now == was
      else if !prefer || was.None? then now == Some(index - RUN)
      else now == if At(search, was.value) > reference || At(search, index - RUN) > reference then was
        else Some(index - RUN)
  {
    TrailingWindow(frames, index, run);
    if run >= RUN {
      CandidateChosen(frames, index - RUN, search, reference, prefer);
    } else {
      NothingChosen(frames, index, search, reference, prefer);
    }
  }

  /** The choice is the nearest on its side: an earlier run is nearer only after the reference. */
  lemma Nearer(search: int, reference: int, k: nat, j: nat)
    requires k < j
    ensures At(search, k) > reference ==> At(search, j) > reference
    ensures At(search, j) <= reference ==> Abs(At(search, j) - reference) < Abs(At(search, k) - reference)
    ensures At(search, k) > reference ==> Abs(At(search, j) - reference) > Abs(At(search, k) - reference)
  {
  }

  /** The last two frames begin no run, so the searches may stop before them. */
  lemma LateLast(frames: seq<Frame>, hi: nat)
    requires Max(0, |frames| - 2) <= hi <= |frames|
    ensures LastWindow(frames, hi) == LastWindow(frames, Max(0, |frames| - 2))
  {
    if hi > |frames| - 2 && hi > 0 {
      assert !Window(frames, hi - 1);
      LateLast(frames, hi - 1);
    }
  }

  lemma {:induction false} LateFirst(frames: seq<Frame>, lo: nat, hi: nat)
    requires lo <= hi <= |frames| && |frames| - 2 <= hi
    ensures FirstWindow(frames, lo, |frames|) == FirstWindow(frames, lo, hi)
    decreases |frames| - hi
  {
    if hi < |frames| {
      FirstWindowSnoc(frames, lo, hi);
      LateFirst(frames, lo, hi + 1);
    }
  }

  lemma LateWindows(frames: seq<Frame>, search: int, reference: int, prefer: bool)
    ensures StartIndex(frames, Max(0, |frames| - 2), search, reference, prefer)
         == StartIndex(frames, |frames|, search, reference, prefer)
  {
    var early, begun := Max(0, |frames| - 2), BeginsBy(search, reference);
    LateLast(frames, |frames|);
    LateFirst(frames, 0, early);
    if begun > early {
      LateLast(frames, Least(begun, |frames|));
    }
  }

  /** What the loop holds after reading `index` frames. */
  predicate Picked(frames: seq<Frame>, index: nat, search: int, reference: int, prefer: bool, run: nat,
                   chosen: Option<nat>, distance: nat, after: bool)
    requires index <= |frames|
  {
    && Trailing(frames, index, run)
    && chosen == StartIndex(frames, Max(0, index - 2), search, reference, prefer)
    && (chosen.Some? ==>
          distance == Abs(At(search, chosen.value) - reference) && after == (At(search, chosen.value) > reference))
  }

  /** Whether a run replaces the choice so far. */
  predicate Replaces(prefer: bool, chosen: Option<nat>, distance: nat, after: bool, candidateDistance: nat,
                     candidateAfter: bool)
  {
    !prefer || chosen.None? || (after && !candidateAfter) || (after == candidateAfter && candidateDistance < distance)
  }

  predicate PickedOrKept(frames: seq<Frame>, index: nat, search: int, reference: int, prefer: bool, run: nat,
                         chosen: Option<nat>, distance: nat, after: bool)
    requires RUN <= index <= |frames|
  {
    var ms := At(search, index - RUN);
    if Replaces(prefer, chosen, distance, after, Abs(ms - reference), ms > reference)
    then Picked(frames, index, search, reference, prefer, run, Some(index - RUN), Abs(ms - reference), ms > reference)
    else Picked(frames, index, search, reference, prefer, run, chosen, distance, after)
  }

  lemma PickStep(frames: seq<Frame>, index: nat, search: int, reference: int, prefer: bool, run: nat,
                 chosen: Option<nat>, distance: nat, after: bool)
    requires index < |frames| && Picked(frames, index, search, reference, prefer, run, chosen, distance, after)
    ensures var next := if frames[index].close then run + 1 else 0;
      if next < RUN then Picked(frames, index + 1, search, reference, prefer, next, chosen, distance, after)
      else index + 1 >= RUN && PickedOrKept(frames, index + 1, search, reference, prefer, next, chosen, distance, after)
  {
    var next := if frames[index].close then run + 1 else 0;
    assert Trailing(frames, index + 1, next);
    StartStep(frames, index + 1, next, search, reference, prefer);
    if next >= RUN {
      PickRun(frames, index + 1, search, reference, prefer, next, chosen, distance, after);
    }
  }

  /** A run ending here is judged against the choice so far. */
  lemma PickRun(frames: seq<Frame>, index: nat, search: int, reference: int, prefer: bool, run: nat,
                chosen: Option<nat>, distance: nat, after: bool)
    requires RUN <= index <= |frames| && Trailing(frames, index, run)
    requires chosen.Some? ==>
      && chosen.value < index - RUN
      && distance == Abs(At(search, chosen.value) - reference) && after == (At(search, chosen.value) > reference)
    requires StartIndex(frames, Max(0, index - 2), search, reference, prefer)
          == if prefer && chosen.Some? && (At(search, chosen.value) > reference || At(search, index - RUN) > reference)
             then chosen else Some(index - RUN)
    ensures PickedOrKept(frames, index, search, reference, prefer, run, chosen, distance, after)
  {
    if chosen.Some? {
      Nearer(search, reference, chosen.value, index - RUN);
    }
  }

  method MatchStart(frames: seq<Frame>, clean: bool, reference: int, prefer: bool, trim: bool) returns (r: Option<int>)
    ensures r == if clean then StartMs(frames, reference, prefer, trim) else None
  {
    var search := StartSearch(reference);
    var chosen: Option<nat> := None;
    var distance: nat, after := 0, false;
    var run: nat, index: nat := 0, 0;
    while index < |frames|
      invariant 0 <= index <= |frames|
      invariant Picked(frames, index, search, reference, prefer, run, chosen, distance, after)
    {
      PickStep(frames, index, search, reference, prefer, run, chosen, distance, after);
      run := if frames[index].close then run + 1 else 0;
      index := index + 1;
      if run >= RUN {
        var candidate := index - RUN;
        var ms := At(search, candidate);
        if Replaces(prefer, chosen, distance, after, Abs(ms - reference), ms > reference) {
          chosen, distance, after := Some(candidate), Abs(ms - reference), ms > reference;
        }
      }
    }
    LateWindows(frames, search, reference, prefer);
    if !clean || chosen.None? {
      return None;
    }
    var start := At(search, chosen.value);
    r := Some(if prefer || !trim then start else start + RUN * FRAME_MS);
  }

  /** Frames that count towards an end run: they match and end after the minimum. */
  predicate Late(frames: seq<Frame>, k: nat, past: nat) { k < |frames| && k >= past && frames[k].close }

  predicate LateTrailing(frames: seq<Frame>, i: nat, run: nat, past: nat)
    requires i <= |frames|
  {
    && run <= i
    && (forall j :: i - run <= j < i ==> Late(frames, j, past))
    && (run < i ==> !Late(frames, i - run - 1, past))
  }

  lemma LateTrailingWindow(frames: seq<Frame>, i: nat, run: nat, past: nat)
    requires 0 < i <= |frames| && LateTrailing(frames, i, run, past)
    ensures run >= RUN <==> i >= RUN && i - RUN >= past && Window(frames, i - RUN)
  {
    if i >= RUN && i - RUN >= past && Window(frames, i - RUN) {
      assert Late(frames, i - 1, past) && Late(frames, i - 2, past) && Late(frames, i - 3, past);
    }
    if run >= RUN {
      assert Late(frames, i - 1, past) && Late(frames, i - 2, past) && Late(frames, i - 3, past);
    }
  }

  /** What reading one more frame does to the first run past the minimum. */
  lemma EndStep(frames: seq<Frame>, index: nat, run: nat, past: nat)
    requires 0 < index <= |frames|
    ensures var was, now := FirstWindow(frames, past, Max(past, index - 3)),
      FirstWindow(frames, past, Max(past, index - 2));
      && (was.Some? ==> now == was)
      && (was.None? && LateTrailing(frames, index, run, past) ==>
            (run >= RUN ==> index >= RUN) && now == if run >= RUN then Some(index - RUN) else None)
  {
    if index - 2 > past {
      FirstWindowSnoc(frames, past, index - 3);
    }
    if LateTrailing(frames, index, run, past) {
      LateTrailingWindow(frames, index, run, past);
    }
  }

  lemma PreciseStep(frames: seq<Frame>, past: nat, index: nat)
    requires index < |frames|
    ensures LastPrecise(frames, Least(past, index + 1))
         == if index < past && frames[index].precise then Some(index) else LastPrecise(frames, Least(past, index))
  {
  }

  /** What the loop holds after reading `index` frames. */
  predicate Scanned(frames: seq<Frame>, index: nat, past: nat, lookback: int, run: nat, chosen: Option<nat>,
                    precise: Option<nat>)
    requires index <= |frames|
  {
    && (chosen.None? ==> LateTrailing(frames, index, run, past))
    && chosen == FirstWindow(frames, past, Max(past, index - 2))
    && precise == if lookback > 0 then LastPrecise(frames, Least(past, index)) else None
  }

  function NextRun(frames: seq<Frame>, index: nat, past: nat, run: nat, chosen: Option<nat>): nat
    requires index < |frames|
  {
    if chosen.Some? then run else if index < past then 0 else if frames[index].close then run + 1 else 0
  }

  lemma ScanStep(frames: seq<Frame>, index: nat, past: nat, lookback: int, run: nat, chosen: Option<nat>,
                 precise: Option<nat>)
    requires index < |frames| && Scanned(frames, index, past, lookback, run, chosen, precise)
    ensures var next := NextRun(frames, index, past, run, chosen);
      && (chosen.None? && next >= RUN ==> index + 1 >= RUN)
      && Scanned(frames, index + 1, past, lookback, next,
                 if chosen.None? && next >= RUN then Some(index + 1 - RUN) else chosen,
                 if lookback > 0 && index < past && frames[index].precise then Some(index) else precise)
  {
    var next := NextRun(frames, index, past, run, chosen);
    assert chosen.None? ==> LateTrailing(frames, index + 1, next, past);
    EndStep(frames, index + 1, next, past);
    PreciseStep(frames, past, index);
  }

  method MatchEnd(frames: seq<Frame>, clean: bool, minimum: int, lookback: int) returns (r: Option<int>)
    ensures r == if clean then EndMs(frames, minimum, lookback) else None
  {
    var search := EndSearch(minimum, lookback);
    ghost var past := EndsBy(search, minimum);
    var chosen: Option<nat>, precise: Option<nat> := None, None;
    var run: nat, index: nat := 0, 0;
    while index < |frames|
      invariant 0 <= index <= |frames| && Scanned(frames, index, past, lookback, run, chosen, precise)
    {
      var frameEnd := search + (index + 1) * FRAME_MS;
      assert frameEnd <= minimum <==> index < past by { assert At(search, index) + FRAME_MS == frameEnd; }
      ScanStep(frames, index, past, lookback, run, chosen, precise);
      ghost var next := NextRun(frames, index, past, run, chosen);
      if chosen.None? {
        run := if frameEnd <= minimum then 0 else if frames[index].close then run + 1 else 0;
        if run >= RUN {
          chosen := Some(index + 1 - RUN);
        }
      }
      assert run == next;
      if lookback > 0 && frameEnd <= minimum && frames[index].precise {
        precise := Some(index);
      }
      index := index + 1;
    }
    ScannedAll(frames, minimum, lookback, run, chosen, precise);
    if !clean || (precise.None? && chosen.None?) {
      return None;
    }
    var selected := if precise.Some? then precise.value else chosen.value;
    r := Some(search + (selected + 1) * FRAME_MS);
  }

  lemma ScannedAll(frames: seq<Frame>, minimum: int, lookback: int, run: nat, chosen: Option<nat>, precise: Option<nat>)
    requires Scanned(frames, |frames|, EndsBy(EndSearch(minimum, lookback), minimum), lookback, run, chosen, precise)
    ensures EndIndex(frames, minimum, lookback) == if precise.Some? then precise else chosen
  {
    LateEndWindows(frames, EndsBy(EndSearch(minimum, lookback), minimum));
  }

  lemma LateEndWindows(frames: seq<Frame>, past: nat)
    ensures FirstWindow(frames, past, Max(past, |frames| - 2)) == FirstWindow(frames, past, |frames|)
  {
    if past <= |frames| {
      LateFirst(frames, past, Max(past, |frames| - 2));
    }
  }

  // ---------- The fragments of one recording ----------

  /** What a fragment was asked to show, on the authored clock. */
  datatype Request = Request(beat: string, start: int, end: int, startState: bool, explicit: bool, preserve: bool,
                             trim: bool)

  /** The decoded footage searched for each boundary, and whether the cut could be encoded. */
  datatype Footage = Footage(endFrames: seq<Frame>, endClean: bool, startFrames: seq<Frame>, startClean: bool,
                             encoded: bool)

  datatype Fragment = Fragment(start: int, end: int, duration: int)

  /** A request that continues its predecessor starts exactly where that one's footage ended. */
  predicate Continues(previous: Request, r: Request) {
    r.beat == previous.beat && Abs(r.start - previous.end) <= FRAME_MS
  }

  function AlignedEnd(r: Request, f: Footage): Option<int> {
    if f.endClean then EndMs(f.endFrames, r.end, if r.startState then START_LOOKBACK_MS else 0) else None
  }

  function AlignedStart(r: Request, f: Footage): Option<int> {
    if !r.startState then Some(r.start)
    else if f.startClean then StartMs(f.startFrames, r.start, r.preserve, r.trim) else None
  }

  /** The fragment of request `i`, given where the one before it ended. */
  function Cut(r: Request, f: Footage, previous: Option<Request>, previousEnd: int): Option<Fragment> {
    var end, start := AlignedEnd(r, f), AlignedStart(r, f);
    if end.None? || start.None? then None
    else
      var from := if previous.Some? && Continues(previous.value, r) then previousEnd else start.value;
      var duration := if r.preserve then r.end - r.start else end.value - from;
      if end.value <= from || duration <= 0 || (!r.explicit && duration > IMPLICIT_MAX_MS) || !f.encoded then None
      else Some(Fragment(from, end.value, duration))
  }

  predicate Fits(requests: seq<Request>, footage: seq<Footage>, fragments: seq<Fragment>, i: nat)
    requires |requests| == |footage| && i < |fragments| <= |requests|
  {
    Cut(requests[i], footage[i], if i == 0 then None else Some(requests[i - 1]),
        if i == 0 then 0 else fragments[i - 1].end)
      == Some(fragments[i])
  }

  /** The next request has no fragment. */
  predicate Stops(requests: seq<Request>, footage: seq<Footage>, fragments: seq<Fragment>)
    requires |requests| == |footage|
  {
    var i := |fragments|;
    i < |requests| &&
      Cut(requests[i], footage[i], if i == 0 then None else Some(requests[i - 1]),
          if i == 0 then 0 else fragments[i - 1].end).None?
  }

  method CutFragment(r: Request, f: Footage, previous: Option<Request>, previousEnd: int)
    returns (fragment: Option<Fragment>)
    ensures fragment == Cut(r, f, previous, previousEnd)
  {
    var end := MatchEnd(f.endFrames, f.endClean, r.end, if r.startState then START_LOOKBACK_MS else 0);
    if end.None? {
      return None;
    }
    var start := Some(r.start);
    if r.startState {
      start := MatchStart(f.startFrames, f.startClean, r.start, r.preserve, r.trim);
    }
    if start.None? {
      return None;
    }
    var from := start.value;
    if previous.Some? && Continues(previous.value, r) {
      from := previousEnd;
    }
    var duration := if r.preserve then r.end - r.start else end.value - from;
    if end.value - from <= 0 || duration <= 0 || (!r.explicit && duration > IMPLICIT_MAX_MS) || !f.encoded {
      return None;
    }
    fragment := Some(Fragment(from, end.value, duration));
  }

  method FinalizeFragments(requests: seq<Request>, footage: seq<Footage>) returns (ok: bool, fragments: seq<Fragment>)
    requires |requests| == |footage|
    ensures ok ==> |fragments| == |requests|
    ensures |fragments| <= |requests|
    ensures forall i :: 0 <= i < |fragments| ==> Fits(requests, footage, fragments, i)
    ensures !ok ==> Stops(requests, footage, fragments)
  {
    fragments := [];
    var previous: Option<Request> := None;
    var previousEnd := 0;
    for i := 0 to |requests|
      invariant |fragments| == i
      invariant previous == if i == 0 then None else Some(requests[i - 1])
      invariant previousEnd == if i == 0 then 0 else fragments[i - 1].end
      invariant forall k :: 0 <= k < i ==> Fits(requests, footage, fragments, k)
    {
      var fragment := CutFragment(requests[i], footage[i], previous, previousEnd);
      if fragment.None? {
        return false, fragments;
      }
      FitsMore(requests, footage, fragments, fragment.value);
      fragments := fragments + [fragment.value];
      previous, previousEnd := Some(requests[i]), fragment.value.end;
    }
    ok := true;
  }

  lemma FitsMore(requests: seq<Request>, footage: seq<Footage>, fragments: seq<Fragment>, f: Fragment)
    requires |requests| == |footage| && |fragments| < |requests|
    requires forall k :: 0 <= k < |fragments| ==> Fits(requests, footage, fragments, k)
    ensures forall k :: 0 <= k < |fragments| ==> Fits(requests, footage, fragments + [f], k)
  {
    forall k | 0 <= k < |fragments| ensures Fits(requests, footage, fragments + [f], k) {
      assert Fits(requests, footage, fragments, k);
    }
  }

  /** Finished fragments have positive length, and continued ones neither overlap nor leave a gap. */
  lemma FragmentsAreContiguous(requests: seq<Request>, footage: seq<Footage>, fragments: seq<Fragment>, i: nat)
    requires |requests| == |footage| == |fragments| && i < |fragments|
    requires forall k :: 0 <= k < |fragments| ==> Fits(requests, footage, fragments, k)
    ensures fragments[i].start < fragments[i].end && fragments[i].duration > 0
    ensures i > 0 && Continues(requests[i - 1], requests[i]) ==> fragments[i].start == fragments[i - 1].end
    ensures !requests[i].explicit ==> fragments[i].duration <= IMPLICIT_MAX_MS
    ensures fragments[i].end > requests[i].end - (if requests[i].startState then START_LOOKBACK_MS else 0)
  {
    assert Fits(requests, footage, fragments, i);
    EndBounds(footage[i].endFrames, requests[i].end, if requests[i].startState then START_LOOKBACK_MS else 0);
  }
}
