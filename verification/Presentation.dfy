/**
 * What an accepted presentation manifest means: its audio map (`_validate_audio`) and the pane
 * layout of a beat (`validate_presentation_manifest`).
 */
module Presentation {
  import opened Common

  const ITEM_LIMIT: nat := 100_000

  // ---------- The audio map ----------

  /** A stretch of narration source, and where it is presented. */
  datatype Interval = Interval(start: int, end: int, sourceStart: int, sourceEnd: int)

  predicate Stretch(v: Interval, duration: int) {
    && 0 <= v.start < v.end <= duration && 0 <= v.sourceStart < v.sourceEnd
    && v.end - v.start == v.sourceEnd - v.sourceStart
  }

  function Shift(v: Interval): int { v.start - v.sourceStart }

  /** The check of one interval against its predecessor. */
  predicate Follows(v: Interval, end: int, sourceEnd: int, duration: int) {
    && Stretch(v, duration)
    && end <= v.start && sourceEnd <= v.sourceStart
    && v.sourceStart - sourceEnd <= v.start - end
  }

  predicate FollowsAt(intervals: seq<Interval>, duration: int, i: nat)
    requires i < |intervals|
  {
    if i == 0 then Follows(intervals[0], 0, 0, duration)
    else Follows(intervals[i], intervals[i - 1].end, intervals[i - 1].sourceEnd, duration)
  }

  predicate EndsRight(intervals: seq<Interval>, source: Option<int>, playback: Option<int>)
    requires intervals != []
  {
    var last := intervals[|intervals| - 1];
    (source.Some? ==> last.sourceEnd == source.value) && (playback.Some? ==> last.end == playback.value)
  }

  /** An accepted map said of all pairs: stretches in source order, whose shift never falls below an earlier one's. */
  predicate ShiftsForward(intervals: seq<Interval>, duration: int) {
    && (forall i :: 0 <= i < |intervals| ==> Stretch(intervals[i], duration) && Shift(intervals[i]) >= 0)
    && (forall i, j :: 0 <= i < j < |intervals| ==>
          intervals[i].sourceEnd <= intervals[j].sourceStart && Shift(intervals[i]) <= Shift(intervals[j]))
  }

  lemma {:induction false} FollowsFar(intervals: seq<Interval>, duration: int, i: nat, j: nat)
    requires forall k :: 0 <= k < |intervals| ==> FollowsAt(intervals, duration, k)
    requires i < j < |intervals|
    ensures intervals[i].sourceEnd <= intervals[j].sourceStart && 0 <= Shift(intervals[i]) <= Shift(intervals[j])
    decreases j
  {
    assert FollowsAt(intervals, duration, j) && FollowsAt(intervals, duration, j - 1);
    if i < j - 1 {
      FollowsFar(intervals, duration, i, j - 1);
    } else if j > 1 {
      FollowsFar(intervals, duration, 0, j - 1);
    }
  }

  /** The neighbour-by-neighbour check accepts exactly the maps that shift forward everywhere. */
  lemma NeighboursDecide(intervals: seq<Interval>, duration: int)
    ensures (forall i :: 0 <= i < |intervals| ==> FollowsAt(intervals, duration, i))
      <==> ShiftsForward(intervals, duration)
  {
    if forall i :: 0 <= i < |intervals| ==> FollowsAt(intervals, duration, i) {
      forall i | 0 <= i < |intervals| ensures Stretch(intervals[i], duration) && Shift(intervals[i]) >= 0 {
        assert FollowsAt(intervals, duration, i) && FollowsAt(intervals, duration, 0);
        if i > 0 {
          FollowsFar(intervals, duration, 0, i);
        }
      }
      forall i, j | 0 <= i < j < |intervals|
        ensures intervals[i].sourceEnd <= intervals[j].sourceStart && Shift(intervals[i]) <= Shift(intervals[j])
      {
        FollowsFar(intervals, duration, i, j);
      }
    }
    if ShiftsForward(intervals, duration) {
      forall i | 0 <= i < |intervals| ensures FollowsAt(intervals, duration, i) {
        if i > 0 {
          assert intervals[i - 1].sourceEnd <= intervals[i].sourceStart
            && Shift(intervals[i - 1]) <= Shift(intervals[i]);
        }
      }
    }
  }

  predicate AudioAccepted(intervals: seq<Interval>, duration: int, source: Option<int>, playback: Option<int>) {
    intervals != [] && ShiftsForward(intervals, duration) && EndsRight(intervals, source, playback)
  }

  method ValidateIntervals(intervals: seq<Interval>, duration: int, source: Option<int>, playback: Option<int>)
    returns (ok: bool)
    ensures ok <==> AudioAccepted(intervals, duration, source, playback)
  {
    NeighboursDecide(intervals, duration);
    if intervals == [] {
      return false;
    }
    var end, sourceEnd := 0, 0;
    for i := 0 to |intervals|
      invariant forall k :: 0 <= k < i ==> FollowsAt(intervals, duration, k)
      invariant i > 0 ==> end == intervals[i - 1].end && sourceEnd == intervals[i - 1].sourceEnd
      invariant i == 0 ==> end == 0 && sourceEnd == 0
    {
      var v := intervals[i];
      if v.start < 0 || v.end < 0 || v.sourceStart < 0 || v.sourceEnd < 0
         || v.end <= v.start || v.sourceEnd <= v.sourceStart || v.start < end || v.sourceStart < sourceEnd
         || v.end > duration || v.end - v.start != v.sourceEnd - v.sourceStart
         || v.sourceStart - sourceEnd > v.start - end
      {
        assert !FollowsAt(intervals, duration, i);
        return false;
      }
      end, sourceEnd := v.end, v.sourceEnd;
    }
    ok := EndsRight(intervals, source, playback);
  }

  /** Where a moment of an interval's source is presented. */
  function Presented(v: Interval, t: int): int { v.start + (t - v.sourceStart) }

  /** An accepted map keeps the order of the narration, presents nothing early, and never shrinks a delay. */
  lemma AudioKeepsOrder(intervals: seq<Interval>, duration: int, i: nat, j: nat, s: int, t: int)
    requires ShiftsForward(intervals, duration) && i <= j < |intervals| && s < t
    requires intervals[i].sourceStart <= s < intervals[i].sourceEnd
      && intervals[j].sourceStart <= t < intervals[j].sourceEnd
    ensures s <= Presented(intervals[i], s) < Presented(intervals[j], t) < duration
    ensures Presented(intervals[i], s) - s <= Presented(intervals[j], t) - t
  {
    assert Stretch(intervals[i], duration) && Stretch(intervals[j], duration);
    if i < j {
      assert Shift(intervals[i]) <= Shift(intervals[j]);
    }
  }

  // ---------- The pane layout ----------

  type Grid = seq<seq<string>>

  predicate Regular(grid: Grid) {
    grid != [] && grid[0] != [] && forall r :: 0 <= r < |grid| ==> |grid[r]| == |grid[0]|
  }

  predicate InGrid(grid: Grid, r: int, c: int) { 0 <= r < |grid| && 0 <= c < |grid[r]| }

  predicate Shows(grid: Grid, r: int, c: int, pane: string) { InGrid(grid, r, c) && grid[r][c] == pane }

  ghost predicate PaneIn(grid: Grid, pane: string) { exists r, c :: Shows(grid, r, c, pane) }

  datatype Box = Box(top: int, bottom: int, left: int, right: int)

  predicate Inside(b: Box, r: int, c: int) { b.top <= r <= b.bottom && b.left <= c <= b.right }

  /** The pane's cells are exactly one box. */
  ghost predicate Tiles(grid: Grid, pane: string, b: Box) {
    && 0 <= b.top <= b.bottom < |grid| && Regular(grid) && 0 <= b.left <= b.right < |grid[0]|
    && forall r, c :: Shows(grid, r, c, pane) <==> Inside(b, r, c)
  }

  ghost predicate Rectangular(grid: Grid, pane: string) { exists b :: Tiles(grid, pane, b) }

  /** The smallest box around a pane's cells. */
  ghost predicate Bounding(grid: Grid, pane: string, b: Box) {
    && (forall r, c :: Shows(grid, r, c, pane) ==> Inside(b, r, c))
    && (exists c :: Shows(grid, b.top, c, pane)) && (exists c :: Shows(grid, b.bottom, c, pane))
    && (exists r :: Shows(grid, r, b.left, pane)) && (exists r :: Shows(grid, r, b.right, pane))
  }

  /** A pane is a rectangle exactly when its bounding box shows nothing else. */
  lemma BoxDecides(grid: Grid, pane: string, b: Box)
    requires Regular(grid) && Bounding(grid, pane, b)
    ensures Rectangular(grid, pane) <==> forall r, c :: Inside(b, r, c) ==> Shows(grid, r, c, pane)
  {
    if forall r, c :: Inside(b, r, c) ==> Shows(grid, r, c, pane) {
      assert Tiles(grid, pane, b);
    }
    if Rectangular(grid, pane) {
      var t :| Tiles(grid, pane, t);
      assert Inside(t, t.top, t.left) && Inside(t, t.bottom, t.right);
      assert b == t by {
        assert Inside(b, t.top, t.left) && Inside(b, t.bottom, t.right);
      }
    }
  }

  function Smaller(a: int, b: int): int { if a < b then a else b }
  function Larger(a: int, b: int): int { if a < b then b else a }

  function Around(b: Option<Box>, r: int, c: int): Box {
    match b
    case None => Box(r, r, c, c)
    case Some(x) => Box(Smaller(x.top, r), Larger(x.bottom, r), Smaller(x.left, c), Larger(x.right, c))
  }

  /** The box around the pane's cells among those read so far, row by row. */
  ghost predicate BoundsRead(grid: Grid, pane: string, b: Option<Box>, row: int, column: int) {
    && (forall r, c :: Shows(grid, r, c, pane) && (r < row || (r == row && c < column)) ==>
        b.Some? && Inside(b.value, r, c))
    && (b.Some? ==>
          && (exists c :: Shows(grid, b.value.top, c, pane)) && (exists c :: Shows(grid, b.value.bottom, c, pane))
          && (exists r :: Shows(grid, r, b.value.left, pane)) && (exists r :: Shows(grid, r, b.value.right, pane)))
  }

  lemma ReadOne(grid: Grid, pane: string, b: Option<Box>, r: int, c: int)
    requires InGrid(grid, r, c) && BoundsRead(grid, pane, b, r, c)
    ensures BoundsRead(grid, pane, if grid[r][c] == pane then Some(Around(b, r, c)) else b, r, c + 1)
  {
    if grid[r][c] == pane {
      assert Shows(grid, r, c, pane);
    }
  }

  method Extent(grid: Grid, pane: string) returns (b: Option<Box>)
    ensures b.None? <==> !PaneIn(grid, pane)
    ensures b.Some? ==> Bounding(grid, pane, b.value)
  {
    b := None;
    for r := 0 to |grid|
      invariant BoundsRead(grid, pane, b, r, 0)
    {
      for c := 0 to |grid[r]|
        invariant BoundsRead(grid, pane, b, r, c)
      {
        ReadOne(grid, pane, b, r, c);
        if grid[r][c] == pane {
          b := Some(Around(b, r, c));
        }
      }
    }
  }

  /** The pane's bounding box holds no other pane. */
  method CheckPane(grid: Grid, pane: string) returns (ok: bool)
    requires Regular(grid) && PaneIn(grid, pane)
    ensures ok <==> Rectangular(grid, pane)
  {
    var b := Extent(grid, pane);
    var box := b.value;
    BoxDecides(grid, pane, box);
    ok := true;
    for r := box.top to box.bottom + 1
      invariant forall y, x :: Inside(box, y, x) && y < r ==> Shows(grid, y, x, pane)
    {
      for c := box.left to box.right + 1
        invariant forall x :: box.left <= x < c ==> Shows(grid, r, x, pane)
      {
        if grid[r][c] != pane {
          assert Inside(box, r, c) && !Shows(grid, r, c, pane);
          return false;
        }
      }
    }
  }

  function Cells(grid: Grid): nat
    decreases |grid|
  {
    if grid == [] then 0 else Cells(grid[..|grid| - 1]) + |grid[|grid| - 1]|
  }

  predicate Known(grid: Grid, panes: set<string>) {
    forall r, c :: 0 <= r < |grid| && 0 <= c < |grid[r]| ==> grid[r][c] in panes
  }

  /** Optional row weights: one positive weight per row. */
  predicate Weighted(grid: Grid, rows: Option<seq<real>>) {
    rows.Some? ==> |rows.value| == |grid| && forall i :: 0 <= i < |rows.value| ==> rows.value[i] > 0.0
  }

  ghost predicate LayoutAccepted(grid: Grid, known: set<string>, rows: Option<seq<real>>, count: nat) {
    && Regular(grid) && Known(grid, known) && Weighted(grid, rows) && count + Cells(grid) <= ITEM_LIMIT
    && forall pane :: PaneIn(grid, pane) ==> Rectangular(grid, pane)
  }

  /** Rows of equal length over known panes, counted against the manifest's limit. */
  method CheckAreas(grid: Grid, known: set<string>, count: nat) returns (ok: bool, panes: set<string>)
    ensures ok <==> Regular(grid) && Known(grid, known) && count + Cells(grid) <= ITEM_LIMIT
    ensures ok ==> forall pane :: pane in panes <==> PaneIn(grid, pane)
  {
    ok, panes := grid != [], {};
    var total := count;
    assert grid[..0] == [];
    for r := 0 to |grid|
      invariant ok ==> grid != []
      invariant ok ==> forall k :: 0 <= k < r ==> grid[k] != [] && |grid[k]| == |grid[0]|
      invariant ok ==> Known(grid[..r], known) && total == count + Cells(grid[..r]) && (r > 0 ==> total <= ITEM_LIMIT)
      invariant ok ==> forall pane :: pane in panes <==> PaneIn(grid[..r], pane)
      invariant !ok ==> !(Regular(grid) && Known(grid, known) && count + Cells(grid) <= ITEM_LIMIT)
    {
      if ok {
        var row := grid[r];
        RowAdds(grid, known, count, r);
        var fits, seen := CheckRow(row, known);
        if row == [] || |row| != |grid[0]| || total + |row| > ITEM_LIMIT || !fits {
          ok := false;
        } else {
          RowShows(grid, r);
          total, panes := total + |row|, panes + seen;
        }
      }
    }
    assert grid[..|grid|] == grid;
  }

  method CheckRow(row: seq<string>, known: set<string>) returns (ok: bool, seen: set<string>)
    ensures ok <==> forall c :: 0 <= c < |row| ==> row[c] in known
    ensures ok ==> forall pane :: pane in seen <==> pane in row
  {
    seen := {};
    for c := 0 to |row|
      invariant forall k :: 0 <= k < c ==> row[k] in known
      invariant forall pane :: pane in seen <==> pane in row[..c]
    {
      if row[c] !in known {
        return false, seen;
      }
      seen := seen + {row[c]};
    }
    assert row[..|row|] == row;
    ok := true;
  }

  lemma {:induction false} CellsGrow(grid: Grid, r: nat)
    requires r <= |grid|
    ensures Cells(grid[..r]) <= Cells(grid)
    decreases |grid|
  {
    if r == |grid| {
      assert grid[..r] == grid;
    } else {
      assert grid[..|grid| - 1][..r] == grid[..r];
      CellsGrow(grid[..|grid| - 1], r);
    }
  }

  lemma RowAdds(grid: Grid, known: set<string>, count: nat, r: nat)
    requires r < |grid|
    ensures Cells(grid[..r + 1]) == Cells(grid[..r]) + |grid[r]| <= Cells(grid)
    ensures Known(grid[..r + 1], known)
      <==> Known(grid[..r], known) && forall c :: 0 <= c < |grid[r]| ==> grid[r][c] in known
    ensures Known(grid, known) ==> Known(grid[..r + 1], known)
  {
    var more := grid[..r + 1];
    assert more[..r] == grid[..r];
    CellsGrow(grid, r + 1);
    if Known(more, known) {
      forall c | 0 <= c < |grid[r]| ensures grid[r][c] in known {
        assert more[r][c] in known;
      }
      forall y, x | 0 <= y < |grid[..r]| && 0 <= x < |grid[..r][y]| ensures grid[..r][y][x] in known {
        assert more[y][x] in known;
      }
    }
  }

  lemma RowShows(grid: Grid, r: nat)
    requires r < |grid|
    ensures forall pane :: PaneIn(grid[..r + 1], pane) <==> PaneIn(grid[..r], pane) || pane in grid[r]
  {
    forall pane ensures PaneIn(grid[..r + 1], pane) <==> PaneIn(grid[..r], pane) || pane in grid[r] {
      if PaneIn(grid[..r], pane) {
        var y, x :| Shows(grid[..r], y, x, pane);
        assert Shows(grid[..r + 1], y, x, pane);
      }
      if pane in grid[r] {
        var x :| 0 <= x < |grid[r]| && grid[r][x] == pane;
        assert Shows(grid[..r + 1], r, x, pane);
      }
      if PaneIn(grid[..r + 1], pane) {
        var y, x :| Shows(grid[..r + 1], y, x, pane);
        assert y < r ==> Shows(grid[..r], y, x, pane);
      }
    }
  }

  method ValidateLayout(grid: Grid, known: set<string>, rows: Option<seq<real>>, count: nat) returns (ok: bool)
    ensures ok <==> LayoutAccepted(grid, known, rows, count)
  {
    var fits, panes := CheckAreas(grid, known, count);
    if !fits || !Weighted(grid, rows) {
      return false;
    }
    var left := panes;
    while left != {}
      invariant left <= panes
      invariant forall pane :: pane in panes - left ==> Rectangular(grid, pane)
      decreases left
    {
      var pane :| pane in left;
      var box := CheckPane(grid, pane);
      if !box {
        return false;
      }
      left := left - {pane};
    }
    ok := true;
  }

  /** An accepted layout tiles its grid: every cell lies in exactly one pane's box. */
  lemma LayoutIsTiling(grid: Grid, known: set<string>, rows: Option<seq<real>>, count: nat, r: int, c: int)
    requires LayoutAccepted(grid, known, rows, count) && InGrid(grid, r, c)
    ensures exists b :: Tiles(grid, grid[r][c], b) && Inside(b, r, c)
    ensures forall pane, b :: pane != grid[r][c] && Tiles(grid, pane, b) ==> !Inside(b, r, c)
  {
    var pane := grid[r][c];
    assert Shows(grid, r, c, pane);
    assert PaneIn(grid, pane) && Rectangular(grid, pane);
    var b :| Tiles(grid, pane, b);
    assert Inside(b, r, c);
  }

  /** Different panes have disjoint boxes, and one pane has only one. */
  lemma BoxesAreDisjoint(grid: Grid, p: string, q: string, a: Box, b: Box, r: int, c: int)
    requires Tiles(grid, p, a) && Tiles(grid, q, b)
    ensures p != q ==> !(Inside(a, r, c) && Inside(b, r, c))
    ensures p == q ==> a == b
  {
    assert Inside(a, r, c) ==> Shows(grid, r, c, p);
    if p == q {
      assert Inside(a, a.top, a.left) && Inside(a, a.bottom, a.right);
      assert Inside(b, b.top, b.left) && Inside(b, b.bottom, b.right);
      assert Inside(b, a.top, a.left) && Inside(b, a.bottom, a.right);
      assert Inside(a, b.top, b.left) && Inside(a, b.bottom, b.right);
    }
  }
}
