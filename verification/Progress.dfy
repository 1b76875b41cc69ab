/** Capture progress (`runner_progress`): what runners may report about actions, and what is counted. */
module Progress {

  /** An action of the plan: its beat and its own identity. */
  datatype Key = Key(beat: string, action: string)

  datatype Kind = Started | Completed | Unsupported
  datatype Call = Call(kind: Kind, key: Key)

  datatype Tally = Tally(started: set<Key>, completed: set<Key>, count: nat)

  const NothingYet := Tally({}, {}, 0)

  predicate Accepts(known: set<Key>, t: Tally, c: Call) {
    c.key in known &&
      match c.kind
      case Started => c.key !in t.started
      case Completed => c.key in t.started && c.key !in t.completed
      case Unsupported => false
  }

  /** A refused report raises and changes nothing. */
  function After(known: set<Key>, t: Tally, c: Call): Tally {
    if !Accepts(known, t, c) then t
    else if c.kind.Started? then Tally(t.started + {c.key}, t.completed, t.count)
    else Tally(t.started, t.completed + {c.key}, t.count + 1)
  }

  function RunOf(known: set<Key>, calls: seq<Call>): Tally
    decreases |calls|
  {
    if calls == [] then NothingYet else After(known, RunOf(known, calls[..|calls| - 1]), calls[|calls| - 1])
  }

  /** The report at `i` was accepted where it was made. */
  predicate AcceptedAt(known: set<Key>, calls: seq<Call>, i: nat)
    requires i < |calls|
  {
    Accepts(known, RunOf(known, calls[..i]), calls[i])
  }

  predicate Sound(known: set<Key>, t: Tally) {
    t.completed <= t.started <= known && t.count == |t.completed|
  }

  lemma {:induction false} RunSound(known: set<Key>, calls: seq<Call>)
    ensures Sound(known, RunOf(known, calls))
    decreases |calls|
  {
    if calls != [] {
      RunSound(known, calls[..|calls| - 1]);
    }
  }

  lemma {:induction false} RunGrows(known: set<Key>, calls: seq<Call>, i: nat)
    requires i <= |calls|
    ensures RunOf(known, calls[..i]).started <= RunOf(known, calls).started
    ensures RunOf(known, calls[..i]).completed <= RunOf(known, calls).completed
    decreases |calls|
  {
    if i == |calls| {
      assert calls[..i] == calls;
    } else {
      var front := calls[..|calls| - 1];
      assert front[..i] == calls[..i];
      RunGrows(known, front, i);
    }
  }

  lemma AcceptedStays(known: set<Key>, calls: seq<Call>, i: nat, j: nat)
    requires i < j <= |calls| && AcceptedAt(known, calls, i)
    ensures calls[i].kind.Started? ==> calls[i].key in RunOf(known, calls[..j]).started
    ensures calls[i].kind.Completed? ==> calls[i].key in RunOf(known, calls[..j]).completed
  {
    assert calls[..i + 1][..i] == calls[..i] && calls[..i + 1][i] == calls[i];
    assert calls[..j][..i + 1] == calls[..i + 1];
    RunGrows(known, calls[..j], i + 1);
  }

  /** No action is started or completed twice. */
  lemma EachOnce(known: set<Key>, calls: seq<Call>, i: nat, j: nat)
    requires i < j < |calls| && AcceptedAt(known, calls, i) && AcceptedAt(known, calls, j)
    requires calls[i].kind == calls[j].kind
    ensures calls[i].key != calls[j].key
  {
    AcceptedStays(known, calls, i, j);
  }

  /** Such a report was made and accepted. */
  ghost predicate Took(known: set<Key>, calls: seq<Call>, c: Call) {
    exists i :: 0 <= i < |calls| && AcceptedAt(known, calls, i) && calls[i] == c
  }

  lemma TookSnoc(known: set<Key>, front: seq<Call>, last: Call, c: Call)
    ensures Took(known, front + [last], c)
      <==> Took(known, front, c) || (last == c && Accepts(known, RunOf(known, front), c))
  {
    var calls := front + [last];
    forall i | 0 <= i < |front| ensures calls[..i] == front[..i] && calls[i] == front[i] {
    }
    assert calls[..|front|] == front;
    if Took(known, front, c) {
      var i :| 0 <= i < |front| && AcceptedAt(known, front, i) && front[i] == c;
      assert AcceptedAt(known, calls, i) && calls[i] == c;
    }
    if last == c && Accepts(known, RunOf(known, front), c) {
      assert AcceptedAt(known, calls, |front|) && calls[|front|] == c;
    }
    if Took(known, calls, c) {
      var i :| 0 <= i < |calls| && AcceptedAt(known, calls, i) && calls[i] == c;
      assert i < |front| ==> AcceptedAt(known, front, i);
    }
  }

  /** An action is in the started or completed set exactly when such a report was accepted. */
  lemma {:induction false} SetsAreAccepted(known: set<Key>, calls: seq<Call>, k: Key)
    ensures k in RunOf(known, calls).started <==> Took(known, calls, Call(Started, k))
    ensures k in RunOf(known, calls).completed <==> Took(known, calls, Call(Completed, k))
    decreases |calls|
  {
    if calls != [] {
      var front, last := calls[..|calls| - 1], calls[|calls| - 1];
      assert calls == front + [last];
      SetsAreAccepted(known, front, k);
      TookSnoc(known, front, last, Call(Started, k));
      TookSnoc(known, front, last, Call(Completed, k));
    }
  }

  /** Every completed action was started by an earlier accepted report. */
  lemma CompletedAfterStarted(known: set<Key>, calls: seq<Call>, j: nat)
    requires j < |calls| && AcceptedAt(known, calls, j) && calls[j].kind.Completed?
    ensures Took(known, calls[..j], Call(Started, calls[j].key))
  {
    SetsAreAccepted(known, calls[..j], calls[j].key);
  }

  class Reporter {
    const known: set<Key>
    var started: set<Key>
    var completed: set<Key>
    var count: nat

    ghost function View(): Tally
      reads this
    {
      Tally(started, completed, count)
    }

    constructor (known: set<Key>)
      ensures View() == NothingYet && this.known == known
    {
      this.known, started, completed, count := known, {}, {}, 0;
    }

    /** One report; the callback is told the number of actions completed so far. */
    method Report(c: Call) returns (ok: bool, told: nat)
      modifies this
      ensures ok == Accepts(known, old(View()), c) && View() == After(known, old(View()), c)
      ensures told == count
    {
      ok, told := false, count;
      if c.key !in known || c.kind.Unsupported? {
        return;
      }
      if c.kind.Started? {
        if c.key in started {
          return;
        }
        started := started + {c.key};
      }
      if c.kind.Completed? {
        if c.key !in started || c.key in completed {
          return;
        }
        completed := completed + {c.key};
        count := count + 1;
      }
      ok, told := true, count;
    }
  }
}
