/** Evidence sinks that may write short or fail, and the loop that writes a whole value (`_write_all`). */
module Evidence {
  import opened Common

  /** What a sink answers to one write or flush: a reported byte count, or an error. */
  datatype SinkAnswer = Took(count: int) | Errored

  /** The outcome of a whole write: how many bytes the sink kept, and whether the write succeeded. */
  datatype Written = Written(kept: nat, ok: bool)

  predicate Usable(a: SinkAnswer, remaining: nat) { a.Took? && 0 < a.count <= remaining }

  /** What any sink does to `n` bytes, given the answers it will give. An exhausted script errs. */
  function Outcome(script: seq<SinkAnswer>, n: nat): (w: Written)
    ensures w.kept <= n
    ensures w.ok ==> w.kept == n
  {
    if script == [] then Written(0, false)
    else if n == 0 then Written(0, script[0].Took?)
    else if !Usable(script[0], n) then Written(0, false)
    else
      var rest := Outcome(script[1..], n - script[0].count);
      Written(script[0].count + rest.kept, rest.ok)
  }

  class Sink {
    var contents: bytes
    var script: seq<SinkAnswer>

    constructor (script: seq<SinkAnswer>)
      ensures contents == [] && this.script == script
    {
      contents, this.script := [], script;
    }

    /** One call of the sink's own write; it keeps exactly the bytes it reports. */
    method Write(data: bytes) returns (answer: SinkAnswer)
      modifies this
      ensures answer == if old(script) == [] then Errored else old(script)[0]
      ensures script == if old(script) == [] then [] else old(script)[1..]
      ensures contents == if Usable(answer, |data|) then old(contents) + data[..answer.count] else old(contents)
    {
      if script == [] {
        return Errored;
      }
      answer, script := script[0], script[1..];
      if Usable(answer, |data|) {
        contents := contents + data[..answer.count];
      }
    }

    /** The sink always holds a prefix of the value, and all of it when the write succeeds. */
    method WriteAll(data: bytes) returns (ok: bool)
      modifies this
      ensures ok == Outcome(old(script), |data|).ok
      ensures contents == old(contents) + data[..Outcome(old(script), |data|).kept]
    {
      var remaining := data;
      ghost var base, done: nat := contents, 0;
      WholeSplit(base, data);
      while remaining != []
        invariant done <= |data| && remaining == data[done..] && contents == base + data[..done]
        invariant Outcome(old(script), |data|) == Further(done, Outcome(script, |remaining|))
        decreases |remaining|
      {
        var some := WriteSome(remaining);
        if some.None? {
          return false;
        }
        ChunksJoin(base, data, done, some.value);
        remaining, done := remaining[some.value..], done + some.value;
      }
      ok := Flush();
      WholeSplit(base, data);
    }

    /** One short write of a value that is not empty. */
    method WriteSome(data: bytes) returns (some: Option<nat>)
      requires data != []
      modifies this
      ensures some.None? ==> Outcome(old(script), |data|) == Written(0, false) && contents == old(contents)
      ensures some.Some? ==> 0 < some.value <= |data| && contents == old(contents) + data[..some.value]
      ensures some.Some? ==> Outcome(old(script), |data|) == Further(some.value, Outcome(script, |data| - some.value))
    {
      OutcomeStep(script, |data|);
      var answer := Write(data);
      some := if Usable(answer, |data|) then Some(answer.count) else None;
    }

    method Flush() returns (ok: bool)
      modifies this
      ensures contents == old(contents) && Outcome(old(script), 0) == Written(0, ok)
    {
      var flush := Write([]);
      ok := flush.Took?;
    }
  }

  /** An outcome that comes on top of `done` bytes. */
  function Further(done: nat, w: Written): Written { Written(done + w.kept, w.ok) }

  lemma OutcomeStep(script: seq<SinkAnswer>, n: nat)
    requires n > 0
    ensures script != [] && Usable(script[0], n) ==>
      Outcome(script, n) == Further(script[0].count, Outcome(script[1..], n - script[0].count))
    ensures script == [] || !Usable(script[0], n) ==> Outcome(script, n) == Written(0, false)
  {
  }

  lemma WholeSplit(base: bytes, data: bytes)
    ensures data[0..] == data && base + data[..0] == base && data[..|data|] == data
  {
  }

  lemma ChunksJoin(base: bytes, data: bytes, done: nat, count: nat)
    requires done + count <= |data|
    ensures (base + data[..done]) + data[done..][..count] == base + data[..done + count]
    ensures data[done..][count..] == data[done + count..]
  {
    assert data[..done] + data[done..][..count] == data[..done + count];
  }

  /** However short the individual writes are, the outcome depends only on whether they all succeed. */
  lemma {:induction false} ShortWritesSuffice(script: seq<SinkAnswer>, n: nat)
    requires |script| > n
    requires forall k :: 0 <= k < |script| ==> script[k] == Took(1)
    ensures Outcome(script, n) == Written(n, true)
  {
    if n > 0 {
      ShortWritesSuffice(script[1..], n - 1);
    }
  }
}
