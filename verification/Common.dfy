/** Small shared vocabulary: optional values and byte strings. */
module Common {

  datatype Option<+T> = None | Some(value: T)

  newtype byte = b: int | 0 <= b < 256
  type bytes = seq<byte>

  const MAX_INTEGER: int := 0x7FFF_FFFF_FFFF_FFFF

  /** All the chunks of a stream, in order. */
  function Concat(chunks: seq<bytes>): bytes {
    if chunks == [] then [] else chunks[0] + Concat(chunks[1..])
  }

  lemma {:induction false} ConcatSplit(a: seq<bytes>, b: seq<bytes>)
    ensures Concat(a + b) == Concat(a) + Concat(b)
  {
    if a == [] {
      assert a + b == b;
    } else {
      assert (a + b)[1..] == a[1..] + b;
      ConcatSplit(a[1..], b);
    }
  }

  lemma ConcatSnoc(a: seq<bytes>, c: bytes)
    ensures Concat(a + [c]) == Concat(a) + c
  {
    ConcatSplit(a, [c]);
    assert Concat([c]) == c + Concat([]);
  }
}
