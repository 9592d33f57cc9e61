/** Bytes and the small amount of shared vocabulary used by every model file. */
module Bytes {
  newtype byte = x: int | 0 <= x < 256

  /** A 32-bit word is below this. */
  const WORD_LIMIT: nat := 0x1_0000_0000

  datatype Option<+T> = None | Some(value: T)

  /** Concatenation of a list of byte strings, front to back. */
  function Concat(parts: seq<seq<byte>>): (r: seq<byte>)
  {
    if parts == [] then [] else parts[0] + Concat(parts[1..])
  }

  lemma {:induction false} ConcatAppend(a: seq<seq<byte>>, b: seq<seq<byte>>)
    ensures Concat(a + b) == Concat(a) + Concat(b)
  {
    if a == [] {
      assert a + b == b;
    } else {
      ConcatAppend(a[1..], b);
      assert (a + b)[1..] == a[1..] + b;
      assert (a[0] + Concat(a[1..])) + Concat(b) == a[0] + (Concat(a[1..]) + Concat(b));
    }
  }
}
