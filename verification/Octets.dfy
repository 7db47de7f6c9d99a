/** Octets and the packs (byte vectors) that the library queues for sending. */
module Octets {

  type byte = b: int | 0 <= b < 256

  type Bytes = seq<byte>

  /** The octet stream that a sequence of packs stands for. */
  function Flatten(packs: seq<Bytes>): Bytes {
    if packs == [] then [] else packs[0] + Flatten(packs[1..])
  }

  lemma {:induction false} FlattenConcat(a: seq<Bytes>, b: seq<Bytes>)
    ensures Flatten(a + b) == Flatten(a) + Flatten(b)
  {
    if a == [] {
      assert a + b == b;
    } else {
      assert (a + b)[0] == a[0] && (a + b)[1..] == a[1..] + b;
      FlattenConcat(a[1..], b);
    }
  }

  lemma FlattenOne(p: Bytes)
    ensures Flatten([p]) == p
  {
    assert [p][1..] == [];
  }

  lemma Assoc<X>(a: seq<X>, b: seq<X>, c: seq<X>)
    ensures a + b + c == a + (b + c)
  {
  }
}
