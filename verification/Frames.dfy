/** The frames of the test protocol: the k-th is a two-byte length, k blocks and a zero byte. */
module Frames {
  import opened Octets

  /** "this is a message\n", as `FrameBytes` shows. */
  const BLOCK: Bytes := [116, 104, 105, 115, 32, 105, 115, 32, 97, 32, 109, 101, 115, 115, 97, 103, 101, 10]

  /** The largest count whose frame length still fits two bytes. */
  const MAX_COUNT: nat := (65536 - 2 - 1) / 18

  function FrameLen(count: nat): nat {
    2 + 18 * count + 1
  }

  /** Two bytes, each truncated to a char. */
  function Head(len: nat): Bytes {
    [len / 256 % 256, len % 256]
  }

  function Blocks(count: nat): (packs: seq<Bytes>)
    ensures |packs| == count
  {
    if count == 0 then [] else Blocks(count - 1) + [BLOCK]
  }

  /** The fills that send the frame, in order. */
  function FramePacks(count: nat): seq<Bytes> {
    [Head(FrameLen(count))] + Blocks(count) + [[0]]
  }

  function Body(count: nat): Bytes {
    Flatten(Blocks(count)) + [0]
  }

  function Frame(count: nat): Bytes {
    Flatten(FramePacks(count))
  }

  /** The length that the first two received bytes announce. */
  function NeedLen(data: Bytes): nat
    requires |data| >= 2
  {
    (data[0] as int) * 256 + data[1] as int
  }

  lemma {:induction false} BlocksLength(count: nat)
    ensures |Flatten(Blocks(count))| == 18 * count
  {
    if count > 0 {
      BlocksLength(count - 1);
      FlattenConcat(Blocks(count - 1), [BLOCK]);
      FlattenOne(BLOCK);
    }
  }

  lemma FrameShape(count: nat)
    ensures Frame(count) == Head(FrameLen(count)) + Body(count)
    ensures |Frame(count)| == FrameLen(count)
  {
    var head := Head(FrameLen(count));
    FlattenConcat([head] + Blocks(count), [[0]]);
    FlattenConcat([head], Blocks(count));
    FlattenOne(head);
    FlattenOne([0]);
    BlocksLength(count);
    assert head + Flatten(Blocks(count)) + [0] == head + Body(count);
  }

  lemma {:induction false} BlocksRepeat(count: nat)
    ensures |Flatten(Blocks(count))| == 18 * count
    ensures forall i | 0 <= i < 18 * count :: Flatten(Blocks(count))[i] == BLOCK[i % 18]
  {
    BlocksLength(count);
    if count > 0 {
      BlocksRepeat(count - 1);
      FlattenConcat(Blocks(count - 1), [BLOCK]);
      FlattenOne(BLOCK);
      BlocksLength(count - 1);
      forall i | 18 * (count - 1) <= i < 18 * count ensures i % 18 == i - 18 * (count - 1) {
        Remainder(i, count - 1);
      }
    }
  }

  lemma Remainder(i: nat, n: nat)
    requires 18 * n <= i < 18 * n + 18
    ensures i % 18 == i - 18 * n
  {
  }

  /** The frame, byte by byte: its length with the high byte first, as far as it fits; the text, once for each
      message counted; and a zero. */
  lemma FrameBytes(count: nat)
    ensures var f := Frame(count);
            && |f| == 2 + 18 * count + 1
            && (f[0] as int) * 256 + f[1] as int == |f| % 65536
            && (forall i | 0 <= i < 18 * count :: f[2 + i] == "this is a message\n"[i % 18] as int)
            && f[|f| - 1] == 0
  {
    FrameShape(count);
    HeadBytes(FrameLen(count));
    BlocksRepeat(count);
    assert forall i | 0 <= i < 18 :: BLOCK[i] == "this is a message\n"[i] as int;
  }

  lemma HeadBytes(len: nat)
    ensures (Head(len)[0] as int) * 256 + Head(len)[1] as int == len % 65536
  {
    var q, r := len / 256, len % 256;
    LowBytes(len, q, r, q / 256, q % 256);
  }

  lemma LowBytes(len: nat, q: nat, r: nat, high: nat, low: nat)
    requires len == 256 * q + r && r < 256 && q == 256 * high + low && low < 256
    ensures len % 65536 == 256 * low + r
  {
    assert len == 65536 * high + (256 * low + r);
  }

  /** The announced length is the frame's length for exactly the counts up to the bound. */
  lemma HeadDecodes(count: nat)
    ensures |Frame(count)| >= 2
    ensures NeedLen(Frame(count)) == |Frame(count)| <==> count <= MAX_COUNT
  {
    FrameShape(count);
    HeadFits(FrameLen(count), Frame(count), Body(count));
    LenFits(count);
  }

  /** Two bytes carry exactly the lengths that fit them. */
  lemma HeadFits(len: nat, data: Bytes, body: Bytes)
    requires data == Head(len) + body
    ensures NeedLen(data) == len <==> len < 65536
  {
    var q, r := len / 256, len % 256;
    assert data[0] == q % 256 && data[1] == r;
    assert len == 256 * q + r;
    assert q == 256 * (q / 256) + q % 256;
  }

  lemma LenFits(count: nat)
    ensures FrameLen(count) < 65536 <==> count <= MAX_COUNT
  {
  }

  /** Two frames are equal only if their counts are. */
  lemma FrameInjective(a: nat, b: nat)
    requires Frame(a) == Frame(b)
    ensures a == b
  {
    FrameShape(a);
    FrameShape(b);
  }

  // ---------------------------------------------------------------- checking a received frame

  /** What check_message leaves behind: its result, whether no assertion failed, the new count. */
  datatype Checked = Checked(ok: bool, sound: bool, count: nat)

  function Check(max: nat, count: nat, data: Bytes): Checked {
    if count >= max || FrameLen(count + 1) != |data| then Checked(false, false, count)
    else Checked(true, data[2..] == Body(count + 1), count + 1)
  }

  /** For data as long as it announces, the check passes exactly when the data is the next frame and
      the bound is not reached; it then advances the count to that frame's number. */
  lemma CheckAcceptsNextFrame(max: nat, count: nat, data: Bytes)
    requires |data| >= 2 && NeedLen(data) == |data|
    ensures var c := Check(max, count, data);
            && (c.ok && c.sound <==> count < max && data == Frame(count + 1))
            && (c.ok ==> c.count == count + 1)
  {
    FrameShape(count + 1);
    var len := |data|;
    assert data == [data[0], data[1]] + data[2..];
    assert len / 256 == data[0] && len % 256 == data[1];
    assert Head(len) == [data[0], data[1]];
    assert Frame(count + 1)[2..] == Body(count + 1);
  }

  /** The comparison loop of check_message, advancing over the data as the code does. */
  method CheckBlocks(data: Bytes, count: nat) returns (sound: bool)
    requires |data| == FrameLen(count)
    ensures sound <==> data[2..] == Body(count)
  {
    var body := data[2..];
    var dataLen := |data| - 2;
    var index := 0;
    sound := true;
    while index < count
      invariant index <= count
      invariant dataLen == 18 * (count - index) + 1
      invariant body == data[2 + 18 * index..]
      invariant sound <==> data[2..2 + 18 * index] == Flatten(Blocks(index))
    {
      BlocksLength(index);
      FlattenConcat(Blocks(index), [BLOCK]);
      FlattenOne(BLOCK);
      SplitCompare(data[2..2 + 18 * (index + 1)], Flatten(Blocks(index)), BLOCK);
      assert data[2..2 + 18 * (index + 1)][..18 * index] == data[2..2 + 18 * index];
      assert data[2..2 + 18 * (index + 1)][18 * index..] == body[..18];
      if body[..18] != BLOCK {
        sound := false;
      }
      body := body[18..];
      dataLen := dataLen - 18;
      index := index + 1;
    }
    BlocksLength(count);
    SplitCompare(data[2..], Flatten(Blocks(count)), [0]);
    assert data[2..][..18 * count] == data[2..2 + 18 * count];
    assert data[2..][18 * count..] == body && body == [body[0]];
    if body[0] != 0 || dataLen != 1 {
      sound := false;
    }
  }

  lemma SplitCompare(data: Bytes, a: Bytes, b: Bytes)
    requires |data| == |a| + |b|
    ensures data == a + b <==> data[..|a|] == a && data[|a|..] == b
  {
    assert data == data[..|a|] + data[|a|..];
    assert (a + b)[..|a|] == a && (a + b)[|a|..] == b;
  }
}
