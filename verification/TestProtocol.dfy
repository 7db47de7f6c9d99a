/** The replies of the test service to the connection's callbacks. */
module TestProtocol {
  import opened Octets
  import opened Frames
  import opened ConnectionMachine
  import I = ConnectionInvariant

  /** What one callback does: its calls and result, the count it leaves in user_data, and whether no
      assertion failed. */
  datatype Reply = Reply(cb: Callback, count: nat, sound: bool)

  /** One fill for each pack. */
  function Fills(packs: seq<Bytes>): seq<Call> {
    if packs == [] then [] else [Fill(packs[0])] + Fills(packs[1..])
  }

  function MaxMessageCount(sendTimes: nat): nat {
    if sendTimes <= MAX_COUNT then sendTimes else MAX_COUNT
  }

  /** `count` is the number of messages to exchange when `sendTimes` were asked for: all of them if the last frame's
      length fits two bytes, and otherwise the most whose does. */
  predicate Exchanged(sendTimes: nat, count: nat) {
    if FrameLen(sendTimes) < 65536 then count == sendTimes
    else count < sendTimes && FrameLen(count) < 65536 <= FrameLen(count + 1)
  }

  lemma BoundIsExchanged(sendTimes: nat)
    ensures Exchanged(sendTimes, MaxMessageCount(sendTimes))
    ensures MaxMessageCount(sendTimes) <= sendTimes && (MaxMessageCount(sendTimes) == 0 <==> sendTimes == 0)
  {
  }

  function SendMessage(max: nat, count: nat): Reply {
    if max == 0 then Reply(Callback([], true), count, true)
    else if count >= max then Reply(Callback([], false), count, true)
    else Reply(Callback(Fills(FramePacks(count + 1)), true), count + 1, true)
  }

  function OnConnectReply(max: nat): Reply {
    SendMessage(max, 0)
  }

  function OnAcceptReply(): Reply {
    Reply(Callback([], true), 0, true)
  }

  function OnCloseReply(max: nat, count: nat): Reply {
    Reply(Callback([], true), count, count >= max)
  }

  function OnRecvReply(max: nat, count: nat, unread: Bytes): Reply {
    if |unread| < 2 then
      Reply(Callback([], true), count, max != 0)
    else if |unread| < NeedLen(unread) then
      Reply(Callback([Mark(NeedLen(unread))], true), count, max != 0)
    else
      var need := NeedLen(unread);
      var checked := Check(max, count, unread[..need]);
      if !checked.ok then
        Reply(Callback([], false), checked.count, false)
      else
        var sent := SendMessage(max, checked.count);
        Reply(Callback([Drop(need), Mark(2)] + (if sent.cb.ok then sent.cb.calls else [Close]), sent.cb.ok),
              sent.count, max != 0 && checked.sound)
  }

  // ---------------------------------------------------------------- what runs of calls do

  lemma {:induction false} FillsConcat(a: seq<Bytes>, b: seq<Bytes>)
    ensures Fills(a + b) == Fills(a) + Fills(b)
  {
    if a == [] {
      assert a + b == b;
    } else {
      assert (a + b)[0] == a[0] && (a + b)[1..] == a[1..] + b;
      FillsConcat(a[1..], b);
    }
  }

  function Pushes(packs: seq<Bytes>): seq<Task> {
    if packs == [] then [] else [Push(packs[0])] + Pushes(packs[1..])
  }

  lemma {:induction false} PacksOfPushes(packs: seq<Bytes>)
    ensures I.Packs(Pushes(packs)) == packs && |Pushes(packs)| == |packs|
    ensures forall t | t in Pushes(packs) :: t.Push?
  {
    if packs != [] {
      PacksOfPushes(packs[1..]);
      assert Pushes(packs)[1..] == Pushes(packs[1..]);
    }
  }

  /** Filling non-empty packs posts and accepts them in order. */
  lemma {:induction false} ApplyFills<T>(s: Conn<T>, packs: seq<Bytes>)
    requires s.setup.kind.Tcp? && [] !in packs
    ensures ApplyAll(s, Fills(packs)) == s.(posted := s.posted + Pushes(packs), accepted := s.accepted + packs)
    decreases |packs|
  {
    if packs == [] {
      assert s.posted + [] == s.posted && s.accepted + [] == s.accepted;
    } else {
      var s1 := Apply(s, Fill(packs[0]));
      assert Fills(packs)[0] == Fill(packs[0]) && Fills(packs)[1..] == Fills(packs[1..]);
      ApplyFills(s1, packs[1..]);
      Assoc(s.posted, [Push(packs[0])], Pushes(packs[1..]));
      Assoc(s.accepted, [packs[0]], packs[1..]);
      assert packs == [packs[0]] + packs[1..];
      assert s1.posted == s.posted + [Push(packs[0])] && s1.accepted == s.accepted + [packs[0]];
    }
  }

  lemma {:induction false} BlocksNonEmpty(count: nat)
    ensures [] !in Blocks(count)
  {
    if count > 0 {
      BlocksNonEmpty(count - 1);
    }
  }

  lemma FramePacksNonEmpty(count: nat)
    ensures [] !in FramePacks(count) && |FramePacks(count)| == count + 2
  {
    BlocksNonEmpty(count);
  }
}
