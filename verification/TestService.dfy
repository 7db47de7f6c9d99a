/** The TCP half of the test service, acting on a connection through its public API. */
module TestServices {
  import opened Octets
  import opened Frames
  import opened ConnectionMachine
  import opened TcpConnections
  import P = TestProtocol

  class TestService {
    const maxMessageCount: nat

    constructor (sendTimes: nat)
      ensures maxMessageCount == P.MaxMessageCount(sendTimes) <= MAX_COUNT
      ensures P.Exchanged(sendTimes, maxMessageCount)
    {
      P.BoundIsExchanged(sendTimes);
      maxMessageCount := P.MaxMessageCount(sendTimes);
    }

    /** One fill of the frame under construction. */
    method FillNext(connection: TcpConnection, pack: Bytes, ghost start: Conn<byte>, ghost packs: seq<Bytes>)
      returns (ok: bool)
      requires connection.State() == ApplyAll(start, P.Fills(packs))
      modifies connection
      ensures ok && connection.State() == ApplyAll(start, P.Fills(packs + [pack]))
      ensures connection.userData == old(connection.userData)
    {
      P.FillsConcat(packs, [pack]);
      assert P.Fills([pack]) == [Fill(pack)];
      ApplyAllConcat(start, P.Fills(packs), [Fill(pack)]);
      ApplyAllOne(connection.State(), Fill(pack));
      ok := connection.SendBufferFill(To(pack), |pack|);
    }

    method SendMessage(connection: TcpConnection) returns (ok: bool, sound: bool)
      modifies connection
      ensures var r := P.SendMessage(maxMessageCount, old(connection.userData));
              && connection.State() == ApplyAll(old(connection.State()), r.cb.calls)
              && connection.userData == r.count && ok == r.cb.ok && sound == r.sound
    {
      if maxMessageCount == 0 {
        return true, true;
      }
      var count := connection.userData;
      if count >= maxMessageCount {
        return false, true;
      }
      count := count + 1;
      ghost var start := connection.State();
      var dataLen := 2 + |BLOCK| * count + 1;
      var filled := FillNext(connection, [dataLen / 256 % 256, dataLen % 256], start, []);
      if !filled {
        return false, false;
      }
      ghost var head := [Head(FrameLen(count))];
      ghost var packs := [] + head;
      var index := 0;
      while index < count
        invariant index <= count
        invariant packs == head + Blocks(index)
        invariant connection.State() == ApplyAll(start, P.Fills(packs))
        invariant connection.userData == old(connection.userData)
      {
        filled := FillNext(connection, BLOCK, start, packs);
        if !filled {
          return false, false;
        }
        packs := packs + [BLOCK];
        index := index + 1;
      }
      filled := FillNext(connection, [0], start, packs);
      if !filled {
        return false, false;
      }
      connection.userData := count;
      ok, sound := true, true;
    }

    method CheckMessage(connection: TcpConnection, data: Bytes) returns (ok: bool, sound: bool)
      modifies connection
      ensures var c := Check(maxMessageCount, old(connection.userData), data);
              && ok == c.ok && sound == c.sound && connection.userData == c.count
      ensures connection.State() == old(connection.State())
    {
      var count := connection.userData;
      if count >= maxMessageCount {
        return false, false;
      }
      count := count + 1;
      var needLen := 2 + |BLOCK| * count + 1;
      if needLen != |data| {
        return false, false;
      }
      sound := CheckBlocks(data, count);
      connection.userData := count;
      ok := true;
    }

    /** on_recv */
    method RecvMessage(connection: TcpConnection) returns (ok: bool, sound: bool)
      modifies connection, connection.recvBuffer
      ensures var r := P.OnRecvReply(maxMessageCount, old(connection.userData), old(connection.recvBuffer.unread));
              && connection.State() == ApplyAll(old(connection.State()), r.cb.calls)
              && connection.userData == r.count && ok == r.cb.ok && sound == r.sound
    {
      sound := maxMessageCount != 0;
      var data := connection.recvBuffer.unread;
      if |data| < 2 {
        return true, sound;
      }
      var needLen := (data[0] as int) * 256 + data[1] as int;
      if |data| < needLen {
        ApplyAllOne(connection.State(), Mark(needLen));
        connection.RecvBufferWaterMark(needLen);
        return true, sound;
      }
      ghost var start := connection.State();
      var checked, intact := CheckMessage(connection, data[..needLen]);
      if !checked {
        return false, false;
      }
      sound := sound && intact;
      var dropped := connection.RecvBufferDrop(needLen);
      if !dropped {
        return false, false;
      }
      connection.RecvBufferWaterMark(2);
      ghost var first := [Drop(needLen), Mark(2)];
      DropThenMark(start, needLen, connection.State());
      ApplyAllConcat(start, first, P.SendMessage(maxMessageCount, connection.userData).cb.calls);
      ApplyAllConcat(start, first, [Call.Close]);
      ApplyAllOne(connection.State(), Call.Close);
      var sent, _ := SendMessage(connection);
      if !sent {
        connection.Close();
        return false, sound;
      }
      ok := true;
    }

    lemma DropThenMark(start: Conn<byte>, n: nat, end: Conn<byte>)
      requires end == Apply(Apply(start, Drop(n)), Mark(2))
      ensures end == ApplyAll(start, [Drop(n), Mark(2)])
    {
      assert [Drop(n), Mark(2)][1..] == [Mark(2)];
      ApplyAllOne(Apply(start, Drop(n)), Mark(2));
    }

    /** on_connect; the connection is null when the connect failed */
    method OnConnect(connection: TcpConnection?) returns (ok: bool, sound: bool)
      modifies if connection == null then {} else {connection}
      ensures connection == null ==> !ok && sound
      ensures connection != null ==>
                var r := P.OnConnectReply(maxMessageCount);
                && connection.State() == ApplyAll(old(connection.State()), r.cb.calls)
                && connection.userData == r.count && ok == r.cb.ok && sound == r.sound
    {
      if connection == null {
        return false, true;
      }
      connection.userData := 0;
      ok, sound := SendMessage(connection);
    }

    /** on_accept */
    method OnAccept(connection: TcpConnection) returns (ok: bool, sound: bool)
      modifies connection
      ensures var r := P.OnAcceptReply();
              && connection.State() == ApplyAll(old(connection.State()), r.cb.calls)
              && connection.userData == r.count && ok == r.cb.ok && sound == r.sound
    {
      connection.userData := 0;
      ok, sound := true, true;
    }

    /** on_close */
    method RemoveConnection(connection: TcpConnection) returns (sound: bool)
      ensures sound == P.OnCloseReply(maxMessageCount, connection.userData).sound
    {
      sound := connection.userData >= maxMessageCount;
    }
  }
}
