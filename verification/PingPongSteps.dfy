/** Every move of either party keeps the protocol's invariant. */
module PingPongSteps {
  import opened Octets
  import opened Frames
  import opened ConnectionMachine
  import opened TestProtocol
  import opened PingPong
  import I = ConnectionInvariant

  lemma OffInside(s: Side)
    requires SideInv(s)
    ensures s.off <= |Flatten(Pending(s.conn))|
  {
    if s.conn.queue.deque != [] {
      FrontOfPending(s);
    }
  }

  /** Posting packs puts their bytes behind the backlog. */
  lemma BacklogGrows(s: Side, t: Side, packs: seq<Bytes>)
    requires SideInv(s) && t.off == s.off && t.conn.queue.deque == s.conn.queue.deque
    requires I.Packs(t.conn.posted) == I.Packs(s.conn.posted) + packs
    ensures Backlog(t) == Backlog(s) + Flatten(packs)
  {
    OffInside(s);
    var pending, all := Pending(s.conn), Flatten(Pending(s.conn));
    Assoc(s.conn.queue.deque, I.Packs(s.conn.posted), packs);
    assert Pending(t.conn) == pending + packs;
    FlattenConcat(pending, packs);
    assert (all + Flatten(packs))[s.off..] == all[s.off..] + Flatten(packs);
  }

  lemma NothingOutgoing(s: Side)
    requires Outgoing(s) == []
    ensures s.wire == [] && Backlog(s) == []
  {
  }

  // ---------------------------------------------------------------- starting

  lemma OpenEffect(c: Conn<byte>, packs: seq<Bytes>)
    requires I.Inv(c) && c.stage.Scheduled? && c.setup.service && c.setup.kind.Tcp? && !c.setup.ssl
    requires [] !in packs
    ensures c.posted == [Start]
    ensures var t := RunTask(c, Callback(Fills(packs), true));
            && t.stage.Opened? && t.running && t.setup == c.setup && t.queue == c.queue
            && t.inbox == c.inbox.(reading := 1) && t.posted == Pushes(packs)
  {
    assert c.posted == [Start];
    var s1 := c.(posted := [], running := true, stage := Opened, trace := c.trace + [OpenEvent(c)]);
    ApplyFills(s1, packs);
    assert [] + Pushes(packs) == Pushes(packs);
    assert c.posted[1..] == [];
  }

  lemma StartMove(me: Side, packs: seq<Bytes>)
    requires SideInv(me) && Lively(me) && me.conn.stage.Scheduled? && Outgoing(me) == []
    requires [] !in packs
    ensures me.conn.posted == [Start]
    ensures var t := me.(conn := RunTask(me.conn, Callback(Fills(packs), true)));
            && SideInv(t) && Lively(t) && t.conn.stage.Opened? && t.conn.setup == me.conn.setup
            && t.conn.inbox == me.conn.inbox.(reading := 1) && Outgoing(t) == Flatten(packs)
  {
    var t := me.(conn := RunTask(me.conn, Callback(Fills(packs), true)));
    OpenEffect(me.conn, packs);
    PacksOfPushes(packs);
    I.TaskKeeps(me.conn, Callback(Fills(packs), true));
    NothingOutgoing(me);
    assert I.Packs(me.conn.posted) == [];
    assert [] + packs == packs;
    BacklogGrows(me, t, packs);
    assert [] + Flatten(packs) == Flatten(packs);
  }

  /** What starting the server's connection gives. */
  lemma AcceptMove(max: nat, server: Side)
    requires SideInv(server) && Lively(server) && server.conn.stage.Scheduled? && server.conn.setup.passive
    requires Outgoing(server) == []
    ensures server.conn.posted == [Start]
    ensures var t := server.(conn := RunTask(server.conn, RunReply(max, server).cb));
            && SideInv(t) && Lively(t) && t.conn.stage.Opened? && t.conn.setup == server.conn.setup
            && t.conn.inbox == server.conn.inbox.(reading := 1) && Outgoing(t) == []
  {
    assert Fills([]) == [];
    StartMove(server, []);
  }

  lemma AcceptStarts(max: nat, client: Side, server: Side)
    requires SideInv(server) && server.conn.stage.Scheduled? && server.conn.setup.passive && Can(server, client, Run)
    requires Waiting(max, client, server) || Flying(max, client, server)
    ensures var (me, _, sound) := Act(max, server, client, Run);
            && sound && SideInv(me) && me.conn.setup == server.conn.setup
            && (Waiting(max, client, me) || Flying(max, client, me))
  {
    AcceptMove(max, server);
    var me := server.(conn := RunTask(server.conn, RunReply(max, server).cb));
    assert server.count == 0;
    if Waiting(max, client, server) {
      assert Waiting(max, client, me);
    } else {
      assert Flying(max, client, me);
    }
  }

  /** `t` is the client `s` after its start: the first frame, if any, is on its way. */
  predicate Started(max: nat, s: Side, t: Side) {
    && Lively(t) && t.conn.stage.Opened? && t.conn.setup == s.conn.setup
    && t.conn.inbox == s.conn.inbox.(reading := 1)
    && t.count == (if max == 0 then 0 else 1)
    && Outgoing(t) == (if max == 0 then [] else Frame(1))
  }

  lemma ConnectMove(max: nat, client: Side)
    requires SideInv(client) && Lively(client) && client.conn.stage.Scheduled? && !client.conn.setup.passive
    requires Outgoing(client) == []
    ensures client.conn.posted == [Start]
    ensures var r := RunReply(max, client);
            var t := client.(conn := RunTask(client.conn, r.cb), count := r.count);
            r.sound && SideInv(t) && Started(max, client, t)
  {
    var packs := if max == 0 then [] else FramePacks(1);
    if max > 0 {
      FramePacksNonEmpty(1);
    }
    assert Fills([]) == [];
    StartMove(client, packs);
    assert RunReply(max, client).cb == Callback(Fills(packs), true);
  }

  lemma StartedPhase(max: nat, client: Side, server: Side, me: Side)
    requires Waiting(max, client, server) && Started(max, client, me) && !client.conn.setup.passive
    ensures if max == 0 then Waiting(max, me, server) else Flying(max, me, server)
  {
    FrameShape(1);
    assert [] + Frame(1) == Frame(1);
    if max == 0 {
      assert Waiting(max, me, server);
    } else {
      assert Flying(max, me, server);
    }
  }

  lemma ConnectStarts(max: nat, client: Side, server: Side)
    requires SideInv(client) && client.conn.stage.Scheduled? && !client.conn.setup.passive && Can(client, server, Run)
    requires SideInv(server) && Waiting(max, client, server)
    ensures var (me, _, sound) := Act(max, client, server, Run);
            && sound && SideInv(me) && me.conn.setup == client.conn.setup
            && if max == 0 then Waiting(max, me, server) else Flying(max, me, server)
  {
    ConnectMove(max, client);
    var r := RunReply(max, client);
    StartedPhase(max, client, server, client.(conn := RunTask(client.conn, r.cb), count := r.count));
  }

  // ---------------------------------------------------------------- receiving a frame

  /** `data` is what a read delivers of a frame in flight. */
  lemma PrefixOfFrame(k: nat, unread: Bytes, wire: Bytes, backlog: Bytes, n: nat)
    requires 1 <= k <= MAX_COUNT && unread + (wire + backlog) == Frame(k) && 1 <= n <= |wire|
    ensures var u := unread + wire[..n];
            && u + (wire[n..] + backlog) == Frame(k) && |u| <= FrameLen(k)
            && (|u| >= 2 ==> NeedLen(u) == FrameLen(k))
            && (|u| == FrameLen(k) ==> u == Frame(k) && wire[n..] + backlog == [])
  {
    var u := unread + wire[..n];
    assert wire == wire[..n] + wire[n..];
    Assoc(wire[..n], wire[n..], backlog);
    Assoc(unread, wire[..n], wire[n..] + backlog);
    FrameShape(k);
    HeadDecodes(k);
    if |u| >= 2 {
      assert u[0] == Frame(k)[0] && u[1] == Frame(k)[1];
    }
    if |u| == FrameLen(k) {
      assert u == Frame(k)[..|u|];
    }
  }

  /** A part of the frame: nothing is consumed, and the mark rises to the frame's length as soon as the part reaches it
      and tells the length. */
  lemma PartialRead(max: nat, me: Side, data: Bytes, k: nat)
    requires SideInv(me) && Lively(me) && me.conn.inbox.reading > 0 && max >= 1
    requires var u := me.conn.inbox.unread + data;
             |u| < FrameLen(k) && (|u| >= 2 ==> NeedLen(u) == FrameLen(k))
    ensures var r := ReadReply(max, me, data);
            var u := me.conn.inbox.unread + data;
            var t := me.(conn := HandleRecv(me.conn, true, data, r.cb), count := r.count);
            && r.sound && SideInv(t) && Lively(t) && t.count == me.count
            && t.conn.stage == me.conn.stage && t.conn.setup == me.conn.setup
            && t.conn.inbox.unread == u
            && t.conn.inbox.mark ==
               (if |u| >= 2 && |u| >= me.conn.inbox.mark then FrameLen(k) else me.conn.inbox.mark)
            && t.conn.posted == me.conn.posted && t.conn.queue == me.conn.queue
            && Outgoing(t) == Outgoing(me)
  {
    var r := ReadReply(max, me, data);
    I.RecvKeeps(me.conn, true, data, r.cb);
    var filled := Receive(Idle(me.conn), data);
    if Announced(filled) && |filled.inbox.unread| >= 2 {
      ApplyAllOne(filled.(trace := filled.trace + [OnRecv]), Mark(FrameLen(k)));
    }
  }

  /** `t` is `s` after it has consumed the k-th frame: the next frame is out, or a close is posted. */
  ghost predicate Consumed(max: nat, k: nat, s: Side, t: Side) {
    SideInv(t) && Answered(max, k, s, t)
  }

  predicate Answered(max: nat, k: nat, s: Side, t: Side) {
    && t.conn.stage == s.conn.stage && t.conn.setup == s.conn.setup
    && t.conn.inbox.unread == [] && t.conn.queue == s.conn.queue && t.wire == [] && s.wire == []
    && (if k < max then
          && t.count == k + 1 && Lively(t) && Outgoing(t) == Frame(k + 1) && t.conn.inbox.mark == 2
          && t.conn.posted == s.conn.posted + Pushes(FramePacks(k + 1))
        else
          && t.count == k && Outgoing(t) == [] && t.conn.posted == s.conn.posted + [Stop, Stop])
  }

  /** The last byte of the frame: it is consumed, and the next frame is sent or the end is reached. */
  lemma FrameConsumed(max: nat, me: Side, data: Bytes, k: nat)
    requires SideInv(me) && Lively(me) && me.conn.inbox.reading > 0 && 1 <= k <= max <= MAX_COUNT
    requires me.count == k - 1 && me.conn.inbox.unread + data == Frame(k) && me.conn.inbox.mark <= FrameLen(k)
    requires Outgoing(me) == []
    ensures var r := ReadReply(max, me, data);
            r.sound && Consumed(max, k, me, me.(conn := HandleRecv(me.conn, true, data, r.cb), count := r.count))
  {
    FrameShape(k);
    HeadDecodes(k);
    var frame := Frame(k);
    assert frame[..FrameLen(k)] == frame;
    CheckAcceptsNextFrame(max, k - 1, frame);
    I.RecvKeeps(me.conn, true, data, ReadReply(max, me, data).cb);
    NothingOutgoing(me);
    if k < max {
      FrameAnswered(max, me, data, k);
    } else {
      FrameEnds(max, me, data, k);
    }
  }

  lemma FrameAnswered(max: nat, me: Side, data: Bytes, k: nat)
    requires SideInv(me) && Lively(me) && me.conn.inbox.reading > 0 && Backlog(me) == [] && me.wire == []
    requires var u := me.conn.inbox.unread + data; |u| == FrameLen(k) && me.conn.inbox.mark <= |u|
    ensures var cb := Callback([Drop(FrameLen(k)), Mark(2)] + Fills(FramePacks(k + 1)), true);
            var t := me.(conn := HandleRecv(me.conn, true, data, cb), count := k + 1);
            && Lively(t) && t.conn.stage == me.conn.stage && t.conn.setup == me.conn.setup
            && t.conn.inbox.unread == [] && t.conn.inbox.mark == 2
            && Outgoing(t) == Frame(k + 1) && t.conn.queue == me.conn.queue
            && t.conn.posted == me.conn.posted + Pushes(FramePacks(k + 1))
  {
    var packs := FramePacks(k + 1);
    var cb := Callback([Drop(FrameLen(k)), Mark(2)] + Fills(packs), true);
    var filled := Receive(Idle(me.conn), data);
    FramePacksNonEmpty(k + 1);
    AnswerEffect(filled.(trace := filled.trace + [OnRecv]), k, packs);
    var t := me.(conn := HandleRecv(me.conn, true, data, cb), count := k + 1);
    BacklogGrows(me, t, packs);
    assert [] + ([] + Frame(k + 1)) == Frame(k + 1);
  }

  lemma FrameEnds(max: nat, me: Side, data: Bytes, k: nat)
    requires SideInv(me) && Lively(me) && me.conn.inbox.reading > 0 && Backlog(me) == [] && me.wire == []
    requires var u := me.conn.inbox.unread + data; |u| == FrameLen(k) && me.conn.inbox.mark <= |u|
    ensures var cb := Callback([Drop(FrameLen(k)), Mark(2)] + [Call.Close], false);
            var t := me.(conn := HandleRecv(me.conn, true, data, cb), count := k);
            && t.conn.posted == me.conn.posted + [Stop, Stop]
            && t.conn.stage == me.conn.stage && t.conn.setup == me.conn.setup
            && t.conn.inbox.unread == [] && Outgoing(t) == [] && t.conn.queue == me.conn.queue
  {
    var cb := Callback([Drop(FrameLen(k)), Mark(2)] + [Call.Close], false);
    var filled := Receive(Idle(me.conn), data);
    EndEffect(filled.(trace := filled.trace + [OnRecv]), k);
    var t := me.(conn := HandleRecv(me.conn, true, data, cb), count := k);
    I.PacksPost(me.conn.posted, Stop);
    I.PacksPost(me.conn.posted + [Stop], Stop);
    assert I.Packs(t.conn.posted) == I.Packs(me.conn.posted) + [];
    BacklogGrows(me, t, []);
  }

  lemma DropAndMark(c: Conn<byte>, k: nat, rest: seq<Call>)
    requires c.setup.kind.Tcp? && |c.inbox.unread| == FrameLen(k)
    ensures ApplyAll(c, [Drop(FrameLen(k)), Mark(2)] + rest) ==
            ApplyAll(c.(inbox := c.inbox.(unread := [], mark := 2,
                                          consumed := c.inbox.consumed + c.inbox.unread)), rest)
  {
    var len := FrameLen(k);
    assert c.inbox.unread[len..] == [] && c.inbox.unread[..len] == c.inbox.unread;
    ApplyAllConcat(c, [Drop(len), Mark(2)], rest);
    assert [Drop(len), Mark(2)][1..] == [Mark(2)];
    ApplyAllOne(Apply(c, Drop(len)), Mark(2));
  }

  lemma AnswerEffect(c: Conn<byte>, k: nat, packs: seq<Bytes>)
    requires c.setup.kind.Tcp? && |c.inbox.unread| == FrameLen(k) && [] !in packs
    ensures var t := ApplyAll(c, [Drop(FrameLen(k)), Mark(2)] + Fills(packs));
            && t.inbox.unread == [] && t.inbox.mark == 2 && t.inbox.ended == c.inbox.ended
            && t.posted == c.posted + Pushes(packs) && t.queue == c.queue
            && t.setup == c.setup && t.stage == c.stage && t.running == c.running
            && I.Packs(t.posted) == I.Packs(c.posted) + packs
            && (Stop in t.posted <==> Stop in c.posted)
  {
    DropAndMark(c, k, Fills(packs));
    var d := c.(inbox := c.inbox.(unread := [], mark := 2, consumed := c.inbox.consumed + c.inbox.unread));
    ApplyFills(d, packs);
    PacksOfPushes(packs);
    I.PacksConcat(c.posted, Pushes(packs));
  }

  lemma EndEffect(c: Conn<byte>, k: nat)
    requires c.setup.kind.Tcp? && |c.inbox.unread| == FrameLen(k)
    ensures var t := ApplyAll(c, [Drop(FrameLen(k)), Mark(2)] + [Call.Close]);
            && t.inbox.unread == [] && t.posted == c.posted + [Stop] && t.queue == c.queue
            && t.setup == c.setup && t.stage == c.stage && t.running == c.running
  {
    DropAndMark(c, k, [Call.Close]);
    var d := c.(inbox := c.inbox.(unread := [], mark := 2, consumed := c.inbox.consumed + c.inbox.unread));
    ApplyAllOne(d, Call.Close);
  }

  // ---------------------------------------------------------------- phases

  lemma UnmovedKeepsSender(max: nat, client: Side, server: Side, t: Side)
    requires Unmoved(client, t) && Phase(max, client, server)
    ensures Phase(max, t, server)
  {
    if Waiting(max, client, server) {
      assert Waiting(max, t, server);
    } else if Flying(max, client, server) {
      assert Flying(max, t, server);
    } else if Flying(max, server, client) {
      assert Flying(max, server, t);
    } else if Landed(max, client, server) {
      assert Landed(max, t, server);
    } else {
      assert Landed(max, server, t);
    }
  }

  lemma UnmovedKeepsServer(max: nat, client: Side, server: Side, t: Side)
    requires Unmoved(server, t) && Phase(max, client, server)
    ensures Phase(max, client, t)
  {
    if Waiting(max, client, server) {
      assert Waiting(max, client, t);
    } else if Flying(max, client, server) {
      assert Flying(max, client, t);
    } else if Flying(max, server, client) {
      assert Flying(max, t, client);
    } else if Landed(max, client, server) {
      assert Landed(max, client, t);
    } else {
      assert Landed(max, t, client);
    }
  }

  /** The last frame has been consumed by one of the two. */
  ghost predicate Over(max: nat, a: Side, b: Side) {
    Landed(max, a, b) || Landed(max, b, a)
  }

  /** A step that only brings the close nearer: a stop handler, or an operation that fails. */
  ghost predicate Closing(s: Side, t: Side) {
    && SideInv(t) && t.count == s.count && t.conn.setup == s.conn.setup && t.conn.stage == s.conn.stage
    && t.conn.inbox.unread == s.conn.inbox.unread && Outgoing(t) == Outgoing(s)
    && (StopDue(s) ==> StopDue(t))
  }

  lemma ClosingKeepsOver(max: nat, me: Side, peer: Side, t: Side)
    requires Over(max, me, peer) && Closing(me, t)
    ensures Over(max, t, peer)
  {
    if Landed(max, me, peer) {
      assert Landed(max, t, peer);
    } else {
      assert Landed(max, peer, t);
    }
  }

  lemma StopMove(s: Side)
    requires SideInv(s) && s.conn.posted != [] && s.conn.posted[0] == Stop
    ensures Closing(s, s.(conn := RunTask(s.conn, Callback([], true))))
  {
    I.StopKeeps(s.conn, Callback([], true));
    StoppedTask(s.conn);
  }

  lemma StoppedTask(c: Conn<byte>)
    requires c.posted != [] && c.posted[0] == Stop
    ensures var t := RunTask(c, Callback([], true));
            && t.setup == c.setup && t.stage == c.stage && !t.running && t.inbox == c.inbox && t.queue == c.queue
            && Pending(t) == Pending(c)
  {
    assert I.Packs(c.posted) == I.Packs(c.posted[1..]);
  }

  lemma WriteFails(s: Side)
    requires SideInv(s) && s.conn.queue.outstanding != []
    ensures Closing(s, s.(conn := HandleSend(s.conn, false, Callback([], true))))
  {
    I.SendKeeps(s.conn, false, Callback([], true));
    I.PacksPost(s.conn.posted, Stop);
    assert Pending(HandleSend(s.conn, false, Callback([], true))) == Pending(s.conn);
  }

  lemma ReadFails(s: Side)
    requires SideInv(s) && s.conn.inbox.reading > 0
    ensures Closing(s, s.(conn := HandleRecv(s.conn, false, [], Callback([], true))))
  {
    I.RecvKeeps(s.conn, false, [], Callback([], true));
    I.PacksPost(s.conn.posted, Stop);
    assert Pending(HandleRecv(s.conn, false, [], Callback([], true))) == Pending(s.conn);
  }

  /** A close is due, or an operation may fail, only after the last frame. */
  lemma NoCloseBeforeTheEnd(max: nat, client: Side, server: Side)
    requires Phase(max, client, server)
    requires StopDue(client) || StopDue(server)
    ensures Over(max, client, server)
  {
  }

  // ---------------------------------------------------------------- one move of the receiving party

  lemma ReceiverReadsPart(max: nat, s: Side, r: Side, peer: Side, data: Bytes)
    requires SideInv(r) && Flying(max, s, r) && r.conn.inbox.reading > 0
    requires peer == s.(wire := peer.wire) && r.conn.inbox.unread + data + Outgoing(peer) == Frame(s.count)
    requires var u := r.conn.inbox.unread + data;
             |u| < FrameLen(s.count) && (|u| >= 2 ==> NeedLen(u) == FrameLen(s.count))
    ensures var reply := ReadReply(max, r, data);
            var me := r.(conn := HandleRecv(r.conn, true, data, reply.cb), count := reply.count);
            reply.sound && SideInv(me) && me.conn.setup == r.conn.setup && Flying(max, peer, me)
  {
    PartialRead(max, r, data, s.count);
  }

  /** The parties have changed roles: frame k + 1 flies from `me` to `peer`. */
  lemma TurnPhase(max: nat, k: nat, me: Side, peer: Side)
    requires 1 <= k < max && me.count == k + 1 && peer.count == k
    requires Lively(me) && Lively(peer) && me.conn.stage.Opened? && peer.conn.stage.Opened?
    requires me.conn.inbox.unread == [] && me.conn.inbox.mark == 2 && Outgoing(me) == Frame(k + 1)
    requires peer.conn.inbox.unread == [] && peer.conn.inbox.mark in {1, 2} && Outgoing(peer) == []
    requires (k % 2 == 1) == me.conn.setup.passive
    ensures Flying(max, me, peer)
  {
    NothingBefore(Outgoing(me));
    OtherParity(k);
  }

  lemma NothingBefore(data: Bytes)
    ensures [] + data == data
  {
  }

  lemma OtherParity(k: nat)
    ensures (k + 1) % 2 == 1 <==> k % 2 == 0
  {
  }

  /** The last frame has landed. */
  lemma LandedPhase(max: nat, s: Side, r: Side, peer: Side, me: Side)
    requires Flying(max, s, r) && r.conn.stage.Opened?
    requires peer == s.(wire := peer.wire) && Outgoing(peer) == []
    requires s.count == max && Consumed(max, s.count, r, me)
    ensures Landed(max, me, peer)
  {
  }

  lemma ReceiverReadsEnd(max: nat, s: Side, r: Side, peer: Side, data: Bytes)
    requires max <= MAX_COUNT && SideInv(r) && Flying(max, s, r) && r.conn.inbox.reading > 0
    requires r.conn.setup.passive != s.conn.setup.passive
    requires peer == s.(wire := peer.wire) && Outgoing(peer) == []
    requires r.conn.inbox.unread + data == Frame(s.count)
    ensures var reply := ReadReply(max, r, data);
            var me := r.(conn := HandleRecv(r.conn, true, data, reply.cb), count := reply.count);
            && reply.sound && SideInv(me) && me.conn.setup == r.conn.setup
            && if s.count < max then Flying(max, me, peer) else Landed(max, me, peer)
  {
    var reply := ReadReply(max, r, data);
    FrameConsumed(max, r, data, s.count);
    InvOpened(r);
    ConsumedPhase(max, s, r, peer, r.(conn := HandleRecv(r.conn, true, data, reply.cb), count := reply.count));
  }

  lemma ConsumedPhase(max: nat, s: Side, r: Side, peer: Side, me: Side)
    requires Flying(max, s, r) && r.conn.stage.Opened? && r.conn.setup.passive != s.conn.setup.passive
    requires peer == s.(wire := peer.wire) && Outgoing(peer) == []
    requires Consumed(max, s.count, r, me)
    ensures if s.count < max then Flying(max, me, peer) else Landed(max, me, peer)
  {
    if s.count < max {
      TurnPhase(max, s.count, me, peer);
    } else {
      LandedPhase(max, s, r, peer, me);
    }
  }

  /** Only an open connection reads. */
  lemma InvOpened(s: Side)
    requires SideInv(s) && s.conn.inbox.reading > 0
    ensures s.conn.stage.Opened?
  {
  }

  /** A read by the party the frame is flying to. */
  lemma ReceiverReads(max: nat, s: Side, r: Side, n: nat)
    requires max <= MAX_COUNT && SideInv(s) && SideInv(r) && Flying(max, s, r) && Can(r, s, Read(true, n))
    requires r.conn.setup.passive != s.conn.setup.passive
    ensures var (me, peer, sound) := Act(max, r, s, Read(true, n));
            && sound && SideInv(me) && SideInv(peer)
            && me.conn.setup == r.conn.setup && peer.conn.setup == s.conn.setup
            && (Flying(max, peer, me) || Flying(max, me, peer) || Landed(max, me, peer))
  {
    var data := s.wire[..n];
    var peer := s.(wire := s.wire[n..]);
    PrefixOfFrame(s.count, r.conn.inbox.unread, s.wire, Backlog(s), n);
    assert Outgoing(peer) == s.wire[n..] + Backlog(s);
    if |r.conn.inbox.unread + data| < FrameLen(s.count) {
      ReceiverReadsPart(max, s, r, peer, data);
    } else {
      ReceiverReadsEnd(max, s, r, peer, data);
    }
  }
}
