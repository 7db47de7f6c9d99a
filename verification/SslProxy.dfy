/** The proxy's callbacks, acting on connections through their public API and on the pairs they share.
    A pair is known by its address, the number kept as user data; 0 is the null pointer. Deleting a pair
    removes it from the table of live pairs. */
module SslProxies {
  import opened ConnectionMachine
  import opened ProxyMachine
  import opened TcpConnections

  class ConnectionPair {
    var src: TcpConnection?
    var dst: TcpConnection?

    constructor ()
      ensures src == null && dst == null
    {
      src, dst := null, null;
    }

    function Ends(): Ends
      reads this
    {
      ProxyMachine.Ends.Ends(src != null, dst != null)
    }

    /** The two connections share nothing. */
    predicate Apart()
      reads this
    {
      src != null && dst != null ==> src != dst && src.recvBuffer != dst.recvBuffer
    }

    function Holds(connection: TcpConnection): bool
      reads this
    {
      src == connection || dst == connection
    }

    function Peer(connection: TcpConnection): TcpConnection?
      reads this
    {
      if src == connection then dst else src
    }

    /** What a callback of `connection` may change of the other one. */
    ghost function PeerFrame(connection: TcpConnection): set<object>
      reads this
    {
      var peer := Peer(connection);
      if Holds(connection) && peer != null then {peer} else {}
    }
  }

  class SslProxy {
    var pairs: map<nat, ConnectionPair>

    constructor ()
      ensures pairs == map[]
    {
      pairs := map[];
    }

    /** A null pointer, or one to a pair that has not been deleted. */
    predicate Live(id: nat)
      reads this, if id in pairs then {pairs[id]} else {}
    {
      id != 0 ==> id in pairs && pairs[id].Apart()
    }

    ghost function PairFrame(id: nat): set<object>
      reads this
    {
      if id != 0 && id in pairs then {pairs[id]} else {}
    }

    ghost function PeerFrame(connection: TcpConnection): set<object>
      reads this, connection, PairFrame(connection.userData)
    {
      if connection.userData != 0 && connection.userData in pairs then pairs[connection.userData].PeerFrame(connection)
      else {}
    }

    /** `id` is the address of the new pair, `created` the result of asking for the destination. */
    method OnAccept(connection: TcpConnection, id: nat, created: bool) returns (ok: bool)
      requires id != 0 && id !in pairs
      modifies this, connection
      ensures ok == OnAcceptReaction(created).own.ok
      ensures connection.State() == old(connection.State())
      ensures pairs.Keys == old(pairs.Keys) + (if created then {id} else {})
      ensures forall i | i in old(pairs) :: pairs[i] == old(pairs)[i]
      ensures created ==> fresh(pairs[id]) && pairs[id].src == connection
      ensures created ==> pairs[id].Ends() == OnAcceptReaction(true).ends
      ensures connection.userData == if created then id else old(connection.userData)
    {
      var pair := new ConnectionPair();
      pair.src := connection;
      pairs := pairs[id := pair];
      if created {
        connection.userData := id;
        ok := true;
      } else {
        pairs := pairs - {id};
        ok := false;
      }
    }

    method OnRecv(connection: TcpConnection?) returns (ok: bool)
      requires connection != null ==> Live(connection.userData)
      modifies if connection != null then {connection, connection.recvBuffer} + PeerFrame(connection) else {}
      ensures connection == null ==> !ok
      ensures connection != null ==> connection.userData == old(connection.userData)
      ensures connection != null ==>
                if connection.userData == 0 || !old(pairs[connection.userData].Holds(connection)) then
                  !ok && connection.State() == old(connection.State())
                else
                  var pair := pairs[connection.userData];
                  var x := OnRecvReaction(pair.Ends(), pair.src == connection, old(connection.recvBuffer.unread));
                  && ok == x.own.ok
                  && connection.State() == ApplyAll(old(connection.State()), x.own.calls)
                  && (pair.Peer(connection) != null ==>
                        && pair.Peer(connection).State() == ApplyAll(old(pair.Peer(connection).State()), x.other)
                        && pair.Peer(connection).userData == old(pair.Peer(connection).userData))
    {
      if connection == null {
        return false;
      }
      if connection.userData == 0 {
        return false;
      }
      var pair := pairs[connection.userData];
      var sendConnection: TcpConnection?;
      if pair.src == connection {
        sendConnection := pair.dst;
      } else if pair.dst == connection {
        sendConnection := pair.src;
      } else {
        return false;
      }
      if sendConnection == null {
        return true;
      }
      ghost var wasSelf, wasOther := connection.State(), sendConnection.State();
      var data := connection.recvBuffer.unread;
      var size := connection.recvBuffer.Size();
      ApplyAllOne(wasOther, Fill(data));
      ApplyAllOne(wasSelf, Drop(size));
      var filled := sendConnection.SendBufferFill(To(data), size);
      if !filled {
        return false;
      }
      var dropped := connection.RecvBufferDrop(size);
      if !dropped {
        return false;
      }
      ok := true;
    }

    /** What on_connect may change: the pair, and the source it relays from or closes. */
    ghost function ConnectFrame(connection: TcpConnection?, identity: nat): set<object>
      reads this, PairFrame(identity)
    {
      (if connection != null then {connection} else {}) +
      if identity != 0 && identity in pairs then
        var src := pairs[identity].src;
        {pairs[identity]} + (if src != null then {src, src.recvBuffer} else {})
      else {}
    }

    /** `connection` is null when the connect failed, and otherwise not shared with the source. A source that
        does not carry the pair yet is not relayed from, and the new connection is refused. */
    method OnConnect(connection: TcpConnection?, identity: nat) returns (ok: bool)
      requires Live(identity)
      requires identity != 0 && pairs[identity].src != null ==>
                 var src := pairs[identity].src;
                 && (src.userData == 0 || src.userData == identity)
                 && (connection != null ==> src != connection && src.recvBuffer != connection.recvBuffer)
      modifies ConnectFrame(connection, identity)
      ensures identity == 0 ==>
                !ok && (connection != null ==> connection.State() == old(connection.State()))
      ensures identity != 0 ==>
                var pair := pairs[identity];
                var src := pair.src;
                var x := if connection != null &&
                            old(pairs[identity].src != null && pairs[identity].src.userData == 0) then
                           Nothing(ProxyMachine.Ends.Ends(true, true), false)
                         else
                           OnConnectReaction(old(pairs[identity].Ends()), connection != null,
                                             if old(pairs[identity].src) == null then []
                                             else old(pairs[identity].src.recvBuffer.unread));
                && src == old(pairs[identity].src) && ok == x.own.ok
                && (connection != null ==>
                      && pair.dst == connection && connection.userData == identity
                      && pair.Ends() == x.ends
                      && connection.State() == ApplyAll(old(connection.State()), x.own.calls))
                && (connection == null ==> pair.dst == old(pairs[identity].dst))
                && (src != null ==>
                      && src.State() == ApplyAll(old(pairs[identity].src.State()), x.other)
                      && src.userData == old(pairs[identity].src.userData))
    {
      if identity == 0 {
        return false;
      }
      var pair := pairs[identity];
      if connection != null {
        connection.userData := identity;
        pair.dst := connection;
        ok := OnRecv(pair.src);
      } else {
        var srcConnection := pair.src;
        if srcConnection != null {
          ApplyAllOne(srcConnection.State(), Call.Close);
          srcConnection.Close();
        }
        ok := false;
      }
    }

    method OnClose(connection: TcpConnection?)
      requires connection != null ==> Live(connection.userData)
      modifies this
      modifies if connection != null then PairFrame(connection.userData) + PeerFrame(connection) else {}
      ensures connection == null ==> pairs == old(pairs)
      ensures connection != null ==>
                var id := connection.userData;
                && connection.State() == old(connection.State())
                && if id == 0 || !old(pairs[connection.userData].Holds(connection)) then pairs == old(pairs)
                   else
                     var pair := old(pairs)[id];
                     var bySrc := old(pairs[connection.userData].src) == connection;
                     var x := OnCloseReaction(old(pairs[connection.userData].Ends()), bySrc);
                     && pair.Ends() == x.ends && !pair.Holds(connection)
                     && pairs == (if x.release then old(pairs) - {id} else old(pairs))
                     && (old(pairs[connection.userData].Peer(connection)) != null ==>
                           var peer := old(pairs[connection.userData].Peer(connection));
                           && pair.Holds(peer)
                           && peer.State() ==
                              ApplyAll(old(pairs[connection.userData].Peer(connection).State()), x.other))
    {
      if connection == null {
        return;
      }
      if connection.userData == 0 {
        return;
      }
      var pair := pairs[connection.userData];
      var needRelease := false;
      if pair.src == connection {
        pair.src := null;
        var dstConnection := pair.dst;
        if dstConnection != null {
          ApplyAllOne(dstConnection.State(), Call.Close);
          dstConnection.Close();
        } else {
          needRelease := true;
        }
      } else if pair.dst == connection {
        pair.dst := null;
        var srcConnection := pair.src;
        if srcConnection != null {
          ApplyAllOne(srcConnection.State(), Call.Close);
          srcConnection.Close();
        } else {
          needRelease := true;
        }
      }
      if needRelease {
        pairs := pairs - {connection.userData};
      }
    }
  }
}
