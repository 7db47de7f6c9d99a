/** The managers: one initialization of the pool, and who makes and starts a connection. */
module Managers {
  import opened ConnectionMachine
  import opened Connecting
  import opened IoContextPool
  import opened TcpConnections
  import opened UdpActiveConnections

  /** The part of init that both managers share: the checks, and the pool. A pool that has contexts, from an
      initialization that succeeded or failed, is never initialized again, and so after success every
      context has its own worker. */
  method InitPool(pool: IoServicePool, hasService: bool, threadCount: nat, hasPorts: bool, portCount: nat,
                  starts: seq<bool>)
    returns (ok: bool)
    requires |starts| == threadCount && pool.Valid()
    modifies pool
    ensures pool.Valid()
    ensures ok <==> && hasService && threadCount > 0 && (portCount > 0 ==> hasPorts)
                    && old(pool.contexts) == 0 && forall i | 0 <= i < threadCount :: starts[i]
    ensures ok ==> pool.threads == pool.contexts == threadCount
    ensures old(pool.contexts) > 0 ==> pool.contexts == old(pool.contexts) && pool.threads == old(pool.threads)
  {
    if !hasService {
      return false;
    }
    if threadCount == 0 {
      return false;
    }
    if !hasPorts && portCount != 0 {
      return false;
    }
    if pool.contexts > 0 {
      return false;
    }
    ok := pool.Init(threadCount, starts);
  }

  class TcpManager {
    const pool: IoServicePool
    const serverSsl: bool
    const clientSsl: bool

    constructor (pool: IoServicePool, serverSsl: bool, clientSsl: bool)
      ensures this.pool == pool && this.serverSsl == serverSsl && this.clientSsl == clientSsl
    {
      this.pool, this.serverSsl, this.clientSsl := pool, serverSsl, clientSsl;
    }

    /** Can hand out contexts. */
    predicate Ready()
      reads pool
    {
      pool.contexts > 0 && pool.next < SIZE_T
    }

    /** A session for the next peer that connects, on the next context in turn. */
    method StartAccept() returns (session: TcpConnection)
      requires Ready()
      modifies pool`next
      ensures Ready() && fresh(session) && fresh(session.recvBuffer) && fresh(session.sendBuffer) && session.Valid()
      ensures session.ioContext == old(pool.next) % pool.contexts && pool.next == (old(pool.next) + 1) % SIZE_T
      ensures session.State() == Fresh(Setup(Tcp, true, serverSsl, true), Accepting, [])
    {
      var index := pool.Get();
      session := new TcpConnection(index, true, serverSsl, true);
    }

    /** The next accept is started whatever became of this one; then the session is started, or closed. */
    method HandleAccept(session: TcpConnection, error: bool) returns (next: TcpConnection)
      requires Ready() && session.Valid() && session.stage.Accepting?
      modifies pool`next, session
      ensures Ready() && fresh(next) && next.Valid() && next.stage.Accepting?
      ensures next.ioContext == old(pool.next) % pool.contexts && pool.next == (old(pool.next) + 1) % SIZE_T
      ensures session.Valid()
      ensures session.State() == ConnectionMachine.HandleAccept(old(session.State()), !error)
    {
      ghost var before := session.State();
      next := StartAccept();
      assert session.State() == before;
      if error {
        session.Refused();
        return;
      }
      session.PostStart();
    }

    /** `answers`, `bound` and `binds` as for the endpoint loop. A session that could not be connected is
        dropped before anything is posted for it. */
    method SyncCreateConnection(answers: seq<bool>, bound: bool, binds: seq<bool>)
      returns (ok: bool, session: TcpConnection)
      requires Ready() && |binds| == |answers|
      modifies pool`next
      ensures Ready() && fresh(session) && session.Valid() && Initial(session.State())
      ensures session.ioContext == old(pool.next) % pool.contexts && pool.next == (old(pool.next) + 1) % SIZE_T
      ensures ok <==> FirstAccepted(answers) < |answers| &&
                      (bound ==> forall i | 0 <= i <= FirstAccepted(answers) :: binds[i])
      ensures session.State() == Fresh(Setup(Tcp, false, clientSsl, true), if ok then Scheduled else Resolving,
                                       if ok then [Start] else [])
    {
      var index := pool.Get();
      session := new TcpConnection(index, false, clientSsl, true);
      var connected, _ := SyncConnect(answers, bound, binds);
      if connected {
        session.PostStart();
      }
      ok := connected;
    }

    method AsyncCreateConnection() returns (session: TcpConnection)
      requires Ready()
      modifies pool`next
      ensures Ready() && fresh(session) && session.Valid()
      ensures session.ioContext == old(pool.next) % pool.contexts && pool.next == (old(pool.next) + 1) % SIZE_T
      ensures session.State() == Fresh(Setup(Tcp, false, clientSsl, true), Resolving, [])
    {
      var index := pool.Get();
      session := new TcpConnection(index, false, clientSsl, true);
    }
  }

  /** UdpManagerImpl::sync_create_connection */
  method UdpSyncCreateConnection(answers: seq<bool>, bound: bool, binds: seq<bool>)
    returns (ok: bool, connection: UdpActiveConnection)
    requires |binds| == |answers|
    ensures fresh(connection) && connection.Valid() && Initial(connection.State())
    ensures ok <==> FirstAccepted(answers) < |answers| &&
                    (bound ==> forall i | 0 <= i <= FirstAccepted(answers) :: binds[i])
    ensures connection.State() == Fresh(Setup(Udp, false, false, true), if ok then Scheduled else Resolving,
                                        if ok then [Start] else [])
  {
    connection := new UdpActiveConnection(true);
    var connected, _ := SyncConnect(answers, bound, binds);
    if connected {
      connection.PostStart();
    }
    ok := connected;
  }
}
