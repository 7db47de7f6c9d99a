/** UdpActiveConnection as an object updated in place: the datagram instance of the step machine. */
module UdpActiveConnections {
  import opened Octets
  import opened ConnectionMachine
  import I = ConnectionInvariant
  import L = ConnectionLaws
  import Q = SendQueue

  /** The calls a UDP connection offers: drop takes one datagram, and there is no water mark. */
  predicate UdpCalls(cb: Callback) {
    forall c | c in cb.calls :: !c.Mark? && (c.Drop? ==> c.n == 1)
  }

  class UdpActiveConnection {
    const hasService: bool
    var results: nat   // endpoints resolved
    var cursor: nat // the one being tried
    var running: bool
    var recvBuffer: seq<Bytes>
    var sendBuffer: seq<Bytes>
    var posted: seq<Task>
    ghost var stage: Stage
    ghost var reading: nat
    ghost var outstanding: seq<Bytes>
    ghost var failed: bool
    ghost var ended: bool
    ghost var attempts: seq<bool>
    ghost var sent: seq<Bytes>
    ghost var accepted: seq<Bytes>
    ghost var delivered: seq<Bytes>
    ghost var consumed: seq<Bytes>
    ghost var trace: seq<Event>

    ghost function State(): Conn<Bytes>
      reads this
    {
      Conn(Setup(Udp, false, false, hasService), stage, running, posted,
           Q.Queue(sendBuffer, outstanding, failed, sent),
           Inbox(recvBuffer, 1, reading, delivered, consumed, ended),
           attempts, accepted, trace)
    }

    ghost predicate Valid()
      reads this
    {
      && I.Inv(State())
      && (stage.Resolving? ==> attempts == [])
      && (stage.Connecting? ==> cursor == |attempts| < results && stage.left == results - cursor)
    }

    constructor (hasService: bool)
      ensures Valid() && Initial(State())
      ensures State() == Fresh(Setup(Udp, false, false, hasService), Resolving, [])
    {
      this.hasService := hasService;
      results, cursor, running, recvBuffer, sendBuffer := 0, 0, false, [], [];
      posted := [];
      stage := Resolving;
      reading, outstanding, failed, ended := 0, [], false, false;
      attempts, sent, accepted, delivered, consumed, trace := [], [], [], [], [], [];
      new;
      I.InitialInv(State());
    }

    /** The manager posts start() to the connection's io_context after a synchronous connect. */
    method PostStart()
      requires Valid() && stage.Resolving?
      modifies this`posted, this`stage
      ensures Valid()
      ensures State() == old(State()).(stage := Scheduled, posted := [Start])
    {
      I.PacksPost(posted, Start);
      assert posted == [] && posted + [Start] == [Start];
      posted := posted + [Start];
      stage := Scheduled;
    }

    // ---------------------------------------------------------------- public API

    method Close()
      modifies this`posted
      ensures State() == Apply(old(State()), Call.Close)
    {
      posted := posted + [Stop];
    }

    method RecvBufferDrop() returns (ok: bool)
      modifies this`recvBuffer, this`consumed
      ensures ok <==> old(recvBuffer) != []
      ensures State() == Apply(old(State()), Drop(1))
    {
      if recvBuffer == [] {
        return false;
      }
      consumed := consumed + recvBuffer[..1];
      recvBuffer := recvBuffer[1..];
      ok := true;
    }

    /** `null` says that the data pointer is null. */
    method SendBufferFill(isNull: bool, data: Bytes, len: nat) returns (ok: bool)
      requires if isNull then data == [] else len == |data|
      modifies this`posted, this`accepted
      ensures ok <==> !isNull || len == 0
      ensures State() == Apply(old(State()), if isNull then FillNull(len) else Fill(data))
    {
      if isNull && len != 0 {
        return false;
      }
      accepted := accepted + [data];
      posted := posted + [Task.Push(data)];
      ok := true;
    }

    /** Calls back when there is a service. The opening and receive callbacks find no read in flight. */
    method Notify(e: Event, cb: Callback) returns (ok: bool)
      requires UdpCalls(cb)
      requires e.OnConnect? || e.OnRecv? ==> reading == 0
      modifies this`posted, this`accepted, this`recvBuffer, this`consumed, this`trace
      ensures State() == Invoke(old(State()), e, cb)
      ensures ok <==> hasService ==> cb.ok
    {
      if !hasService {
        return true;
      }
      trace := trace + [e];
      ghost var start := State();
      var i := 0;
      while i < |cb.calls|
        invariant i <= |cb.calls|
        invariant ApplyAll(State(), cb.calls[i..]) == ApplyAll(start, cb.calls)
      {
        assert cb.calls[i..][0] == cb.calls[i] && cb.calls[i..][1..] == cb.calls[i + 1..];
        assert cb.calls[i] in cb.calls;
        match cb.calls[i] {
          case Fill(pack) => var _ := SendBufferFill(false, pack, |pack|);
          case FillNull(len) => var _ := SendBufferFill(true, [], len);
          case Drop(_) => var _ := RecvBufferDrop();
          case Close => Close();
        }
        i := i + 1;
      }
      ok := cb.ok;
    }

    // ---------------------------------------------------------------- connecting

    /** on_connect with a null connection */
    method Refuse()
      modifies this`stage, this`trace
      ensures State() == ReportFailure(old(State()))
    {
      stage := Failed;
      if hasService {
        trace := trace + [OnConnect(false)];
      }
    }

    method HandleResolve(error: bool, endpoints: nat)
      requires Valid() && stage.Resolving? && endpoints > 0
      modifies this
      ensures State() == ConnectionMachine.HandleResolve(old(State()), !error, endpoints)
      ensures !error ==> results == endpoints && cursor == 0
      ensures Valid()
    {
      I.ResolveKeeps(State(), !error, endpoints);
      if error {
        Refuse();
        return;
      }
      results, cursor := endpoints, 0;
      stage := Connecting(endpoints);
    }

    method HandleConnect(error: bool)
      requires Valid() && stage.Connecting?
      modifies this
      ensures State() == ConnectionMachine.HandleConnect(old(State()), !error)
      ensures Valid()
    {
      I.ConnectKeeps(State(), !error);
      NextEndpoint(error);
    }

    method NextEndpoint(error: bool)
      requires stage.Connecting? && cursor == |attempts| < results && stage.left == results - cursor
      modifies this`attempts, this`stage, this`posted, this`cursor, this`trace
      ensures State() == ConnectionMachine.HandleConnect(old(State()), !error)
      ensures stage.Connecting? ==> cursor == |attempts| < results && stage.left == results - cursor
    {
      attempts := attempts + [!error];
      if !error {
        stage := Scheduled;
        posted := posted + [Start];
        return;
      }
      cursor := cursor + 1;
      if results == cursor {
        Refuse();
        return;
      }
      stage := Connecting(results - cursor);
    }

    // ---------------------------------------------------------------- handlers

    method Recv()
      modifies this`reading
      ensures State() == ReadOn(old(State()))
    {
      reading := reading + 1;
    }

    method Send()
      requires sendBuffer != []
      modifies this`outstanding
      ensures State() == old(State()).(queue := Q.Start(old(State()).queue))
    {
      outstanding := outstanding + [sendBuffer[0]];
    }

    method Quit()
      modifies this`posted, this`ended
      ensures State() == Abandon(old(State()))
    {
      Close();
      ended := true;
    }

    method StartUp(cb: Callback)
      requires UdpCalls(cb) && reading == 0
      modifies this
      ensures State() == HandleStart(old(State()), cb)
    {
      running := true;
      stage := Opened;
      var ok := Notify(OnConnect(true), cb);
      if !ok {
        Quit();
        return;
      }
      Recv();
    }

    method StopConnection(cb: Callback)
      requires UdpCalls(cb)
      modifies this
      ensures State() == HandleStop(old(State()), cb)
    {
      if running {
        var _ := Notify(OnClose, cb);
        running := false;
      }
    }

    method PushSendData(data: Bytes)
      modifies this`sendBuffer, this`outstanding
      ensures State() == old(State()).(queue := Q.Push(old(State()).queue, data))
    {
      var needSend := sendBuffer == [];
      sendBuffer := sendBuffer + [data];
      if needSend {
        Send();
      }
    }

    method HandlePosted(cb: Callback)
      requires UdpCalls(cb) && posted != [] && (posted[0].Start? ==> reading == 0)
      modifies this
      ensures State() == RunTask(old(State()), cb)
    {
      var task := posted[0];
      posted := posted[1..];
      match task {
        case Start => StartUp(cb);
        case Stop => StopConnection(cb);
        case Push(data) => PushSendData(data);
      }
    }

    /** Keeps a datagram for the service. */
    method Store(data: Bytes)
      modifies this`delivered, this`recvBuffer
      ensures State() == Receive(old(State()), [data])
    {
      delivered := delivered + [data];
      recvBuffer := recvBuffer + [data];
    }

    /** Without a service nothing is kept. */
    method Discard(data: Bytes)
      requires recvBuffer == []
      modifies this`delivered, this`consumed
      ensures State() == Apply(Receive(old(State()), [data]), Drop(1))
    {
      delivered := delivered + [data];
      consumed := consumed + [data];
    }

    method HandleRecv(error: bool, data: Bytes, cb: Callback)
      requires UdpCalls(cb) && reading == 1 && (!hasService ==> recvBuffer == [])
      modifies this
      ensures State() == ConnectionMachine.HandleRecv(old(State()), !error, [data], cb)
    {
      reading := 0;
      assert State() == Idle(old(State()));
      if error {
        Quit();
        return;
      }
      if hasService {
        Store(data);
        var ok := Notify(OnRecv, cb);
        if !ok {
          Quit();
          return;
        }
      } else {
        Discard(data);
      }
      Recv();
    }

    /** The front datagram has been written. */
    method Pop()
      requires outstanding != [] && sendBuffer != []
      modifies this`sent, this`outstanding, this`sendBuffer
      ensures State() == old(State()).(queue := Q.Queue(old(sendBuffer)[1..], old(outstanding)[1..], failed,
                                                        old(sent) + [old(outstanding)[0]]))
    {
      sent := sent + [outstanding[0]];
      outstanding := outstanding[1..];
      sendBuffer := sendBuffer[1..];
    }

    method HandleSend(error: bool, cb: Callback)
      requires UdpCalls(cb) && outstanding != [] && sendBuffer != []
      modifies this
      ensures State() == ConnectionMachine.HandleSend(old(State()), !error, cb)
    {
      if error {
        outstanding, failed := outstanding[1..], true;
        Close();
        return;
      }
      Pop();
      if sendBuffer == [] {
        assert State() == old(State()).(queue := Q.Finish(old(State()).queue));
        if hasService {
          var ok := Notify(OnSend, cb);
          if !ok {
            Close();
            return;
          }
        }
      } else {
        Send();
        assert State() == old(State()).(queue := Q.Finish(old(State()).queue));
      }
    }

    // ---------------------------------------------------------------- what the worker runs

    method RunPosted(cb: Callback)
      requires Valid() && posted != [] && UdpCalls(cb)
      modifies this
      ensures State() == RunTask(old(State()), cb)
      ensures Valid()
    {
      I.TaskKeeps(State(), cb);
      L.TaskEvents(State(), cb);
      HandlePosted(cb);
    }

    method ReadCompleted(error: bool, data: Bytes, cb: Callback)
      requires Valid() && reading > 0 && UdpCalls(cb)
      modifies this
      ensures State() == ConnectionMachine.HandleRecv(old(State()), !error, [data], cb)
      ensures Valid()
    {
      I.RecvKeeps(State(), !error, [data], cb);
      L.RecvEvents(State(), !error, [data], cb);
      HandleRecv(error, data, cb);
    }

    /** The assertion of handle_send that the buffer is not empty holds: a write is in flight. */
    method WriteCompleted(error: bool, cb: Callback)
      requires Valid() && outstanding != [] && UdpCalls(cb)
      modifies this
      ensures State() == ConnectionMachine.HandleSend(old(State()), !error, cb)
      ensures Valid()
    {
      I.SendKeeps(State(), !error, cb);
      L.SendEvents(State(), !error, cb);
      HandleSend(error, cb);
    }
  }
}
