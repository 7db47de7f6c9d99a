/** TcpConnection and its two buffers, as objects updated in place. Every handler is proved to do what
    the step machine says and to keep its invariant. */
module TcpConnections {
  import opened Octets
  import opened ConnectionMachine
  import I = ConnectionInvariant
  import Q = SendQueue

  /** A C++ pointer to bytes. */
  datatype Pointer = Null | To(bytes: Bytes)

  class TcpSendBuffer {
    var deque: seq<Bytes>

    constructor ()
      ensures deque == []
    {
      deque := [];
    }

    predicate Empty()
      reads this
    {
      deque == []
    }

    method Commit(data: Bytes)
      modifies this
      ensures deque == old(deque) + [data]
    {
      deque := deque + [data];
    }

    function Data(): Bytes
      requires !Empty()
      reads this
    {
      deque[0]
    }

    method Consume()
      requires !Empty()
      modifies this
      ensures deque == old(deque)[1..]
    {
      deque := deque[1..];
    }
  }

  /** The unread suffix of what was received. */
  class TcpRecvBuffer {
    var unread: Bytes

    constructor ()
      ensures unread == []
    {
      unread := [];
    }

    function Size(): nat
      reads this
    {
      |unread|
    }

    method Commit(data: Bytes)
      modifies this
      ensures unread == old(unread) + data
    {
      unread := unread + data;
    }

    /** Consuming more than there is empties the buffer. */
    method Consume(size: nat)
      modifies this
      ensures unread == old(unread)[if size <= old(|unread|) then size else old(|unread|)..]
    {
      unread := unread[if size <= |unread| then size else |unread|..];
    }
  }

  class TcpConnection {
    const ioContext: nat // the number of the io_context that runs its handlers
    const useSsl: bool
    const hasService: bool
    const passive: bool
    const recvBuffer: TcpRecvBuffer
    const sendBuffer: TcpSendBuffer
    var running: bool
    var recvWaterMark: nat
    var userData: nat
    // the handlers of this connection in its io_context's queue
    var posted: seq<Task>
    // operations in flight, and history
    ghost var stage: Stage
    ghost var reading: nat
    ghost var outstanding: seq<Bytes>
    ghost var failed: bool
    ghost var ended: bool
    ghost var attempts: seq<bool>
    ghost var sent: seq<Bytes>
    ghost var accepted: seq<Bytes>
    ghost var delivered: Bytes
    ghost var consumed: Bytes
    ghost var trace: seq<Event>

    ghost function State(): Conn<byte>
      reads this, recvBuffer, sendBuffer
    {
      Conn(Setup(Tcp, passive, useSsl, hasService), stage, running, posted,
           Q.Queue(sendBuffer.deque, outstanding, failed, sent),
           Inbox(recvBuffer.unread, recvWaterMark, reading, delivered, consumed, ended),
           attempts, accepted, trace)
    }

    ghost predicate Valid()
      reads this, recvBuffer, sendBuffer
    {
      I.Inv(State())
    }

    /** A new session: its accept is started next, or the resolution of the name. */
    constructor (ioContext: nat, passive: bool, useSsl: bool, hasService: bool)
      ensures Valid() && Initial(State()) && this.ioContext == ioContext
      ensures State() == Fresh(Setup(Tcp, passive, useSsl, hasService), if passive then Accepting else Resolving, [])
      ensures fresh(recvBuffer) && fresh(sendBuffer)
    {
      this.ioContext, this.passive, this.useSsl, this.hasService := ioContext, passive, useSsl, hasService;
      recvBuffer := new TcpRecvBuffer();
      sendBuffer := new TcpSendBuffer();
      running, recvWaterMark, userData := false, 1, 0;
      posted := [];
      stage := if passive then Accepting else Resolving;
      reading, outstanding, failed, ended := 0, [], false, false;
      attempts, sent, accepted, delivered, consumed, trace := [], [], [], [], [], [];
    }

    /** The manager posts start() to the session's io_context: after a synchronous connect, or an accept. */
    method PostStart()
      requires Valid() && (stage.Accepting? || stage.Resolving?)
      modifies this`posted, this`stage
      ensures Valid()
      ensures State() == old(State()).(stage := Scheduled, posted := [Start])
    {
      I.PacksPost(posted, Start);
      assert posted == [] && posted + [Start] == [Start];
      posted := posted + [Start];
      stage := Scheduled;
    }

    /** The accept failed: the session is closed before it was started. */
    method Refused()
      requires Valid() && stage.Accepting?
      modifies this`posted, this`stage
      ensures Valid() && State() == HandleAccept(old(State()), false)
    {
      I.AcceptKeeps(State(), false);
      stage := Silent;
      Close();
    }

    // ---------------------------------------------------------------- public API

    method Close()
      modifies this`posted
      ensures State() == Apply(old(State()), Call.Close)
      ensures userData == old(userData)
    {
      posted := posted + [Stop];
    }

    method RecvBufferCopy(buf: Pointer, len: nat) returns (ok: bool, copy: Bytes)
      ensures ok <==> buf.To? && len <= |State().inbox.unread|
      ensures ok ==> copy == State().inbox.unread[..len]
    {
      if buf.Null? || recvBuffer.Size() < len {
        return false, [];
      }
      return true, recvBuffer.unread[..len];
    }

    method RecvBufferMove(buf: Pointer, len: nat) returns (ok: bool, copy: Bytes)
      modifies this, recvBuffer
      ensures ok <==> buf.To? && len <= old(|State().inbox.unread|)
      ensures ok ==> copy == old(State()).inbox.unread[..len]
      ensures State() == if ok then Apply(old(State()), Drop(len)) else old(State())
      ensures userData == old(userData)
    {
      if buf.Null? || recvBuffer.Size() < len {
        return false, [];
      }
      copy := recvBuffer.unread[..len];
      consumed := consumed + recvBuffer.unread[..len];
      recvBuffer.Consume(len);
      ok := true;
    }

    method RecvBufferDrop(len: nat) returns (ok: bool)
      modifies this, recvBuffer
      ensures ok <==> len <= old(|State().inbox.unread|)
      ensures State() == Apply(old(State()), Drop(len))
      ensures userData == old(userData)
    {
      if recvBuffer.Size() < len {
        return false;
      }
      consumed := consumed + recvBuffer.unread[..len];
      recvBuffer.Consume(len);
      ok := true;
    }

    method RecvBufferWaterMark(len: nat)
      modifies this
      ensures State() == Apply(old(State()), Mark(len))
      ensures userData == old(userData)
    {
      recvWaterMark := len;
    }

    method SendBufferFill(data: Pointer, len: nat) returns (ok: bool)
      requires data.To? ==> len == |data.bytes|
      modifies this
      ensures ok <==> data.To? || len == 0
      ensures State() == Apply(old(State()), if data.To? then Fill(data.bytes) else FillNull(len))
      ensures userData == old(userData)
    {
      if data.Null? {
        return len == 0;
      }
      if len != 0 {
        accepted := accepted + [data.bytes];
        posted := posted + [Task.Push(data.bytes)];
      }
      ok := true;
    }

    // ---------------------------------------------------------------- calling back

    /** Calls back when there is a service. The opening and receive callbacks find no read in flight. */
    method Notify(e: Event, cb: Callback) returns (ok: bool)
      requires e.OnAccept? || e.OnConnect? || e.OnRecv? ==> reading == 0
      modifies this, recvBuffer
      ensures State() == Invoke(old(State()), e, cb)
      ensures ok <==> hasService ==> cb.ok
    {
      if !hasService {
        return true;
      }
      trace := trace + [e];
      ghost var start := State();
      var i := 0;
      while i < |cb.calls|
        invariant i <= |cb.calls|
        invariant ApplyAll(State(), cb.calls[i..]) == ApplyAll(start, cb.calls)
      {
        assert cb.calls[i..][0] == cb.calls[i] && cb.calls[i..][1..] == cb.calls[i + 1..];
        match cb.calls[i] {
          case Fill(pack) => var _ := SendBufferFill(To(pack), |pack|);
          case FillNull(len) => var _ := SendBufferFill(Null, len);
          case Drop(n) => var _ := RecvBufferDrop(n);
          case Mark(n) => RecvBufferWaterMark(n);
          case Close => Close();
        }
        i := i + 1;
      }
      ok := cb.ok;
    }

    // ---------------------------------------------------------------- handlers

    method Recv()
      modifies this
      ensures State() == ReadOn(old(State()))
    {
      reading := reading + 1;
    }

    method Send()
      requires !sendBuffer.Empty()
      modifies this
      ensures State() == old(State()).(queue := Q.Start(old(State()).queue))
    {
      outstanding := outstanding + [sendBuffer.Data()];
    }

    method HandleHandshake(error: bool, cb: Callback)
      requires I.Blank(State()) && posted == [] && trace == []
      modifies this, recvBuffer
      ensures State() == ConnectionMachine.HandleHandshake(old(State()), !error, cb)
      ensures Valid()
    {
      I.HandshakeKeeps(State(), !error, cb);
      if !error {
        running := true;
        stage := Opened;
        var ok := Notify(if passive then OnAccept else OnConnect(true), cb);
        if !ok {
          Quit();
          return;
        }
        Recv();
      } else {
        stage := Silent;
      }
    }

    method StopConnection(cb: Callback)
      modifies this, recvBuffer
      ensures State() == HandleStop(old(State()), cb)
    {
      if running {
        var _ := Notify(OnClose, cb);
        running := false;
      }
    }

    method PushSendData(data: Bytes)
      modifies this, sendBuffer
      ensures State() == old(State()).(queue := Q.Push(old(State()).queue, data))
    {
      var needSend := sendBuffer.Empty();
      sendBuffer.Commit(data);
      if needSend {
        Send();
      }
    }

    method HandlePosted(cb: Callback)
      requires posted != []
      requires posted[0].Start? ==> I.Blank(State()) && |posted| == 1 && trace == []
      modifies this, recvBuffer, sendBuffer
      ensures State() == RunTask(old(State()), cb)
    {
      var task := posted[0];
      posted := posted[1..];
      match task {
        case Start =>
          if useSsl {
            stage := Handshaking;
          } else {
            HandleHandshake(false, cb);
          }
        case Stop => StopConnection(cb);
        case Push(data) => PushSendData(data);
      }
    }

    /** Closes without starting another read. */
    method Quit()
      modifies this
      ensures State() == Abandon(old(State()))
    {
      Close();
      ended := true;
    }

    method Commit(data: Bytes)
      modifies this, recvBuffer
      ensures State() == Receive(old(State()), data)
    {
      recvBuffer.Commit(data);
      delivered := delivered + data;
    }

    /** Announces the unread bytes at the water mark, or drops what has just arrived. */
    method Deliver(transferred: nat, cb: Callback) returns (ok: bool)
      requires reading == 0 && transferred <= recvBuffer.Size()
      modifies this, recvBuffer
      ensures State() == ConnectionMachine.Deliver(old(State()), transferred, cb)
      ensures ok <==> Wanted(old(State()), cb)
    {
      ok := true;
      if hasService {
        if recvBuffer.Size() >= recvWaterMark {
          ok := Notify(OnRecv, cb);
        }
      } else {
        consumed := consumed + recvBuffer.unread[..transferred];
        recvBuffer.Consume(transferred);
      }
    }

    method HandleRecv(error: bool, data: Bytes, cb: Callback)
      requires reading == 1
      modifies this, recvBuffer
      ensures State() == ConnectionMachine.HandleRecv(old(State()), !error, data, cb)
    {
      reading := 0;
      if error {
        Quit();
        return;
      }
      Commit(data);
      var ok := Deliver(|data|, cb);
      if !ok {
        Quit();
        return;
      }
      Recv();
    }

    /** The front pack has been written. */
    method Pop()
      requires outstanding != [] && !sendBuffer.Empty()
      modifies this`sent, this`outstanding, sendBuffer
      ensures State() == old(State()).(queue := Q.Queue(old(sendBuffer.deque)[1..], old(outstanding)[1..], failed,
                                                        old(sent) + [old(outstanding)[0]]))
    {
      sent := sent + [outstanding[0]];
      outstanding := outstanding[1..];
      sendBuffer.Consume();
    }

    method HandleSend(error: bool, cb: Callback)
      requires outstanding != [] && !sendBuffer.Empty()
      modifies this, recvBuffer, sendBuffer
      ensures State() == ConnectionMachine.HandleSend(old(State()), !error, cb)
    {
      if error {
        outstanding, failed := outstanding[1..], true;
        Close();
        return;
      }
      Pop();
      if sendBuffer.Empty() {
        assert State() == old(State()).(queue := Q.Finish(old(State()).queue));
        if hasService {
          var ok := Notify(OnSend, cb);
          if !ok {
            Close();
            return;
          }
        }
      } else {
        Send();
        assert State() == old(State()).(queue := Q.Finish(old(State()).queue));
      }
    }

    method HandleResolve(error: bool, endpoints: nat)
      requires Valid() && stage.Resolving?
      modifies this
      ensures State() == ConnectionMachine.HandleResolve(old(State()), !error, endpoints)
      ensures Valid()
    {
      I.ResolveKeeps(State(), !error, endpoints);
      if error {
        stage := Failed;
        if hasService {
          trace := trace + [OnConnect(false)];
        }
        return;
      }
      stage := Connecting(endpoints);
    }

    /** `times` is the number of resolved endpoints, captured when the connect was started. */
    method HandleConnect(error: bool, times: nat)
      requires Valid() && stage == Connecting(times)
      modifies this
      ensures State() == ConnectionMachine.HandleConnect(old(State()), !error)
      ensures Valid()
    {
      I.ConnectKeeps(State(), !error);
      attempts := attempts + [!error];
      if !error {
        stage := Scheduled;
        posted := posted + [Start];
        return;
      }
      if times > 1 {
        stage := Silent;
        return;
      }
      stage := Failed;
      if hasService {
        trace := trace + [OnConnect(false)];
      }
    }

    // ---------------------------------------------------------------- what the worker runs

    /** The front of the posted queue. */
    method RunPosted(cb: Callback)
      requires Valid() && posted != []
      modifies this, recvBuffer, sendBuffer
      ensures State() == RunTask(old(State()), cb)
      ensures Valid()
    {
      I.TaskKeeps(State(), cb);
      HandlePosted(cb);
    }

    /** The completion of a read. */
    method ReadCompleted(error: bool, data: Bytes, cb: Callback)
      requires Valid() && reading > 0
      modifies this, recvBuffer
      ensures State() == ConnectionMachine.HandleRecv(old(State()), !error, data, cb)
      ensures Valid()
    {
      I.RecvKeeps(State(), !error, data, cb);
      HandleRecv(error, data, cb);
    }

    /** The completion of a write. */
    method WriteCompleted(error: bool, cb: Callback)
      requires Valid() && outstanding != []
      modifies this, recvBuffer, sendBuffer
      ensures State() == ConnectionMachine.HandleSend(old(State()), !error, cb)
      ensures Valid()
    {
      I.SendKeeps(State(), !error, cb);
      HandleSend(error, cb);
    }
  }
}
