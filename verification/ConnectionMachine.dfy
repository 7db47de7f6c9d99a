/** The life of one connection as a step machine.

    One step is one handler run by the worker of the connection's io_context (a completion or the
    front of the posted queue), or one call of the public API from another thread. TcpConnection is
    the instance T = byte; UdpActiveConnection is the instance T = datagram. */
module ConnectionMachine {
  import opened Octets
  import Q = SendQueue

  datatype Kind = Tcp | Udp

  datatype Stage =
    | Accepting              // the accept on the session's socket is in flight
    | Resolving
    | Connecting(left: nat)  // endpoints not yet refused, including the one being tried
    | Scheduled              // the start handler is posted
    | Handshaking
    | Opened
    | Failed                 // reported with a null connection
    | Silent                 // given up without any report

  datatype Task = Start | Stop | Push(pack: Bytes)

  datatype Event = OnAccept | OnConnect(ok: bool) | OnRecv | OnSend | OnClose

  /** What user code may do to the connection. Reading the buffer changes nothing. */
  datatype Call =
    | Fill(pack: Bytes)
    | FillNull(len: nat)
    | Drop(n: nat)
    | Mark(n: nat)
    | Close

  /** One run of a user callback: the calls it makes and the value it returns. */
  datatype Callback = Callback(calls: seq<Call>, ok: bool)

  datatype Setup = Setup(kind: Kind, passive: bool, ssl: bool, service: bool)

  /** The receiving half; `delivered`, `consumed` and `ended` are its history. */
  datatype Inbox<T> = Inbox(
    unread: seq<T>, mark: nat, reading: nat,
    delivered: seq<T>, consumed: seq<T>, ended: bool)

  /** `attempts`, `accepted` and `trace` are history: the answers to connect attempts, the packs taken
      by send_buffer_fill, and the callbacks made. */
  datatype Conn<T> = Conn(
    setup: Setup, stage: Stage, running: bool,
    posted: seq<Task>, queue: Q.Queue<Bytes>, inbox: Inbox<T>,
    attempts: seq<bool>, accepted: seq<Bytes>, trace: seq<Event>)

  function Fresh<T>(setup: Setup, stage: Stage, posted: seq<Task>): Conn<T> {
    Conn(setup, stage, false, posted, Q.Empty(), Inbox([], 1, 0, [], [], false), [], [], [])
  }

  /** A connection starts by waiting for an accept, by resolving a name, or with the start handler
      already posted (synchronous connect, accepted socket). */
  ghost predicate Initial<T(!new)>(s: Conn<T>) {
    && (s.setup.kind.Udp? ==> !s.setup.passive && !s.setup.ssl)
    && (|| s == Fresh(s.setup, if s.setup.passive then Accepting else Resolving, [])
        || s == Fresh(s.setup, Scheduled, [Start]))
  }

  // ---------------------------------------------------------------- user calls

  function Post<T>(s: Conn<T>, t: Task): Conn<T> {
    s.(posted := s.posted + [t])
  }

  function Apply<T>(s: Conn<T>, c: Call): Conn<T> {
    match c
    case Fill(pack) =>
      if s.setup.kind.Tcp? && pack == [] then s
      else Post(s.(accepted := s.accepted + [pack]), Push(pack))
    case FillNull(len) =>
      if s.setup.kind.Tcp? || len != 0 then s
      else Post(s.(accepted := s.accepted + [[]]), Push([]))
    case Drop(n) =>
      if |s.inbox.unread| < n then s
      else s.(inbox := s.inbox.(unread := s.inbox.unread[n..], consumed := s.inbox.consumed + s.inbox.unread[..n]))
    case Mark(n) =>
      if s.setup.kind.Tcp? then s.(inbox := s.inbox.(mark := n)) else s
    case Close =>
      Post(s, Stop)
  }

  function ApplyAll<T>(s: Conn<T>, calls: seq<Call>): Conn<T>
    decreases |calls|
  {
    if calls == [] then s else ApplyAll(Apply(s, calls[0]), calls[1..])
  }

  lemma {:induction false} ApplyAllConcat<T>(s: Conn<T>, a: seq<Call>, b: seq<Call>)
    ensures ApplyAll(s, a + b) == ApplyAll(ApplyAll(s, a), b)
    decreases |a|
  {
    if a == [] {
      assert a + b == b;
    } else {
      assert (a + b)[0] == a[0] && (a + b)[1..] == a[1..] + b;
      ApplyAllConcat(Apply(s, a[0]), a[1..], b);
    }
  }

  lemma ApplyAllOne<T>(s: Conn<T>, c: Call)
    ensures ApplyAll(s, [c]) == Apply(s, c)
  {
    assert [c][1..] == [];
  }

  function Invoke<T>(s: Conn<T>, e: Event, cb: Callback): Conn<T> {
    if s.setup.service then ApplyAll(s.(trace := s.trace + [e]), cb.calls) else s
  }

  /** on_connect with a null connection: the callback has no connection to act on. */
  function ReportFailure<T>(s: Conn<T>): Conn<T> {
    (if s.setup.service then s.(trace := s.trace + [OnConnect(false)]) else s).(stage := Failed)
  }

  // ---------------------------------------------------------------- handlers

  /** A failed accept closes the session that was made for it. */
  function HandleAccept<T>(s: Conn<T>, ok: bool): Conn<T> {
    if ok then Post(s.(stage := Scheduled), Start) else Post(s.(stage := Silent), Stop)
  }

  function HandleResolve<T>(s: Conn<T>, ok: bool, endpoints: nat): Conn<T> {
    if !ok then ReportFailure(s) else s.(stage := Connecting(endpoints))
  }

  function HandleConnect<T>(s: Conn<T>, ok: bool): Conn<T>
    requires s.stage.Connecting?
  {
    var attempts := s.attempts + [ok];
    if ok then
      s.(attempts := attempts, stage := Scheduled, posted := s.posted + [Start])
    else if s.setup.kind.Tcp? && s.stage.left > 1 then
      s.(attempts := attempts, stage := Silent)
    else if s.setup.kind.Udp? && s.stage.left > 1 then
      s.(attempts := attempts, stage := Connecting(s.stage.left - 1))
    else
      ReportFailure(s.(attempts := attempts))
  }

  function OpenEvent<T>(s: Conn<T>): Event {
    if s.setup.passive then OnAccept else OnConnect(true)
  }

  /** The callback said no: close and read no more. */
  function Abandon<T>(s: Conn<T>): Conn<T> {
    Post(s.(inbox := s.inbox.(ended := true)), Stop)
  }

  /** Starts the next read. */
  function ReadOn<T>(s: Conn<T>): Conn<T> {
    s.(inbox := s.inbox.(reading := s.inbox.reading + 1))
  }

  /** The read in flight has completed. */
  function Idle<T>(s: Conn<T>): Conn<T>
    requires s.inbox.reading > 0
  {
    s.(inbox := s.inbox.(reading := s.inbox.reading - 1))
  }

  function HandleHandshake<T>(s: Conn<T>, ok: bool, cb: Callback): Conn<T> {
    if !ok then
      s.(stage := Silent)
    else
      var s := Invoke(s.(running := true, stage := Opened), OpenEvent(s), cb);
      if s.setup.service && !cb.ok then Abandon(s) else ReadOn(s)
  }

  function HandleStart<T>(s: Conn<T>, cb: Callback): Conn<T> {
    if s.setup.ssl then s.(stage := Handshaking) else HandleHandshake(s, true, cb)
  }

  function HandleStop<T>(s: Conn<T>, cb: Callback): Conn<T> {
    if s.running then Invoke(s, OnClose, cb).(running := false) else s
  }

  function RunTask<T>(s: Conn<T>, cb: Callback): Conn<T>
    requires s.posted != []
  {
    var t := s.posted[0];
    var s := s.(posted := s.posted[1..]);
    match t
    case Start => HandleStart(s, cb)
    case Stop => HandleStop(s, cb)
    case Push(pack) => s.(queue := Q.Push(s.queue, pack))
  }

  /** A stream read reaches the water mark; every datagram is announced. */
  predicate Announced<T>(s: Conn<T>) {
    s.setup.kind.Udp? || |s.inbox.unread| >= s.inbox.mark
  }

  function Receive<T>(s: Conn<T>, data: seq<T>): Conn<T> {
    s.(inbox := s.inbox.(unread := s.inbox.unread + data, delivered := s.inbox.delivered + data))
  }

  /** Announces the unread data, or, without a service, drops what has just arrived. */
  function Deliver<T>(s: Conn<T>, transferred: nat, cb: Callback): Conn<T> {
    if !s.setup.service then Apply(s, Drop(transferred))
    else if Announced(s) then Invoke(s, OnRecv, cb)
    else s
  }

  predicate Wanted<T>(s: Conn<T>, cb: Callback) {
    !s.setup.service || !Announced(s) || cb.ok
  }

  function HandleRecv<T>(s: Conn<T>, ok: bool, data: seq<T>, cb: Callback): Conn<T>
    requires s.inbox.reading > 0
  {
    var idle := Idle(s);
    if !ok then
      Abandon(idle)
    else
      var filled := Receive(idle, data);
      var done := Deliver(filled, |data|, cb);
      if Wanted(filled, cb) then ReadOn(done) else Abandon(done)
  }

  function HandleSend<T>(s: Conn<T>, ok: bool, cb: Callback): Conn<T>
    requires s.queue.outstanding != []
  {
    if !ok then
      Post(s.(queue := Q.Break(s.queue)), Stop)
    else
      var s := s.(queue := Q.Finish(s.queue));
      if s.queue.deque == [] && s.setup.service then
        var s := Invoke(s, OnSend, cb);
        if cb.ok then s else Post(s, Stop)
      else s
  }

  // ---------------------------------------------------------------- steps and runs

  datatype Step<T> =
    | Accepted(ok: bool)
    | Resolved(ok: bool, endpoints: nat)
    | Connected(ok: bool)
    | Handshook(ok: bool, cb: Callback)
    | Posted(cb: Callback)
    | ReadDone(ok: bool, data: seq<T>, cb: Callback)
    | WriteDone(ok: bool, cb: Callback)
    | Api(call: Call)

  /** What the environment may do next. The connection pointer reaches user code with the opening
      callback, so other threads call the API only after it, and never touch the receive buffer. */
  ghost predicate Enabled<T(!new)>(s: Conn<T>, step: Step<T>) {
    match step
    case Accepted(ok) => s.stage.Accepting?
    case Resolved(ok, n) => s.stage.Resolving? && (s.setup.kind.Udp? ==> n >= 1)
    case Connected(ok) => s.stage.Connecting?
    case Handshook(ok, cb) => s.stage.Handshaking?
    case Posted(cb) => s.posted != []
    case ReadDone(ok, data, cb) =>
      s.inbox.reading > 0 && (ok ==> if s.setup.kind.Udp? then |data| == 1 else 0 < |data| <= 512)
    case WriteDone(ok, cb) => s.queue.outstanding != []
    case Api(c) => s.stage.Opened? && s.setup.service && !c.Drop? && !c.Mark?
  }

  ghost function Next<T(!new)>(s: Conn<T>, step: Step<T>): Conn<T>
    requires Enabled(s, step)
  {
    match step
    case Accepted(ok) => HandleAccept(s, ok)
    case Resolved(ok, n) => HandleResolve(s, ok, n)
    case Connected(ok) => HandleConnect(s, ok)
    case Handshook(ok, cb) => HandleHandshake(s, ok, cb)
    case Posted(cb) => RunTask(s, cb)
    case ReadDone(ok, data, cb) => HandleRecv(s, ok, data, cb)
    case WriteDone(ok, cb) => HandleSend(s, ok, cb)
    case Api(c) => Apply(s, c)
  }

  ghost predicate Legal<T(!new)>(s: Conn<T>, steps: seq<Step<T>>)
    decreases |steps|
  {
    steps != [] ==> Enabled(s, steps[0]) && Legal(Next(s, steps[0]), steps[1..])
  }

  ghost function Run<T(!new)>(s: Conn<T>, steps: seq<Step<T>>): Conn<T>
    requires Legal(s, steps)
    decreases |steps|
  {
    if steps == [] then s else Run(Next(s, steps[0]), steps[1..])
  }
}
