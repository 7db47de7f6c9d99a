/** The pool of workers running connections. Each io_context has a first-in-first-out queue of posted
    handlers and one worker; completions of operations in flight are run by the worker of the context they
    are delivered to, at any time. A handler that calls user code is not atomic here: it enters the
    callback, the callback makes its calls one by one, and it returns, while other workers run and other
    threads call the API in between. What is proved is that every connection nevertheless lives a run of the
    step machine, in which each handler is one step. */
module Workers {
  import opened ConnectionMachine
  import L = ConnectionLaws
  import Q = SendQueue

  /** A posted handler, or a completion, given as the step it makes; the callback of that step is not
      looked at. */
  datatype Job<T> = Queued(task: Task) | Completed(step: Step<T>)

  /** A connection with its m_io_context, the context its socket and resolver were made with, and the context of the
      listening socket when it is accepted. `first` and `log` are history: its initial state and the steps
      of the handlers that have returned. */
  datatype Session<T> = Session(context: nat, socket: nat, listener: nat, conn: Conn<T>,
                                first: Conn<T>, log: seq<Step<T>>)

  datatype Item = Item(conn: nat, task: Task)

  /** What a worker is doing: nothing, a handler that makes no callback, a handler of a listening socket, or a
      callback of a connection. `from` and `calls` are history: the state in which the handler began, and
      the calls made on the connection since it entered the callback. */
  datatype Worker<T> =
    | Free
    | Busy(conn: nat)
    | Listening
    | Inside(conn: nat, job: Job<T>, from: Conn<T>, calls: seq<Call>)

  datatype Pool<T> = Pool(sessions: seq<Session<T>>, queues: seq<seq<Item>>, workers: seq<Worker<T>>)

  // ---------------------------------------------------------------- which context is named where

  /** A session's socket is made with the context the session is given. */
  function NewSession<T>(ioContext: nat, listener: nat, first: Conn<T>): Session<T> {
    Session(ioContext, ioContext, listener, first.(posted := []), first, [])
  }

  /** The context named where a handler is posted. */
  function PostContext<T>(s: Session<T>, task: Task): nat {
    match task
    case Start => s.context   // after a connect, and by the manager after an accept or a synchronous connect
    case Stop => s.context    // close
    case Push(_) => s.context // post_send_data
  }

  /** The context that a completion is delivered to: that of the object the operation was started on. */
  function CompletionContext<T>(s: Session<T>, step: Step<T>): nat {
    if step.Accepted? then s.listener else s.socket
  }

  // ---------------------------------------------------------------- the three parts of a handler

  const NONE := Callback([], true)

  function WithCallback<T>(step: Step<T>, cb: Callback): Step<T> {
    match step
    case Handshook(ok, _) => Handshook(ok, cb)
    case ReadDone(ok, data, _) => ReadDone(ok, data, cb)
    case WriteDone(ok, _) => WriteDone(ok, cb)
    case _ => step
  }

  /** The step of the machine that a handler is. */
  function StepOf<T>(job: Job<T>, cb: Callback): Step<T> {
    match job
    case Queued(_) => Posted(cb)
    case Completed(step) => WithCallback(step, cb)
  }

  /** The state a handler finds: a posted one has left the queue. */
  function Before<T>(s: Conn<T>, job: Job<T>): Conn<T> {
    if job.Queued? && s.posted != [] then s.(posted := s.posted[1..]) else s
  }

  ghost predicate InFlight<T(!new)>(s: Conn<T>, step: Step<T>) {
    Enabled(s, step) && !step.Posted? && !step.Api?
  }

  /** The handler `job` will call back about the connection. */
  ghost predicate CallsBack<T(!new)>(s: Conn<T>, job: Job<T>) {
    && s.setup.service
    && match job
       case Queued(task) => (task.Start? && !s.setup.ssl) || (task.Stop? && s.running)
       case Completed(step) =>
         match step
         case Handshook(ok, _) => ok
         case ReadDone(ok, data, _) =>
           ok && s.inbox.reading > 0 && (s.setup.kind.Udp? || |s.inbox.unread| + |data| >= s.inbox.mark)
         case WriteDone(ok, _) => ok && s.queue.outstanding != [] && |s.queue.deque| <= 1
         case _ => false
  }

  /** Up to the callback. */
  function Entered<T(!new)>(s: Conn<T>, job: Job<T>): Conn<T>
    requires CallsBack(s, job)
  {
    if job.Queued? && job.task.Stop? then
      s.(trace := s.trace + [OnClose])
    else if job.Completed? && job.step.ReadDone? then
      var filled := Receive(Idle(s), job.step.data);
      filled.(trace := filled.trace + [OnRecv])
    else if job.Completed? && job.step.WriteDone? then
      s.(queue := Q.Finish(s.queue), trace := s.trace + [OnSend])
    else
      s.(running := true, stage := Opened, trace := s.trace + [OpenEvent(s)])
  }

  /** From the callback's return on. */
  function Left<T>(s: Conn<T>, job: Job<T>, ok: bool): Conn<T> {
    if job.Queued? && job.task.Stop? then s.(running := false)
    else if job.Completed? && job.step.WriteDone? then if ok then s else Post(s, Stop)
    else if ok then ReadOn(s) else Abandon(s)
  }

  function HandleTask<T>(s: Conn<T>, task: Task, cb: Callback): Conn<T> {
    match task
    case Start => HandleStart(s, cb)
    case Stop => HandleStop(s, cb)
    case Push(pack) => s.(queue := Q.Push(s.queue, pack))
  }

  /** The handler as a whole. */
  ghost function Whole<T(!new)>(s: Conn<T>, job: Job<T>, cb: Callback): Conn<T>
    requires job.Completed? ==> InFlight(s, job.step)
  {
    match job
    case Queued(task) => HandleTask(s, task, cb)
    case Completed(step) => Next(s, WithCallback(step, cb))
  }

  /** A handler that calls back is its three parts, with the callback's calls in the middle. */
  lemma ThreeParts<T(!new)>(s: Conn<T>, job: Job<T>, cb: Callback)
    requires CallsBack(s, job) && (job.Completed? ==> InFlight(s, job.step))
    ensures Whole(s, job, cb) == Left(ApplyAll(Entered(s, job), cb.calls), job, cb.ok)
  {
    L.InvokeFrame(s.(running := true, stage := Opened), OpenEvent(s), cb);
    match job
    case Queued(task) =>
    case Completed(step) =>
      match step
      case Handshook(_, _) =>
      case ReadDone(_, data, _) =>
      case WriteDone(_, _) =>
  }

  // ---------------------------------------------------------------- the pool's steps

  function Items(c: nat, tasks: seq<Task>): seq<Item> {
    seq(|tasks|, i requires 0 <= i < |tasks| => Item(c, tasks[i]))
  }

  /** Posts handlers of connection `c`, each to the context that is named for it. */
  function Dispatch<T>(queues: seq<seq<Item>>, s: Session<T>, c: nat, tasks: seq<Task>): seq<seq<Item>>
    decreases |tasks|
  {
    if tasks == [] then queues
    else
      var w := PostContext(s, tasks[0]);
      Dispatch(if w < |queues| then queues[w := queues[w] + [Item(c, tasks[0])]] else queues, s, c, tasks[1..])
  }

  /** Connection `c` becomes `t`, and the handlers it has posted on the way are delivered. */
  function Save<T>(p: Pool<T>, c: nat, t: Conn<T>): Pool<T>
    requires c < |p.sessions|
  {
    var s := p.sessions[c];
    var posted := if |s.conn.posted| <= |t.posted| then t.posted[|s.conn.posted|..] else [];
    p.(sessions := p.sessions[c := s.(conn := t)], queues := Dispatch(p.queues, s, c, posted))
  }

  function SetWorker<T>(p: Pool<T>, w: nat, worker: Worker<T>): Pool<T>
    requires w < |p.workers|
  {
    p.(workers := p.workers[w := worker])
  }

  function Record<T>(p: Pool<T>, c: nat, step: Step<T>): Pool<T>
    requires c < |p.sessions|
  {
    p.(sessions := p.sessions[c := p.sessions[c].(log := p.sessions[c].log + [step])])
  }

  /** The worker of its context is inside a callback of connection `c`. */
  predicate Within<T>(p: Pool<T>, c: nat)
    requires c < |p.sessions|
  {
    var w := p.sessions[c].context;
    w < |p.workers| && p.workers[w].Inside? && p.workers[w].conn == c
  }

  /** One call on connection `c`. If it comes while a callback of `c` runs, it is remembered among the calls
      made since the callback was entered. */
  function Touch<T>(p: Pool<T>, c: nat, call: Call, step: Step<T>): Pool<T>
    requires c < |p.sessions|
  {
    var q := Save(p, c, Apply(p.sessions[c].conn, call));
    if Within(p, c) then
      var w := p.sessions[c].context;
      q.(workers := q.workers[w := p.workers[w].(calls := p.workers[w].calls + [call])])
    else Record(q, c, step)
  }

  /** Worker `w` takes up a handler of connection `c`. */
  ghost function Take<T(!new)>(p: Pool<T>, w: nat, c: nat, job: Job<T>): Pool<T>
    requires w < |p.workers| && c < |p.sessions|
    requires job.Completed? ==> InFlight(p.sessions[c].conn, job.step)
  {
    var from := p.sessions[c].conn;
    var s := Before(from, job);
    var popped := p.(sessions := p.sessions[c := p.sessions[c].(conn := s)]);
    if CallsBack(s, job) then
      SetWorker(Save(popped, c, Entered(s, job)), w, Inside(c, job, from, []))
    else
      var q := Record(Save(popped, c, Whole(s, job, NONE)), c, StepOf(job, NONE));
      SetWorker(q, w, if job.Completed? && job.step.Accepted? then Listening else Busy(c))
  }

  datatype PoolStep<T> =
    | Create(ioContext: nat, listener: nat, first: Conn<T>)
    | Begin(worker: nat)                                // the front of the worker's queue
    | Complete(worker: nat, conn: nat, step: Step<T>)   // a completion
    | Act(worker: nat, call: Call)                      // the callback calls its own connection
    | Return(worker: nat, ok: bool)                     // the callback returns, and the handler ends
    | End(worker: nat)                                  // a handler without callback ends
    | FromOutside(conn: nat, call: Call)                // a call from anywhere else

  ghost predicate CanStep<T(!new)>(p: Pool<T>, step: PoolStep<T>) {
    match step
    case Create(k, l, first) => k < |p.workers| && l < |p.workers| && Initial(first)
    case Begin(w) =>
      w < |p.workers| && p.workers[w].Free? && w < |p.queues| && p.queues[w] != []
      && p.queues[w][0].conn < |p.sessions|
    case Complete(w, c, done) =>
      w < |p.workers| && p.workers[w].Free? && c < |p.sessions| && InFlight(p.sessions[c].conn, done)
      && CompletionContext(p.sessions[c], done) == w
    case Act(w, _) => w < |p.workers| && p.workers[w].Inside? && p.workers[w].conn < |p.sessions|
    case Return(w, _) => w < |p.workers| && p.workers[w].Inside? && p.workers[w].conn < |p.sessions|
    case End(w) => w < |p.workers| && (p.workers[w].Busy? || p.workers[w].Listening?)
    case FromOutside(c, call) => c < |p.sessions| && Enabled(p.sessions[c].conn, Api(call))
  }

  ghost function PoolNext<T(!new)>(p: Pool<T>, step: PoolStep<T>): Pool<T>
    requires CanStep(p, step)
  {
    match step
    case Create(k, l, first) =>
      Save(p.(sessions := p.sessions + [NewSession(k, l, first)]), |p.sessions|, first)
    case Begin(w) =>
      var item := p.queues[w][0];
      Take(p.(queues := p.queues[w := p.queues[w][1..]]), w, item.conn, Queued(item.task))
    case Complete(w, c, done) => Take(p, w, c, Completed(done))
    case Act(w, call) => Touch(p, p.workers[w].conn, call, Api(call))
    case Return(w, ok) =>
      var at := p.workers[w];
      var q := Save(p, at.conn, Left(p.sessions[at.conn].conn, at.job, ok));
      SetWorker(Record(q, at.conn, StepOf(at.job, Callback(at.calls, ok))), w, Free)
    case End(w) => SetWorker(p, w, Free)
    case FromOutside(c, call) => Touch(p, c, call, Api(call))
  }

  /** Every context has one worker (IoServicePool.Init). */
  function NewPool<T>(n: nat): Pool<T> {
    Pool([], seq(n, _ => []), seq(n, _ => Free))
  }

  ghost predicate PoolLegal<T(!new)>(p: Pool<T>, steps: seq<PoolStep<T>>)
    decreases |steps|
  {
    steps != [] ==> CanStep(p, steps[0]) && PoolLegal(PoolNext(p, steps[0]), steps[1..])
  }

  ghost function PoolRun<T(!new)>(p: Pool<T>, steps: seq<PoolStep<T>>): Pool<T>
    requires PoolLegal(p, steps)
    decreases |steps|
  {
    if steps == [] then p else PoolRun(PoolNext(p, steps[0]), steps[1..])
  }
}
