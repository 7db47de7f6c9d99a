/** Every run of the pool is, for each connection, a run of the step machine. */
module PoolRefinement {
  import opened Octets
  import opened ConnectionMachine
  import opened Workers
  import I = ConnectionInvariant
  import L = ConnectionLaws

  // ---------------------------------------------------------------- queues

  /** The handlers of one connection in a queue, in order. */
  function TasksOf(items: seq<Item>, c: nat): seq<Task> {
    if items == [] then []
    else (if items[0].conn == c then [items[0].task] else []) + TasksOf(items[1..], c)
  }

  lemma {:induction false} TasksOfConcat(a: seq<Item>, b: seq<Item>, c: nat)
    ensures TasksOf(a + b, c) == TasksOf(a, c) + TasksOf(b, c)
  {
    if a == [] {
      assert a + b == b;
    } else {
      assert (a + b)[0] == a[0] && (a + b)[1..] == a[1..] + b;
      TasksOfConcat(a[1..], b, c);
      Assoc(if a[0].conn == c then [a[0].task] else [], TasksOf(a[1..], c), TasksOf(b, c));
    }
  }

  lemma {:induction false} TasksOfItems(c: nat, d: nat, tasks: seq<Task>)
    ensures TasksOf(Items(c, tasks), d) == if c == d then tasks else []
  {
    if tasks != [] {
      assert Items(c, tasks)[1..] == Items(c, tasks[1..]);
      TasksOfItems(c, d, tasks[1..]);
    }
  }

  lemma {:induction false} TasksOfAbsent(items: seq<Item>, c: nat)
    requires forall item | item in items :: item.conn != c
    ensures TasksOf(items, c) == []
  {
    if items != [] {
      TasksOfAbsent(items[1..], c);
    }
  }

  /** All posting sites name the same context, that of the connection. */
  lemma {:induction false} DispatchIs<T>(queues: seq<seq<Item>>, s: Session<T>, c: nat, tasks: seq<Task>)
    requires s.context < |queues|
    ensures Dispatch(queues, s, c, tasks) == queues[s.context := queues[s.context] + Items(c, tasks)]
    decreases |tasks|
  {
    var w := s.context;
    if tasks == [] {
      assert queues[w] + Items(c, tasks) == queues[w];
    } else {
      var more := queues[w := queues[w] + [Item(c, tasks[0])]];
      DispatchIs(more, s, c, tasks[1..]);
      assert [Item(c, tasks[0])] + Items(c, tasks[1..]) == Items(c, tasks);
      Assoc(queues[w], [Item(c, tasks[0])], Items(c, tasks[1..]));
    }
  }

  /** The queue of its context holds, restricted to a connection, exactly the connection's posted handlers,
      and no other queue holds any. */
  ghost predicate OwnQueue<T(!new)>(p: Pool<T>, c: nat)
    requires c < |p.sessions|
  {
    var s := p.sessions[c];
    && s.context < |p.queues| && s.socket == s.context
    && forall w | 0 <= w < |p.queues| :: TasksOf(p.queues[w], c) == if w == s.context then s.conn.posted else []
  }

  ghost predicate QueueInv<T(!new)>(p: Pool<T>) {
    && |p.queues| == |p.workers|
    && (forall w, item | 0 <= w < |p.queues| && item in p.queues[w] :: item.conn < |p.sessions|)
    && (forall c | 0 <= c < |p.sessions| :: OwnQueue(p, c))
  }

  lemma SaveKeeps<T(!new)>(p: Pool<T>, c: nat, t: Conn<T>)
    requires QueueInv(p) && c < |p.sessions| && p.sessions[c].conn.posted <= t.posted
    ensures QueueInv(Save(p, c, t))
    ensures var q := Save(p, c, t); q.workers == p.workers && q.sessions == p.sessions[c := p.sessions[c].(conn := t)]
  {
    var s, q := p.sessions[c], Save(p, c, t);
    assert OwnQueue(p, c);
    var posted := t.posted[|s.conn.posted|..];
    DispatchIs(p.queues, s, c, posted);
    forall w, item | 0 <= w < |q.queues| && item in q.queues[w] ensures item.conn < |q.sessions| {
      assert item in p.queues[w] || item in Items(c, posted);
    }
    assert s.conn.posted + posted == t.posted;
    forall d | 0 <= d < |q.sessions| ensures OwnQueue(q, d) {
      SavedQueue(p, q, c, d, posted);
    }
  }

  lemma SavedQueue<T(!new)>(p: Pool<T>, q: Pool<T>, c: nat, d: nat, posted: seq<Task>)
    requires c < |p.sessions| == |q.sessions| && d < |p.sessions| && OwnQueue(p, c) && OwnQueue(p, d)
    requires var s := p.sessions[c];
             && q.queues == p.queues[s.context := p.queues[s.context] + Items(c, posted)]
             && q.sessions == p.sessions[c := s.(conn := q.sessions[c].conn)]
             && q.sessions[c].conn.posted == s.conn.posted + posted
    ensures OwnQueue(q, d)
  {
    TasksOfItems(c, d, posted);
    TasksOfConcat(p.queues[p.sessions[c].context], Items(c, posted), d);
  }

  /** Taking the front of a queue takes the front of its connection's posted handlers. */
  lemma FrontTask<T(!new)>(p: Pool<T>, w: nat)
    requires QueueInv(p) && w < |p.queues| && p.queues[w] != []
    ensures var item := p.queues[w][0];
            && item.conn < |p.sessions| && p.sessions[item.conn].context == w
            && var s := p.sessions[item.conn];
            && s.conn.posted != [] && s.conn.posted[0] == item.task
            && QueueInv(p.(queues := p.queues[w := p.queues[w][1..]],
                           sessions := p.sessions[item.conn := s.(conn := Before(s.conn, Queued(item.task)))]))
  {
    var item := p.queues[w][0];
    assert OwnQueue(p, item.conn);
    assert TasksOf(p.queues[w], item.conn) == [item.task] + TasksOf(p.queues[w][1..], item.conn);
    var s := p.sessions[item.conn];
    var q := p.(queues := p.queues[w := p.queues[w][1..]],
                sessions := p.sessions[item.conn := s.(conn := Before(s.conn, Queued(item.task)))]);
    forall v, i | 0 <= v < |q.queues| && i in q.queues[v] ensures i.conn < |q.sessions| {
      assert i in p.queues[v];
    }
    forall d | 0 <= d < |q.sessions| ensures OwnQueue(q, d) {
      assert OwnQueue(p, d);
      assert TasksOf(p.queues[w], d) ==
             (if item.conn == d then [item.task] else []) + TasksOf(p.queues[w][1..], d);
    }
  }

  // ---------------------------------------------------------------- the life of one connection

  lemma {:induction false} LogStep<T(!new)>(s: Conn<T>, log: seq<Step<T>>, step: Step<T>)
    requires Legal(s, log) && Enabled(Run(s, log), step)
    ensures Legal(s, log + [step]) && Run(s, log + [step]) == Next(Run(s, log), step)
    decreases |log|
  {
    if log == [] {
      assert [] + [step] == [step] && [step][1..] == [];
    } else {
      LogStep(Next(s, log[0]), log[1..], step);
      assert (log + [step])[0] == log[0] && (log + [step])[1..] == log[1..] + [step];
    }
  }

  /** The handler can run: it is the front of the posted queue, or its operation is in flight. */
  ghost predicate Ready<T(!new)>(s: Conn<T>, job: Job<T>) {
    match job
    case Queued(task) => s.posted != [] && s.posted[0] == task
    case Completed(step) => InFlight(s, step)
  }

  lemma JobStep<T(!new)>(s: Conn<T>, job: Job<T>, cb: Callback)
    requires Ready(s, job)
    ensures Enabled(s, StepOf(job, cb)) && Next(s, StepOf(job, cb)) == Whole(Before(s, job), job, cb)
  {
  }

  /** Outside callbacks a connection is where the steps of its handlers have brought it; inside, it is where
      the calls made since the callback was entered have. */
  ghost predicate Lived<T(!new)>(s: Session<T>, k: Worker<T>, c: nat) {
    && Initial(s.first) && Legal(s.first, s.log)
    && var past := Run(s.first, s.log);
       if k.Inside? && k.conn == c then
         && k.from == past && Ready(past, k.job) && CallsBack(Before(past, k.job), k.job)
         && s.conn == ApplyAll(Entered(Before(past, k.job), k.job), k.calls)
       else s.conn == past
  }

  ghost predicate AtHome<T(!new)>(p: Pool<T>, w: nat)
    requires w < |p.workers|
  {
    p.workers[w].Inside? || p.workers[w].Busy? ==>
      p.workers[w].conn < |p.sessions| && p.sessions[p.workers[w].conn].context == w
  }

  ghost predicate LivesInv<T(!new)>(p: Pool<T>) {
    && (forall c | 0 <= c < |p.sessions| ::
          p.sessions[c].context < |p.workers| && Lived(p.sessions[c], p.workers[p.sessions[c].context], c))
    && (forall w | 0 <= w < |p.workers| :: AtHome(p, w))
  }

  ghost predicate PoolInv<T(!new)>(p: Pool<T>) {
    QueueInv(p) && LivesInv(p)
  }

  /** A connection that has lived so far satisfies the machine's invariant. */
  lemma PastInv<T(!new)>(s: Session<T>, k: Worker<T>, c: nat)
    requires Lived(s, k, c)
    ensures I.Inv(Run(s.first, s.log))
  {
    I.InitialInv(s.first);
    I.RunKeeps(s.first, s.log);
  }

  /** Changing one connection and the worker of its context, and nothing about any other. */
  lemma OneLife<T(!new)>(p: Pool<T>, q: Pool<T>, c: nat, w: nat)
    requires LivesInv(p) && c < |p.sessions| && w < |p.workers|
    requires |q.workers| == |p.workers| && |q.sessions| == |p.sessions|
    requires q.sessions == p.sessions[c := q.sessions[c]] && q.workers == p.workers[w := q.workers[w]]
    requires q.sessions[c].context == p.sessions[c].context
    requires Lived(q.sessions[c], q.workers[p.sessions[c].context], c)
    requires p.workers[w].Inside? ==> p.workers[w].conn == c
    requires q.workers[w].Inside? ==> q.workers[w].conn == c
    requires q.workers[w].Inside? || q.workers[w].Busy? ==> q.workers[w].conn == c && p.sessions[c].context == w
    ensures LivesInv(q)
  {
    forall d | 0 <= d < |q.sessions|
      ensures q.sessions[d].context < |q.workers| && Lived(q.sessions[d], q.workers[q.sessions[d].context], d)
    {
      assert Lived(p.sessions[d], p.workers[p.sessions[d].context], d);
    }
    forall v | 0 <= v < |q.workers| ensures AtHome(q, v) {
      assert AtHome(p, v);
    }
  }

  // ---------------------------------------------------------------- taking up a handler

  lemma SilentStep<T(!new)>(s: Conn<T>, job: Job<T>)
    requires I.Inv(s) && Ready(s, job)
    ensures var t := Whole(Before(s, job), job, NONE);
            && Enabled(s, StepOf(job, NONE)) && Next(s, StepOf(job, NONE)) == t && Before(s, job).posted <= t.posted
  {
    JobStep(s, job, NONE);
    L.StepEvents(s, StepOf(job, NONE));
  }

  lemma SilentLife<T(!new)>(s: Session<T>, k: Worker<T>, k': Worker<T>, c: nat, job: Job<T>)
    requires Lived(s, k, c) && !(k.Inside? && k.conn == c) && !(k'.Inside? && k'.conn == c) && Ready(s.conn, job)
    ensures var t := Whole(Before(s.conn, job), job, NONE);
            && Lived(s.(conn := t, log := s.log + [StepOf(job, NONE)]), k', c)
            && Before(s.conn, job).posted <= t.posted
  {
    PastInv(s, k, c);
    SilentStep(s.conn, job);
    LogStep(s.first, s.log, StepOf(job, NONE));
  }

  /** Worker `w` is free for a handler of connection `c`, whose context is not inside a callback of it. */
  ghost predicate CanTake<T(!new)>(p: Pool<T>, w: nat, c: nat, job: Job<T>) {
    && LivesInv(p) && w < |p.workers| && p.workers[w].Free? && c < |p.sessions| && !Within(p, c)
    && Ready(p.sessions[c].conn, job)
    && QueueInv(Popped(p, c, job))
    && (p.sessions[c].context == w || (job.Completed? && job.step.Accepted?))
  }

  /** The pool once the handler has left the posted queue. */
  function Popped<T>(p: Pool<T>, c: nat, job: Job<T>): Pool<T>
    requires c < |p.sessions|
  {
    p.(sessions := p.sessions[c := p.sessions[c].(conn := Before(p.sessions[c].conn, job))])
  }

  lemma TakeInside<T(!new)>(p: Pool<T>, w: nat, c: nat, job: Job<T>)
    requires CanTake(p, w, c, job) && CallsBack(Before(p.sessions[c].conn, job), job)
    ensures PoolInv(Take(p, w, c, job))
  {
    var from := p.sessions[c].conn;
    var t := Entered(Before(from, job), job);
    var saved := Save(Popped(p, c, job), c, t);
    SaveKeeps(Popped(p, c, job), c, t);
    WorkerKeeps(saved, w, Inside(c, job, from, []));
    var q := SetWorker(saved, w, Inside(c, job, from, []));
    assert Lived(p.sessions[c], p.workers[p.sessions[c].context], c);
    assert ApplyAll(t, []) == t;
    assert q.sessions[c] == p.sessions[c].(conn := t);
    OneLife(p, q, c, w);
  }

  lemma TakeSilent<T(!new)>(p: Pool<T>, w: nat, c: nat, job: Job<T>)
    requires CanTake(p, w, c, job) && !CallsBack(Before(p.sessions[c].conn, job), job)
    ensures PoolInv(Take(p, w, c, job))
  {
    var s := p.sessions[c];
    var t := Whole(Before(s.conn, job), job, NONE);
    var after := if job.Completed? && job.step.Accepted? then Listening else Busy(c);
    var home := if s.context == w then after else p.workers[s.context];
    SilentLife(s, p.workers[s.context], home, c, job);
    SaveKeeps(Popped(p, c, job), c, t);
    var saved := Save(Popped(p, c, job), c, t);
    RecordKeeps(saved, c, StepOf(job, NONE));
    var recorded := Record(saved, c, StepOf(job, NONE));
    WorkerKeeps(recorded, w, after);
    var q := SetWorker(recorded, w, after);
    assert q.sessions[c] == s.(conn := t, log := s.log + [StepOf(job, NONE)]);
    OneLife(p, q, c, w);
  }

  lemma TakeKeeps<T(!new)>(p: Pool<T>, w: nat, c: nat, job: Job<T>)
    requires CanTake(p, w, c, job)
    ensures PoolInv(Take(p, w, c, job))
  {
    if CallsBack(Before(p.sessions[c].conn, job), job) {
      TakeInside(p, w, c, job);
    } else {
      TakeSilent(p, w, c, job);
    }
  }

  lemma RecordKeeps<T(!new)>(p: Pool<T>, c: nat, step: Step<T>)
    requires QueueInv(p) && c < |p.sessions|
    ensures QueueInv(Record(p, c, step))
  {
    forall d | 0 <= d < |p.sessions| ensures OwnQueue(Record(p, c, step), d) {
      assert OwnQueue(p, d);
    }
  }

  lemma WorkerKeeps<T(!new)>(p: Pool<T>, w: nat, k: Worker<T>)
    requires QueueInv(p) && w < |p.workers|
    ensures QueueInv(SetWorker(p, w, k))
  {
    forall d | 0 <= d < |p.sessions| ensures OwnQueue(SetWorker(p, w, k), d) {
      assert OwnQueue(p, d);
    }
  }

  // ---------------------------------------------------------------- the steps of the pool

  lemma BeginKeeps<T(!new)>(p: Pool<T>, w: nat)
    requires PoolInv(p) && CanStep(p, PoolStep.Begin(w))
    ensures PoolInv(PoolNext(p, PoolStep.Begin(w)))
  {
    var item := p.queues[w][0];
    FrontTask(p, w);
    var q := p.(queues := p.queues[w := p.queues[w][1..]]);
    assert Popped(q, item.conn, Queued(item.task)) ==
           p.(queues := q.queues, sessions := Popped(q, item.conn, Queued(item.task)).sessions);
    SameLives(p, q);
    TakeKeeps(q, w, item.conn, Queued(item.task));
  }

  lemma SameLives<T(!new)>(p: Pool<T>, q: Pool<T>)
    requires LivesInv(p) && q.sessions == p.sessions && q.workers == p.workers
    ensures LivesInv(q)
  {
    forall w | 0 <= w < |q.workers| ensures AtHome(q, w) {
      assert AtHome(p, w);
    }
  }

  /** Inside a callback the connection is open. */
  lemma WithinIsOpen<T(!new)>(p: Pool<T>, c: nat)
    requires LivesInv(p) && c < |p.sessions| && Within(p, c)
    ensures p.sessions[c].conn.stage.Opened?
  {
    var s, k := p.sessions[c], p.workers[p.sessions[c].context];
    assert Lived(s, k, c);
    PastInv(s, k, c);
    var entered := Entered(Before(k.from, k.job), k.job);
    EnteredIsOpen(k.from, k.job);
    var _ := I.CallsGrow(entered, k.calls);
  }

  lemma EnteredIsOpen<T(!new)>(s: Conn<T>, job: Job<T>)
    requires I.Inv(s) && Ready(s, job) && CallsBack(Before(s, job), job)
    ensures Entered(Before(s, job), job).stage.Opened?
  {
  }

  lemma CompleteKeeps<T(!new)>(p: Pool<T>, w: nat, c: nat, step: Step<T>)
    requires PoolInv(p) && CanStep(p, PoolStep.Complete(w, c, step))
    ensures PoolInv(PoolNext(p, PoolStep.Complete(w, c, step)))
  {
    assert OwnQueue(p, c);
    if Within(p, c) {
      WithinIsOpen(p, c);
    }
    assert Popped(p, c, Completed(step)) == p by {
      assert p.sessions[c := p.sessions[c]] == p.sessions;
    }
    TakeKeeps(p, w, c, Completed(step));
  }

  /** A call in the middle of a callback is one more of the calls made since it was entered; any other is a
      step of its own. */
  lemma TouchKeeps<T(!new)>(p: Pool<T>, c: nat, call: Call)
    requires PoolInv(p) && c < |p.sessions| && (Within(p, c) || Enabled(p.sessions[c].conn, Api(call)))
    ensures PoolInv(Touch(p, c, call, Api(call)))
  {
    var s, t := p.sessions[c], Apply(p.sessions[c].conn, call);
    var w := s.context;
    assert OwnQueue(p, c) && Lived(s, p.workers[w], c);
    var _ := I.ApplyGrows(s.conn, call);
    SaveKeeps(p, c, t);
    var saved := Save(p, c, t);
    if Within(p, c) {
      var k := p.workers[w].(calls := p.workers[w].calls + [call]);
      var entered := Entered(Before(k.from, k.job), k.job);
      ApplyAllConcat(entered, p.workers[w].calls, [call]);
      ApplyAllOne(s.conn, call);
      WorkerKeeps(saved, w, k);
      OneLife(p, SetWorker(saved, w, k), c, w);
    } else {
      LogStep(s.first, s.log, Api(call));
      RecordKeeps(saved, c, Api(call));
      OutsideLife(p, Record(saved, c, Api(call)), c);
    }
  }

  /** Changing one connection that is not inside a callback, and no worker. */
  lemma OutsideLife<T(!new)>(p: Pool<T>, q: Pool<T>, c: nat)
    requires LivesInv(p) && c < |p.sessions| && |q.sessions| == |p.sessions|
    requires q.sessions == p.sessions[c := q.sessions[c]] && q.workers == p.workers
    requires q.sessions[c].context == p.sessions[c].context
    requires Lived(q.sessions[c], q.workers[p.sessions[c].context], c)
    ensures LivesInv(q)
  {
    forall d | 0 <= d < |q.sessions|
      ensures q.sessions[d].context < |q.workers| && Lived(q.sessions[d], q.workers[q.sessions[d].context], d)
    {
      assert Lived(p.sessions[d], p.workers[p.sessions[d].context], d);
    }
    forall v | 0 <= v < |q.workers| ensures AtHome(q, v) {
      assert AtHome(p, v);
    }
  }

  lemma LeftPosts<T>(s: Conn<T>, job: Job<T>, ok: bool)
    ensures s.posted <= Left(s, job, ok).posted
  {
  }

  /** The three parts of the handler together are one step. */
  lemma ReturnedLife<T(!new)>(s: Session<T>, k: Worker<T>, c: nat, ok: bool)
    requires k.Inside? && k.conn == c && Lived(s, k, c)
    ensures Lived(s.(conn := Left(s.conn, k.job, ok), log := s.log + [StepOf(k.job, Callback(k.calls, ok))]), Free, c)
  {
    var cb := Callback(k.calls, ok);
    ThreeParts(Before(k.from, k.job), k.job, cb);
    JobStep(k.from, k.job, cb);
    LogStep(s.first, s.log, StepOf(k.job, cb));
  }

  lemma ReturnKeeps<T(!new)>(p: Pool<T>, w: nat, ok: bool)
    requires PoolInv(p) && CanStep(p, PoolStep.Return(w, ok))
    ensures PoolInv(PoolNext(p, PoolStep.Return(w, ok)))
  {
    var k := p.workers[w];
    var c := k.conn;
    var s, cb := p.sessions[c], Callback(k.calls, ok);
    assert AtHome(p, w) && Lived(s, k, c);
    var t := Left(s.conn, k.job, ok);
    ReturnedLife(s, k, c, ok);
    LeftPosts(s.conn, k.job, ok);
    SaveKeeps(p, c, t);
    RecordKeeps(Save(p, c, t), c, StepOf(k.job, cb));
    WorkerKeeps(Record(Save(p, c, t), c, StepOf(k.job, cb)), w, Free);
    var q := PoolNext(p, PoolStep.Return(w, ok));
    assert q.sessions[c] == s.(conn := t, log := s.log + [StepOf(k.job, cb)]);
    OneLife(p, q, c, w);
  }

  lemma EndKeeps<T(!new)>(p: Pool<T>, w: nat)
    requires PoolInv(p) && CanStep(p, PoolStep.End(w))
    ensures PoolInv(PoolNext(p, PoolStep.End(w)))
  {
    var q := SetWorker(p, w, Free);
    WorkerKeeps(p, w, Free);
    forall d | 0 <= d < |q.sessions|
      ensures q.sessions[d].context < |q.workers| && Lived(q.sessions[d], q.workers[q.sessions[d].context], d)
    {
      assert Lived(p.sessions[d], p.workers[p.sessions[d].context], d);
    }
    forall v | 0 <= v < |q.workers| ensures AtHome(q, v) {
      assert AtHome(p, v);
    }
  }

  lemma CreateKeeps<T(!new)>(p: Pool<T>, k: nat, l: nat, first: Conn<T>)
    requires PoolInv(p) && CanStep(p, PoolStep.Create(k, l, first))
    ensures PoolInv(PoolNext(p, PoolStep.Create(k, l, first)))
  {
    var c := |p.sessions|;
    var made := p.(sessions := p.sessions + [NewSession(k, l, first)]);
    MadeQueues(p, k, l, first);
    SaveKeeps(made, c, first);
    var q := Save(made, c, first);
    forall d | 0 <= d < |q.sessions|
      ensures q.sessions[d].context < |q.workers| && Lived(q.sessions[d], q.workers[q.sessions[d].context], d)
    {
      if d < c {
        assert Lived(p.sessions[d], p.workers[p.sessions[d].context], d);
      } else {
        assert AtHome(p, k);
      }
    }
    forall v | 0 <= v < |q.workers| ensures AtHome(q, v) {
      assert AtHome(p, v);
    }
  }

  lemma MadeQueues<T(!new)>(p: Pool<T>, k: nat, l: nat, first: Conn<T>)
    requires QueueInv(p) && k < |p.workers|
    ensures QueueInv(p.(sessions := p.sessions + [NewSession(k, l, first)]))
  {
    var q := p.(sessions := p.sessions + [NewSession(k, l, first)]);
    forall d | 0 <= d < |q.sessions| ensures OwnQueue(q, d) {
      if d < |p.sessions| {
        assert OwnQueue(p, d);
      } else {
        forall w | 0 <= w < |q.queues| ensures TasksOf(q.queues[w], d) == [] {
          TasksOfAbsent(q.queues[w], d);
        }
      }
    }
  }

  lemma StepKeeps<T(!new)>(p: Pool<T>, step: PoolStep<T>)
    requires PoolInv(p) && CanStep(p, step)
    ensures PoolInv(PoolNext(p, step))
  {
    match step
    case Create(k, l, first) => CreateKeeps(p, k, l, first);
    case Begin(w) => BeginKeeps(p, w);
    case Complete(w, c, done) => CompleteKeeps(p, w, c, done);
    case Act(w, call) =>
      assert AtHome(p, w);
      TouchKeeps(p, p.workers[w].conn, call);
    case Return(w, ok) => ReturnKeeps(p, w, ok);
    case End(w) => EndKeeps(p, w);
    case FromOutside(c, call) => TouchKeeps(p, c, call);
  }

  lemma {:induction false} RunKeeps<T(!new)>(p: Pool<T>, steps: seq<PoolStep<T>>)
    requires PoolInv(p) && PoolLegal(p, steps)
    ensures PoolInv(PoolRun(p, steps))
    decreases |steps|
  {
    if steps != [] {
      StepKeeps(p, steps[0]);
      RunKeeps(PoolNext(p, steps[0]), steps[1..]);
    }
  }

  lemma NewPoolInv<T(!new)>(n: nat)
    ensures PoolInv<T>(NewPool(n))
  {
    var p: Pool<T> := NewPool(n);
    forall w | 0 <= w < |p.workers| ensures AtHome(p, w) {}
  }

  // ---------------------------------------------------------------- results

  /** Over every interleaving each connection lives a legal run of the step machine, one step for each handler
      that has returned and for each call from outside a callback, from one of the machine's initial
      states. Outside callbacks its state is where that run leads; inside, it is where the calls made since
      the callback was entered lead from there. Its posted handlers are, in order, those that wait in the
      queue of its context. */
  lemma ConnectionsLiveRuns<T(!new)>(n: nat, steps: seq<PoolStep<T>>, c: nat)
    requires PoolLegal(NewPool(n), steps) && c < |PoolRun(NewPool(n), steps).sessions|
    ensures var p := PoolRun(NewPool(n), steps);
            var s := p.sessions[c];
            && s.context < |p.workers| && s.context < |p.queues|
            && Initial(s.first) && Legal(s.first, s.log)
            && (if Within(p, c) then
                  var k := p.workers[s.context];
                  && k.from == Run(s.first, s.log) && Ready(k.from, k.job) && CallsBack(Before(k.from, k.job), k.job)
                  && s.conn == ApplyAll(Entered(Before(k.from, k.job), k.job), k.calls)
                else s.conn == Run(s.first, s.log))
            && TasksOf(p.queues[s.context], c) == s.conn.posted
  {
    NewPoolInv<T>(n);
    RunKeeps(NewPool<T>(n), steps);
    var p := PoolRun(NewPool(n), steps);
    assert Lived(p.sessions[c], p.workers[p.sessions[c].context], c) && OwnQueue(p, c);
  }

  /** The worker is running a handler of connection `c`. */
  predicate Handles<T>(k: Worker<T>, c: nat) {
    (k.Inside? || k.Busy?) && k.conn == c
  }

  /** Over every interleaving no two workers run handlers of the same connection at the same time. */
  lemma ExclusiveCallbacks<T(!new)>(n: nat, steps: seq<PoolStep<T>>, v: nat, w: nat, c: nat)
    requires PoolLegal(NewPool(n), steps)
    requires var p := PoolRun(NewPool(n), steps);
             v < |p.workers| && w < |p.workers| && Handles(p.workers[v], c) && Handles(p.workers[w], c)
    ensures v == w
  {
    NewPoolInv<T>(n);
    RunKeeps(NewPool<T>(n), steps);
    var p := PoolRun(NewPool(n), steps);
    assert AtHome(p, v) && AtHome(p, w);
  }

  /** The callback that a handler makes. */
  function EventOf<T>(s: Conn<T>, job: Job<T>): Event {
    match job
    case Queued(task) => if task.Stop? then OnClose else OpenEvent(s)
    case Completed(step) => if step.ReadDone? then OnRecv else if step.WriteDone? then OnSend else OpenEvent(s)
  }

  /** Inside a callback: its event has been added to the callbacks of the past, and nothing else. */
  lemma InsideTrace<T(!new)>(past: Conn<T>, job: Job<T>, calls: seq<Call>)
    requires I.Inv(past) && Ready(past, job) && CallsBack(Before(past, job), job)
    ensures var s := ApplyAll(Entered(Before(past, job), job), calls);
            && s.trace == past.trace + [EventOf(past, job)]
            && s.setup == past.setup && s.stage.Opened?
            && s.running == (past.running || I.Opens(EventOf(past, job)))
            && (!(job.Queued? && job.task.Stop?) && !(job.Completed? && job.step.WriteDone?) ==> s.inbox.reading == 0)
  {
    var _ := I.CallsGrow(Entered(Before(past, job), job), calls);
    EnteredIsOpen(past, job);
  }

  /** Where the pool has entered on_close of connection `c` and not left it. */
  predicate Closing<T>(p: Pool<T>, c: nat)
    requires c < |p.sessions|
  {
    var w := p.sessions[c].context;
    Within(p, c) && p.workers[w].job.Queued? && p.workers[w].job.task.Stop?
  }

  /** The opening callback is first and the only one, on_close comes at most once, and it has come exactly when
      the connection no longer runs or is `closing`. */
  predicate InOrder<T>(s: Conn<T>, closing: bool) {
    && (s.trace != [] ==> s.trace[0] == (if s.stage.Failed? then OnConnect(false) else OpenEvent(s)))
    && (forall i | 0 < i < |s.trace| :: !I.Opens(s.trace[i]))
    && (OnClose in s.trace <==> s.stage.Opened? && (!s.running || closing))
    && I.Closes(s.trace) <= 1
  }

  lemma AppendedOrder(trace: seq<Event>, e: Event)
    requires if I.Opens(e) then trace == [] else forall i | 0 < i < |trace| :: !I.Opens(trace[i])
    ensures forall i | 0 < i < |trace + [e]| :: !I.Opens((trace + [e])[i])
    ensures I.Closes(trace + [e]) == I.Closes(trace) + (if e.OnClose? then 1 else 0)
    ensures OnClose in trace + [e] <==> OnClose in trace || e.OnClose?
  {
    assert multiset(trace + [e]) == multiset(trace) + multiset{e};
  }

  /** What the past says of the callback that is being made. */
  lemma PastOrder<T(!new)>(past: Conn<T>, job: Job<T>)
    requires I.Inv(past) && past.setup.service && Ready(past, job) && CallsBack(Before(past, job), job)
    ensures var e := EventOf(past, job);
            && (if I.Opens(e) then past.trace == [] && e == OpenEvent(past) && !past.stage.Opened?
                else past.trace != [] && past.trace[0] == OpenEvent(past) && past.stage.Opened?)
            && (forall i | 0 < i < |past.trace| :: !I.Opens(past.trace[i]))
            && (e.OnClose? <==> job.Queued? && job.task.Stop?) && (e.OnClose? ==> past.running)
            && I.Closes(past.trace) == if past.stage.Opened? && !past.running then 1 else 0
  {
  }

  lemma InsideOrder<T(!new)>(past: Conn<T>, job: Job<T>, s: Conn<T>)
    requires I.Inv(past) && past.setup.service && Ready(past, job) && CallsBack(Before(past, job), job)
    requires s.trace == past.trace + [EventOf(past, job)] && s.setup == past.setup && s.stage.Opened?
    requires s.running == (past.running || I.Opens(EventOf(past, job)))
    ensures InOrder(s, job.Queued? && job.task.Stop?)
  {
    PastOrder(past, job);
    AppendedOrder(past.trace, EventOf(past, job));
  }

  lemma OutsideOrder<T(!new)>(first: Conn<T>, log: seq<Step<T>>)
    requires Initial(first) && Legal(first, log) && first.setup.service
    ensures InOrder(Run(first, log), false)
  {
    L.CallbackOrder(first, log);
  }

  /** So what is proved of all runs of the machine holds in the pool, inside callbacks too: here, the order of
      callbacks. */
  lemma PooledCallbackOrder<T(!new)>(n: nat, steps: seq<PoolStep<T>>, c: nat)
    requires PoolLegal(NewPool(n), steps) && c < |PoolRun(NewPool(n), steps).sessions|
    requires PoolRun(NewPool(n), steps).sessions[c].first.setup.service
    ensures var p := PoolRun(NewPool(n), steps); InOrder(p.sessions[c].conn, Closing(p, c))
  {
    ConnectionsLiveRuns(n, steps, c);
    var p := PoolRun(NewPool(n), steps);
    var s := p.sessions[c];
    if Within(p, c) {
      var k := p.workers[s.context];
      L.SetupKept(s.first, s.log);
      InsideTrace(k.from, k.job, k.calls);
      InsideOrder(k.from, k.job, s.conn);
    } else {
      OutsideOrder(s.first, s.log);
    }
  }

  /** No read of the connection is in flight while on_recv, on_accept or on_connect runs. */
  lemma NoReadInside<T(!new)>(n: nat, steps: seq<PoolStep<T>>, c: nat)
    requires PoolLegal(NewPool(n), steps) && c < |PoolRun(NewPool(n), steps).sessions|
    requires var p := PoolRun(NewPool(n), steps);
             && Within(p, c)
             && var k := p.workers[p.sessions[c].context];
                var e := EventOf(k.from, k.job);
                e != OnClose && e != OnSend
    ensures PoolRun(NewPool(n), steps).sessions[c].conn.inbox.reading == 0
  {
    ConnectionsLiveRuns(n, steps, c);
    var p := PoolRun(NewPool(n), steps);
    var s := p.sessions[c];
    L.SetupKept(s.first, s.log);
    var k := p.workers[s.context];
    InsideTrace(k.from, k.job, k.calls);
  }
}
