/** The queue of packs waiting to be written, whose front is the one being written.
    `outstanding` lists the write operations that have been started and not completed, each with
    the pack it was started on, so that "at most one" is a theorem and not built in. */
module SendQueue {

  datatype Queue<T> = Queue(deque: seq<T>, outstanding: seq<T>, failed: bool, sent: seq<T>)

  function Empty<T>(): Queue<T> {
    Queue([], [], false, [])
  }

  /** Starts a write of the front pack. */
  function Start<T>(q: Queue<T>): Queue<T> {
    if q.deque == [] then q else q.(outstanding := q.outstanding + [q.deque[0]])
  }

  function Push<T>(q: Queue<T>, x: T): Queue<T> {
    var needSend := q.deque == [];
    var q' := q.(deque := q.deque + [x]);
    if needSend then Start(q') else q'
  }

  /** A write completed: what it was started on has been sent, the front pack is popped and, when
      packs are left, the next write is started. */
  function Finish<T>(q: Queue<T>): Queue<T>
    requires q.outstanding != []
  {
    Start(Queue(if q.deque == [] then [] else q.deque[1..],
                q.outstanding[1..], q.failed, q.sent + [q.outstanding[0]]))
  }

  /** A write failed: nothing is popped and nothing is started. */
  function Break<T>(q: Queue<T>): Queue<T>
    requires q.outstanding != []
  {
    q.(outstanding := q.outstanding[1..], failed := true)
  }

  /** One write is outstanding exactly when the deque is non-empty and no write has failed, and it
      was started on the pack that is still in front. */
  ghost predicate Valid<T>(q: Queue<T>) {
    && q.outstanding == (if q.deque != [] && !q.failed then [q.deque[0]] else [])
    && (q.failed ==> q.deque != [])
  }

  /** Everything handed over so far, in the order it was pushed. */
  function Pushed<T>(q: Queue<T>): seq<T> {
    q.sent + q.deque
  }

  lemma PushKeeps<T>(q: Queue<T>, x: T)
    requires Valid(q)
    ensures Valid(Push(q, x)) && Pushed(Push(q, x)) == Pushed(q) + [x]
    ensures Push(q, x).sent == q.sent && Push(q, x).failed == q.failed
    ensures q.outstanding <= Push(q, x).outstanding
  {
  }

  lemma FinishKeeps<T>(q: Queue<T>)
    requires Valid(q) && q.outstanding != []
    ensures Valid(Finish(q)) && Pushed(Finish(q)) == Pushed(q) && !Finish(q).failed
    ensures q.deque == [q.outstanding[0]] + Finish(q).deque
    ensures Finish(q).sent == q.sent + [q.outstanding[0]]
  {
  }

  lemma BreakKeeps<T>(q: Queue<T>)
    requires Valid(q) && q.outstanding != []
    ensures Valid(Break(q)) && Pushed(Break(q)) == Pushed(q) && Break(q).sent == q.sent
  {
  }

  /** Completes `n` writes in a row. */
  function FinishAll<T>(q: Queue<T>, n: nat): Queue<T>
    requires Valid(q) && n <= |q.deque| && !q.failed
    decreases n
  {
    if n == 0 then q else FinishKeeps(q); FinishAll(Finish(q), n - 1)
  }

  /** Completing as many writes as there are packs sends everything pushed, in order, and leaves no
      write in flight. */
  lemma {:induction false} Drains<T>(q: Queue<T>, n: nat)
    requires Valid(q) && !q.failed && n == |q.deque|
    ensures FinishAll(q, n) == Queue([], [], false, Pushed(q))
    decreases n
  {
    if n == 0 {
      assert q.sent + [] == q.sent;
    } else {
      FinishKeeps(q);
      Drains(Finish(q), n - 1);
    }
  }
}
