/** The pool of io_contexts: one worker each, handed out in turn. */
module IoContextPool {

  /** The range of std::size_t. */
  const SIZE_T: nat := 0x1_0000_0000_0000_0000

  class IoServicePool {
    var contexts: nat
    var threads: nat
    var next: nat

    /** Every worker has its own context. */
    predicate Valid()
      reads this
    {
      threads <= contexts
    }

    constructor ()
      ensures Valid() && contexts == 0 && threads == 0 && next == 0
    {
      contexts, threads, next := 0, 0, 0;
    }

    /** `starts` says which threads can be created. After success every context has its own worker,
        provided that no context was left over from an initialization that failed. */
    method Init(poolSize: nat, starts: seq<bool>) returns (ok: bool)
      requires |starts| == poolSize && Valid()
      modifies this
      ensures Valid()
      ensures ok <==> poolSize > 0 && old(threads) == 0 && forall i | 0 <= i < poolSize :: starts[i]
      ensures ok ==> threads == poolSize && contexts == old(contexts) + poolSize
      ensures ok ==> (threads == contexts <==> old(contexts) == 0)
      ensures next == old(next)
    {
      if poolSize == 0 {
        return false;
      }
      if threads > 0 {
        return false;
      }
      var index := 0;
      while index < poolSize
        invariant index <= poolSize && threads == index && contexts == old(contexts) + index
        invariant next == old(next)
        invariant forall i | 0 <= i < index :: starts[i]
      {
        contexts := contexts + 1;
        if !starts[index] {
          return false;
        }
        threads := threads + 1;
        index := index + 1;
      }
      ok := true;
    }

    method Get() returns (index: nat)
      requires contexts > 0 && next < SIZE_T
      modifies this`next
      ensures index == old(next) % contexts && index < contexts
      ensures next == (old(next) + 1) % SIZE_T
    {
      index := next % contexts;
      next := (next + 1) % SIZE_T;
    }
  }

  /** How often context `i` of `n` is returned by the first `calls` calls of Get on a new pool. */
  function Load(n: nat, calls: nat, i: nat): nat
    requires n > 0
  {
    if calls == 0 then 0
    else Load(n, calls - 1, i) + (if (calls - 1) % SIZE_T % n == i then 1 else 0)
  }

  lemma DivModStep(k: nat, n: nat)
    requires n > 0
    ensures if k % n == n - 1 then (k + 1) / n == k / n + 1 && (k + 1) % n == 0
            else (k + 1) / n == k / n && (k + 1) % n == k % n + 1
  {
    var q, r := k / n, k % n;
    assert k == q * n + r;
    if r == n - 1 {
      assert k + 1 == (q + 1) * n + 0;
      DivModUnique(k + 1, n, q + 1, 0);
    } else {
      assert k + 1 == q * n + (r + 1);
      DivModUnique(k + 1, n, q, r + 1);
    }
  }

  lemma {:induction false} Multiples(p: nat, d: nat, n: nat)
    requires d > 0
    ensures (p + d) * n >= p * n + n
    decreases d
  {
    if d == 1 {
      assert (p + 1) * n == p * n + n;
    } else {
      Multiples(p, d - 1, n);
      var s := p + d - 1;
      assert (s + 1) * n == s * n + n;
    }
  }

  lemma QuotientBound(n: nat, q: nat, r: nat, p: nat, t: nat)
    requires q * n + r == p * n + t && r < n && t < n
    ensures q <= p
  {
    if q > p {
      Multiples(p, q - p, n);
    }
  }

  lemma DivModUnique(k: nat, n: nat, q: nat, r: nat)
    requires n > 0 && k == q * n + r && r < n
    ensures k / n == q && k % n == r
  {
    var p, t := k / n, k % n;
    assert k == p * n + t;
    QuotientBound(n, q, r, p, t);
    QuotientBound(n, p, t, q, r);
  }

  /** While the counter has not wrapped, after any number of calls every context has been returned equally
      often, but for one more for the first `calls % n`. */
  lemma {:induction false} RoundRobinLoad(n: nat, calls: nat, i: nat)
    requires 0 < n && i < n && calls <= SIZE_T
    ensures Load(n, calls, i) == calls / n + (if i < calls % n then 1 else 0)
    decreases calls
  {
    if calls == 0 {
      DivModUnique(0, n, 0, 0);
    } else {
      var k := calls - 1;
      RoundRobinLoad(n, k, i);
      InRange(k);
      DivModStep(k, n);
      NextShare(n, i, k / n, k % n, calls / n, calls % n);
    }
  }

  lemma InRange(k: nat)
    requires k < SIZE_T
    ensures k % SIZE_T == k
  {
  }

  /** The share of context `i` from one call to the next. */
  lemma NextShare(n: nat, i: nat, q: nat, r: nat, p: nat, t: nat)
    requires i < n && r < n
    requires if r == n - 1 then p == q + 1 && t == 0 else p == q && t == r + 1
    ensures q + (if i < r then 1 else 0) + (if r == i then 1 else 0) == p + (if i < t then 1 else 0)
  {
  }

  lemma LoadsDifferByOne(n: nat, calls: nat, i: nat, j: nat)
    requires i < n && j < n && calls <= SIZE_T
    ensures Load(n, calls, i) <= Load(n, calls, j) + 1
  {
    RoundRobinLoad(n, calls, i);
    RoundRobinLoad(n, calls, j);
  }

  /** From one call to the next the index moves on by one, except where the counter wraps and the number
      of contexts does not divide its range. */
  lemma RoundRobinStep(counter: nat, n: nat)
    requires n > 0 && counter < SIZE_T
    ensures (counter + 1) % SIZE_T % n == (counter % n + 1) % n <==> counter + 1 < SIZE_T || SIZE_T % n == 0
  {
    DivModStep(counter, n);
    if counter % n + 1 < n {
      DivModUnique(counter % n + 1, n, 0, counter % n + 1);
    } else {
      DivModUnique(n, n, 1, 0);
    }
    if counter + 1 < SIZE_T {
      DivModUnique(counter + 1, SIZE_T, 0, counter + 1);
    } else {
      DivModUnique(SIZE_T, SIZE_T, 1, 0);
      DivModUnique(0, n, 0, 0);
    }
  }

  /** Of three contexts the first is returned by the last call before the wrap and again by the next. */
  lemma WrapRepeats()
    ensures (SIZE_T - 1) % 3 == 0 && (SIZE_T - 1 + 1) % SIZE_T % 3 == 0
    ensures SIZE_T % 3 != 0
  {
  }
}
