/** The single-threaded counting semaphore (`PODSemaphorePattern` and
    `SemaphorePattern`), generic over the notification order of its
    condition variable. */
module Semaphores {
  import opened Coroutines
  import opened WaitQueue

  /** The counter and the frames waiting on the semaphore's condition
      variable, in wake order. */
  datatype State = State(counter: nat, queue: seq<Coroutine>)

  /** No frame waits twice, and a positive counter means nobody waits. */
  predicate Valid(s: State)
  {
    Distinct(s.queue) && (s.counter > 0 ==> s.queue == [])
  }

  /** Permits minus waiters: what `wait` takes one from and `notify` gives
      one to. */
  function Balance(s: State): int
  {
    s.counter - |s.queue|
  }

  /** The result of a `wait`: the new state and whether the caller proceeds
      without blocking. */
  datatype WaitOutcome = WaitOutcome(state: State, nonblock: bool)

  /** The result of a `notify`: the new state, whether a waiter was resumed,
      and the resumed frames (at most one). */
  datatype NotifyOutcome = NotifyOutcome(state: State, notified: bool, woken: seq<Coroutine>)

  /** `initialise(counter)`. */
  function Initialised(counter: nat): (r: State)
    ensures Valid(r) && Balance(r) == counter && r.queue == []
  {
    State(counter, [])
  }

  /** `WaitCall::libcr_wait`: takes a permit when there is one, otherwise
      queues the caller. */
  function WaitStep(order: Order, s: State, c: Coroutine): (r: WaitOutcome)
    requires c !in s.queue
    ensures Balance(r.state) == Balance(s) - 1
    ensures r.nonblock <==> s.counter > 0
    ensures r.nonblock ==> r.state.queue == s.queue
    ensures !r.nonblock ==> r.state.counter == 0 && r.state.queue == Enqueue(order, s.queue, c)
    ensures Valid(s) ==> Valid(r.state)
  {
    if s.counter == 0 then WaitOutcome(State(0, Enqueue(order, s.queue, c)), false)
    else WaitOutcome(State(s.counter - 1, s.queue), true)
  }

  /** `notify`: resumes the first waiter, or banks a permit when nobody
      waits. */
  function NotifyStep(s: State): (r: NotifyOutcome)
    ensures Balance(r.state) == Balance(s) + 1
    ensures r.notified <==> s.queue != []
    ensures r.notified ==> r.woken == [s.queue[0]] && r.state.counter == s.counter && r.state.queue == s.queue[1..]
    ensures !r.notified ==> r.woken == [] && r.state.counter == s.counter + 1 && r.state.queue == []
    ensures Valid(s) ==> Valid(r.state)
  {
    if s.queue == [] then NotifyOutcome(State(s.counter + 1, []), false, [])
    else NotifyOutcome(State(s.counter, s.queue[1..]), true, [s.queue[0]])
  }

  /** In a valid semaphore the balance alone determines the counter and the
      number of waiters. */
  lemma BalanceDetermines(s: State)
    requires Valid(s)
    ensures s.counter == if Balance(s) > 0 then Balance(s) else 0
    ensures |s.queue| == if Balance(s) < 0 then -Balance(s) else 0
  {
  }

  /** The frames of `cs`, none of them already waiting, wait one after
      another. */
  function WaitEach(order: Order, s: State, cs: seq<Coroutine>): (r: State)
    requires Distinct(cs) && forall c :: c in cs ==> c !in s.queue
    ensures forall c :: c in r.queue ==> c in s.queue || c in cs
    decreases |cs|
  {
    if cs == [] then s
    else
      var mid := WaitEach(order, s, cs[..|cs| - 1]);
      assert cs[|cs| - 1] !in cs[..|cs| - 1];
      WaitStep(order, mid, cs[|cs| - 1]).state
  }

  /** Of `m` fresh waiters on a semaphore with counter `k`, the first `k`
      proceed and the others queue up after the old waiters, in the
      semaphore's order. */
  lemma {:induction false} WaitEachAdmits(order: Order, s: State, cs: seq<Coroutine>)
    requires Valid(s) && Distinct(cs) && forall c :: c in cs ==> c !in s.queue
    ensures Valid(WaitEach(order, s, cs))
    ensures WaitEach(order, s, cs).counter == if s.counter > |cs| then s.counter - |cs| else 0
    ensures WaitEach(order, s, cs).queue == if |cs| <= s.counter then s.queue else Enqueued(order, s.queue, cs[s.counter..])
    decreases |cs|
  {
    if cs != [] {
      var init, last := cs[..|cs| - 1], cs[|cs| - 1];
      WaitEachAdmits(order, s, init);
      var mid := WaitEach(order, s, init);
      assert last !in init;
      var step := WaitStep(order, mid, last);
      assert WaitEach(order, s, cs) == step.state;
      if mid.counter > 0 {
        assert step.state == State(mid.counter - 1, mid.queue);
      } else {
        assert step.state == State(0, Enqueue(order, mid.queue, last));
      }
      if |cs| > s.counter {
        var rest := cs[s.counter..];
        assert rest[..|rest| - 1] == init[s.counter..] && rest[|rest| - 1] == last;
        assert mid.counter == 0;
        if |init| == s.counter {
          assert init[s.counter..] == [];
        }
        assert mid.queue == Enqueued(order, s.queue, init[s.counter..]);
      }
    }
  }

  /** The result of `k` notifications in a row: the final state and the
      frames resumed, in order. */
  function NotifyEach(s: State, k: nat): (r: NotifyOutcome)
    decreases k
  {
    if k == 0 then NotifyOutcome(s, false, [])
    else
      var prev := NotifyEach(s, k - 1);
      var step := NotifyStep(prev.state);
      NotifyOutcome(step.state, prev.notified || step.notified, prev.woken + step.woken)
  }

  function Min(a: nat, b: nat): nat
  {
    if a < b then a else b
  }

  /** A notification on the queue left after the first `m` waiters of `q`
      were resumed wakes waiter `m`, or banks a permit when none is left. */
  lemma NotifyNext(q: seq<Coroutine>, counter: nat, m: nat)
    requires m <= |q|
    ensures NotifyStep(State(counter, q[m..])) ==
      if m < |q| then NotifyOutcome(State(counter, q[m + 1..]), true, [q[m]])
      else NotifyOutcome(State(counter + 1, []), false, [])
  {
    if m < |q| {
      assert q[m..][1..] == q[m + 1..];
    }
  }

  /** `k` notifications resume the first `k` waiters in queue order and bank
      a permit for each notification left over. */
  lemma {:induction false} NotifyEachWakes(s: State, k: nat)
    requires Valid(s)
    ensures NotifyEach(s, k).woken == s.queue[..Min(k, |s.queue|)]
    ensures NotifyEach(s, k).state == State(s.counter + (k - Min(k, |s.queue|)), s.queue[Min(k, |s.queue|)..])
    ensures Valid(NotifyEach(s, k).state)
    decreases k
  {
    if k > 0 {
      var q := s.queue;
      NotifyEachWakes(s, k - 1);
      var prev := NotifyEach(s, k - 1);
      var m := Min(k - 1, |q|);
      NotifyNext(q, prev.state.counter, m);
      var step := NotifyStep(prev.state);
      assert NotifyEach(s, k) == NotifyOutcome(step.state, prev.notified || step.notified, prev.woken + step.woken);
      if m < |q| {
        assert m + 1 == k && Min(k, |q|) == k;
        assert q[..k] == q[..m] + [q[m]];
      } else {
        assert Min(k, |q|) == |q| && q[m..] == [] && q[|q|..] == [];
      }
    }
    NotifyEachKeepsValid(s, k);
  }

  /** Notifications keep the semaphore valid. */
  lemma {:induction false} NotifyEachKeepsValid(s: State, k: nat)
    requires Valid(s)
    ensures Valid(NotifyEach(s, k).state)
    decreases k
  {
    if k > 0 {
      NotifyEachKeepsValid(s, k - 1);
    }
  }

  /** On a semaphore without permits, fresh waiters all queue up, and as
      many notifications resume them in the order the semaphore queued
      them. */
  lemma WakesInQueueOrder(order: Order, cs: seq<Coroutine>)
    requires Distinct(cs)
    ensures NotifyEach(WaitEach(order, State(0, []), cs), |cs|).woken == Enqueued(order, [], cs)
  {
    var s0 := State(0, []);
    var w := WaitEach(order, s0, cs);
    WaitEachAdmits(order, s0, cs);
    assert cs[0..] == cs;
    assert w == State(0, Enqueued(order, [], cs));
    NotifyEachWakes(w, |cs|);
    EnqueuedLength(order, cs);
    assert w.queue[..|cs|] == w.queue;
  }

  /** FIFO fairness: on a semaphore without permits, fresh waiters are
      resumed by later notifications in the order they waited. */
  lemma FifoWakesInWaitOrder(cs: seq<Coroutine>)
    requires Distinct(cs)
    ensures NotifyEach(WaitEach(Fifo, State(0, []), cs), |cs|).woken == cs
  {
    WakesInQueueOrder(Fifo, cs);
    EnqueuedFifo([], cs);
  }

  /** LIFO order: the same waiters are resumed most recent first. */
  lemma LifoWakesInReverseOrder(cs: seq<Coroutine>)
    requires Distinct(cs)
    ensures NotifyEach(WaitEach(Lifo, State(0, []), cs), |cs|).woken == Reverse(cs)
  {
    WakesInQueueOrder(Lifo, cs);
    EnqueuedLifo([], cs);
  }

  /** A semaphore whose methods are proved against the step functions
      above; `resumed` records the frames its notifications resumed. */
  class Semaphore {
    const order: Order
    var counter: nat
    var queue: seq<Coroutine>
    ghost var resumed: seq<Coroutine>

    /** The semaphore as a value. */
    function Current(): State
      reads this
    {
      State(counter, queue)
    }

    /** `SemaphorePattern(counter)`: a semaphore initialised to `counter`. */
    constructor (order: Order, counter: nat)
      ensures this.order == order && Current() == Initialised(counter) && resumed == []
    {
      this.order := order;
      this.counter := counter;
      queue := [];
      resumed := [];
    }

    /** `initialise(counter)`. */
    method Initialise(counter: nat)
      modifies this
      ensures Current() == Initialised(counter) && resumed == old(resumed)
    {
      queue := [];
      this.counter := counter;
    }

    /** `WaitCall::libcr_wait`. */
    method Wait(c: Coroutine) returns (nonblock: bool)
      requires c !in queue
      modifies this
      ensures WaitOutcome(Current(), nonblock) == WaitStep(order, old(Current()), c)
      ensures resumed == old(resumed)
    {
      if counter == 0 {
        queue := Enqueue(order, queue, c);
        nonblock := false;
      } else {
        counter := counter - 1;
        nonblock := true;
      }
    }

    /** `notify`. */
    method Notify() returns (notified: bool)
      modifies this
      ensures var r := NotifyStep(old(Current()));
        Current() == r.state && notified == r.notified && resumed == old(resumed) + r.woken
    {
      notified := queue != [];
      if notified {
        var first := queue[0];
        queue := queue[1..];
        resumed := resumed + [first];
      } else {
        counter := counter + 1;
      }
    }
  }
}
