/** The single-threaded barrier (`PODBarrierBase`, `BarrierBase`), generic
    over the notification order of its condition variable. */
module Barriers {
  import opened Coroutines
  import opened WaitQueue

  /** How many more arrivals release the barrier, and the frames waiting at
      it, in wake order. */
  datatype State = State(count: nat, queue: seq<Coroutine>)

  /** The new state, whether the caller proceeds without blocking, and the
      frames resumed, in order. */
  datatype Outcome = Outcome(state: State, nonblock: bool, woken: seq<Coroutine>)

  /** `initialise()`: an open barrier that blocks nobody. */
  function Unblocking(): (r: State)
    ensures r.count == 0 && r.queue == []
  {
    State(0, [])
  }

  /** `initialise(count)`: a barrier that blocks until `count` frames arrive. */
  function Initialised(count: nat): (r: State)
    ensures r.count == count && r.queue == []
  {
    State(count, [])
  }

  /** `set(count)`: only the count changes; waiters stay queued. */
  function SetStep(s: State, count: nat): (r: State)
    ensures r.count == count && r.queue == s.queue
  {
    State(count, s.queue)
  }

  /** The barrier the frames of `s` leave behind once the releasing arrival
      resumes them in turn: a resumed frame in `rewait` calls `set(rearm)`
      and waits again, so with `rearm > 1` it is queued and the count stays
      at `rearm - 1`, while with `rearm == 0` it passes the open barrier. */
  function Released(order: Order, s: seq<Coroutine>, rewait: set<Coroutine>, rearm: nat): (r: State)
    requires rearm != 1 || rewait == {}
    ensures r.queue == if rearm == 0 then [] else Drained(order, [], s, rewait)
    ensures r.count == 0 <==> rearm == 0 || forall f :: f in s ==> f !in rewait
    ensures r.count != 0 ==> r.count == rearm - 1
    ensures forall f :: f in r.queue ==> f in s && f in rewait
    ensures Distinct(s) ==> Distinct(r.queue)
  {
    DrainedEmpty(order, s, rewait);
    DrainedWithin(order, [], s, rewait);
    DrainedDistinct(order, s, rewait);
    var left := if rearm == 0 then [] else Drained(order, [], s, rewait);
    State(if left == [] then 0 else rearm - 1, left)
  }

  /** `WaitCall::libcr_wait`.  An open barrier lets the caller through.
      Otherwise the count drops by one; the arrival that brings it to zero
      resumes every waiting frame and proceeds itself, while any other
      arrival waits. */
  function WaitStep(order: Order, s: State, c: Coroutine, rewait: set<Coroutine>, rearm: nat): (r: Outcome)
    requires c !in s.queue
    requires rearm != 1 || rewait == {}
    ensures s.count == 0 ==> r == Outcome(s, true, [])
    ensures s.count == 1 ==> r.nonblock && r.woken == s.queue && r.state == Released(order, s.queue, rewait, rearm)
    ensures s.count > 1 ==> !r.nonblock && r.woken == []
    ensures s.count > 1 ==> r.state == State(s.count - 1, Enqueue(order, s.queue, c))
    ensures forall f :: f in r.state.queue ==> f in s.queue || f == c
  {
    if s.count == 0 then Outcome(s, true, [])
    else if s.count == 1 then Outcome(Released(order, s.queue, rewait, rearm), true, s.queue)
    else Outcome(State(s.count - 1, Enqueue(order, s.queue, c)), false, [])
  }

  /** The arrivals of `cs`, none of them already waiting, one after another:
      the final state, whether each arrival proceeded, and every frame the
      arrivals resumed, in order. */
  function WaitEach(order: Order, s: State, cs: seq<Coroutine>, rewait: set<Coroutine>, rearm: nat): (r: (State, seq<bool>, seq<Coroutine>))
    requires Distinct(cs) && forall c :: c in cs ==> c !in s.queue
    requires rearm != 1 || rewait == {}
    ensures |r.1| == |cs|
    ensures forall c :: c in r.0.queue ==> c in s.queue || c in cs
    decreases |cs|
  {
    if cs == [] then (s, [], [])
    else
      var mid := WaitEach(order, s, cs[..|cs| - 1], rewait, rearm);
      assert cs[|cs| - 1] !in cs[..|cs| - 1];
      var step := WaitStep(order, mid.0, cs[|cs| - 1], rewait, rearm);
      (step.state, mid.1 + [step.nonblock], mid.2 + step.woken)
  }

  /** Arrivals at a barrier that is still closed afterwards all block and
      queue in the barrier's order. */
  lemma {:induction false} ArrivalsBlock(order: Order, n: nat, cs: seq<Coroutine>, rewait: set<Coroutine>, rearm: nat)
    requires Distinct(cs) && |cs| < n && (rearm != 1 || rewait == {})
    ensures WaitEach(order, Initialised(n), cs, rewait, rearm).0 == State(n - |cs|, Enqueued(order, [], cs))
    ensures forall i :: 0 <= i < |cs| ==> !WaitEach(order, Initialised(n), cs, rewait, rearm).1[i]
    ensures WaitEach(order, Initialised(n), cs, rewait, rearm).2 == []
    decreases |cs|
  {
    if cs != [] {
      var init := cs[..|cs| - 1];
      ArrivalsBlock(order, n, init, rewait, rearm);
      assert cs[|cs| - 1] !in Enqueued(order, [], init) by {
        EnqueuedFrames(order, init);
      }
    }
  }

  /** Arrivals at an open barrier all proceed and change nothing. */
  lemma {:induction false} OpenArrivals(order: Order, cs: seq<Coroutine>, rewait: set<Coroutine>, rearm: nat)
    requires Distinct(cs) && (rearm != 1 || rewait == {})
    ensures WaitEach(order, Unblocking(), cs, rewait, rearm).0 == Unblocking()
    ensures forall i :: 0 <= i < |cs| ==> WaitEach(order, Unblocking(), cs, rewait, rearm).1[i]
    ensures WaitEach(order, Unblocking(), cs, rewait, rearm).2 == []
    decreases |cs|
  {
    if cs != [] {
      OpenArrivals(order, cs[..|cs| - 1], rewait, rearm);
    }
  }

  /** A barrier initialised to `n > 0`: the first `n - 1` arrivals block,
      and the `n`-th proceeds and resumes all of them in the barrier's
      order, leaving the barrier that `Released` describes. */
  lemma {:induction false} ReleaseRearms(order: Order, n: nat, cs: seq<Coroutine>, rewait: set<Coroutine>, rearm: nat)
    requires 0 < n == |cs| && Distinct(cs) && (rearm != 1 || rewait == {})
    ensures WaitEach(order, Initialised(n), cs, rewait, rearm).0 == Released(order, Enqueued(order, [], cs[..n - 1]), rewait, rearm)
    ensures forall i :: 0 <= i < |cs| ==> (WaitEach(order, Initialised(n), cs, rewait, rearm).1[i] <==> i == n - 1)
    ensures WaitEach(order, Initialised(n), cs, rewait, rearm).2 == Enqueued(order, [], cs[..n - 1])
  {
    var init := cs[..|cs| - 1];
    ArrivalsBlock(order, n, init, rewait, rearm);
    assert cs[|cs| - 1] !in init;
    assert cs[|cs| - 1] !in Enqueued(order, [], init) by {
      EnqueuedFrames(order, init);
    }
  }

  /** When none of the first `n - 1` arrivals waits again, the `n`-th
      arrival opens the barrier: it and every later arrival proceed. */
  lemma {:induction false} ReleasesOnNth(order: Order, n: nat, cs: seq<Coroutine>, rewait: set<Coroutine>, rearm: nat)
    requires 0 < n <= |cs| && Distinct(cs) && (rearm != 1 || rewait == {})
    requires forall i :: 0 <= i < n - 1 ==> cs[i] !in rewait
    ensures WaitEach(order, Initialised(n), cs, rewait, rearm).0 == Unblocking()
    ensures forall i :: 0 <= i < |cs| ==> (WaitEach(order, Initialised(n), cs, rewait, rearm).1[i] <==> i >= n - 1)
    ensures WaitEach(order, Initialised(n), cs, rewait, rearm).2 == Enqueued(order, [], cs[..n - 1])
    decreases |cs|
  {
    var init := cs[..|cs| - 1];
    if |cs| == n {
      ReleaseRearms(order, n, cs, rewait, rearm);
      EnqueuedFrames(order, init);
      assert forall f :: f in init ==> f !in rewait;
      DrainedEmpty(order, Enqueued(order, [], init), rewait);
    } else {
      ReleasesOnNth(order, n, init, rewait, rearm);
      assert init[..n - 1] == cs[..n - 1];
    }
  }

  /** A barrier whose methods are proved against the step functions above;
      `resumed` records the frames its releases resumed. */
  class Barrier {
    const order: Order
    var count: nat
    var queue: seq<Coroutine>
    ghost var resumed: seq<Coroutine>

    /** The barrier as a value. */
    function Current(): State
      reads this
    {
      State(count, queue)
    }

    /** `BarrierBase()`: an open barrier. */
    constructor Open(order: Order)
      ensures this.order == order && Current() == Unblocking() && resumed == []
    {
      this.order := order;
      count := 0;
      queue := [];
      resumed := [];
    }

    /** `BarrierBase(count)`. */
    constructor (order: Order, count: nat)
      ensures this.order == order && Current() == Initialised(count) && resumed == []
    {
      this.order := order;
      this.count := count;
      queue := [];
      resumed := [];
    }

    /** `initialise()`. */
    method InitialiseOpen()
      modifies this
      ensures Current() == Unblocking() && resumed == old(resumed)
    {
      queue := [];
      count := 0;
    }

    /** `initialise(count)`. */
    method Initialise(count: nat)
      modifies this
      ensures Current() == Initialised(count) && resumed == old(resumed)
    {
      queue := [];
      this.count := count;
    }

    /** `set(count)`. */
    method Set(count: nat)
      modifies this
      ensures Current() == SetStep(old(Current()), count) && resumed == old(resumed)
    {
      this.count := count;
    }

    /** `WaitCall::libcr_wait`; when it releases the barrier, each frame
        resumed that is in `rewait` calls `set(rearm)` and waits again. */
    method Wait(c: Coroutine, rewait: set<Coroutine>, rearm: nat) returns (nonblock: bool)
      requires c !in queue
      requires rearm != 1 || rewait == {}
      modifies this
      ensures var r := WaitStep(order, old(Current()), c, rewait, rearm);
        Current() == r.state && nonblock == r.nonblock && resumed == old(resumed) + r.woken
    {
      if count != 0 {
        count := count - 1;
        if count == 0 {
          var waiting := queue;
          queue := [];
          var i := 0;
          while i < |waiting|
            invariant 0 <= i <= |waiting|
            invariant Current() == Released(order, waiting[..i], rewait, rearm)
            invariant resumed == old(resumed) + waiting[..i]
          {
            var d := waiting[i];
            resumed := resumed + [d];
            if d in rewait {
              count := rearm;
              if count != 0 {
                count := count - 1;
                queue := Enqueue(order, queue, d);
              }
            }
            DrainedSnoc(order, [], waiting, i, rewait);
            assert waiting[..i + 1] == waiting[..i] + [d];
            i := i + 1;
          }
          assert waiting[..i] == waiting;
          nonblock := true;
        } else {
          queue := Enqueue(order, queue, c);
          nonblock := false;
        }
      } else {
        nonblock := true;
      }
    }
  }
}
