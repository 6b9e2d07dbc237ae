/** The single-threaded promises: `PODPromise`/`Promise`, waited on through
    the LIFO condition variable it derives from, and
    `PODSinglePromise`/`SinglePromise`, which admits one waiting frame. */
module Promises {
  import opened Coroutines
  import opened WaitQueue

  /** The `fulfilled` flag and the frames waiting, in wake order. */
  datatype State = State(fulfilled: bool, queue: seq<Coroutine>)

  /** No frame waits twice, and nobody waits for a fulfilled promise. */
  predicate Valid(s: State)
  {
    Distinct(s.queue) && (s.fulfilled ==> s.queue == [])
  }

  /** The new state, whether the caller proceeds without blocking, and the
      frames resumed, in order. */
  datatype Outcome = Outcome(state: State, nonblock: bool, woken: seq<Coroutine>)

  /** `initialise`: unfulfilled, nobody waiting. */
  function Initialised(): (r: State)
    ensures Valid(r) && !r.fulfilled && r.queue == []
  {
    State(false, [])
  }

  /** `wait(self)`: returns true at once on a fulfilled promise; otherwise
      the caller waits and false is returned. */
  function WaitStep(s: State, c: Coroutine): (r: Outcome)
    requires c !in s.queue
    ensures r.nonblock <==> s.fulfilled
    ensures r.state.fulfilled == s.fulfilled && r.woken == []
    ensures r.nonblock ==> r.state.queue == s.queue
    ensures !r.nonblock ==> r.state.queue == Enqueue(Lifo, s.queue, c)
    ensures Valid(s) ==> Valid(r.state)
  {
    if s.fulfilled then Outcome(s, true, [])
    else Outcome(State(false, Enqueue(Lifo, s.queue, c)), false, [])
  }

  /** `fulfill`: the flag is set before every waiter is resumed, so none of
      them, and no later caller, waits again. */
  function FulfillStep(s: State): (r: Outcome)
    requires !s.fulfilled
    ensures Valid(r.state) && r.state.fulfilled
    ensures r.woken == s.queue
  {
    Outcome(State(true, []), true, s.queue)
  }

  /** The waits of the frames of `cs`, none of them already waiting, one
      after another: the final state and how many returned at once. */
  function WaitEach(s: State, cs: seq<Coroutine>): (r: (State, nat))
    requires Distinct(cs) && forall c :: c in cs ==> c !in s.queue
    ensures forall c :: c in r.0.queue ==> c in s.queue || c in cs
    decreases |cs|
  {
    if cs == [] then (s, 0)
    else
      var mid := WaitEach(s, cs[..|cs| - 1]);
      assert cs[|cs| - 1] !in cs[..|cs| - 1];
      var step := WaitStep(mid.0, cs[|cs| - 1]);
      (step.state, mid.1 + if step.nonblock then 1 else 0)
  }

  /** After `fulfill`, every later wait returns at once and nothing is ever
      queued again. */
  lemma {:induction false} FulfilledNeverQueues(s: State, cs: seq<Coroutine>)
    requires !s.fulfilled && Distinct(cs)
    ensures WaitEach(FulfillStep(s).state, cs) == (State(true, []), |cs|)
    decreases |cs|
  {
    if cs != [] {
      FulfilledNeverQueues(s, cs[..|cs| - 1]);
    }
  }

  /** Frames waiting on an unfulfilled promise all block, and `fulfill`
      resumes them, most recent first. */
  lemma {:induction false} FulfillResumesWaiters(cs: seq<Coroutine>)
    requires Distinct(cs)
    ensures WaitEach(Initialised(), cs) == (State(false, Reverse(cs)), 0)
    ensures FulfillStep(WaitEach(Initialised(), cs).0).woken == Reverse(cs)
    decreases |cs|
  {
    if cs != [] {
      FulfillResumesWaiters(cs[..|cs| - 1]);
      ReverseFrames(cs[..|cs| - 1]);
    }
  }

  /** A promise whose methods are proved against the step functions above;
      `resumed` records the frames its fulfilment resumed. */
  class Promise {
    var fulfilled: bool
    var queue: seq<Coroutine>
    ghost var resumed: seq<Coroutine>

    /** The promise as a value. */
    function Current(): State
      reads this
    {
      State(fulfilled, queue)
    }

    /** `Promise()`: an initialised promise. */
    constructor ()
      ensures Current() == Initialised() && resumed == []
    {
      fulfilled := false;
      queue := [];
      resumed := [];
    }

    /** `initialise`. */
    method Initialise()
      modifies this
      ensures Current() == Initialised() && resumed == old(resumed)
    {
      queue := [];
      fulfilled := false;
    }

    /** `wait(self)`. */
    method Wait(self: Coroutine) returns (ready: bool)
      requires self !in queue
      modifies this
      ensures var r := WaitStep(old(Current()), self);
        Current() == r.state && ready == r.nonblock && resumed == old(resumed)
    {
      if fulfilled {
        return true;
      }
      queue := Enqueue(Lifo, queue, self);
      ready := false;
    }

    /** `fulfill`. */
    method Fulfill()
      requires !fulfilled
      modifies this
      ensures var r := FulfillStep(old(Current()));
        Current() == r.state && resumed == old(resumed) + r.woken
    {
      fulfilled := true;
      var waiting := queue;
      queue := [];
      resumed := resumed + waiting;
    }
  }

  /** The single promise as a value: the flag and the one waiting frame, if
      any. */
  datatype SingleState = SingleState(fulfilled: bool, waiter: Coroutine?)

  /** Nobody waits for a fulfilled single promise. */
  predicate SingleValid(s: SingleState)
  {
    s.fulfilled ==> s.waiter == null
  }

  /** `PODSinglePromise::initialise`. */
  function SingleInitialised(): (r: SingleState)
    ensures SingleValid(r) && !r.fulfilled && r.waiter == null
  {
    SingleState(false, null)
  }

  /** `PODSinglePromise::wait(self)`: returns true at once on a fulfilled
      promise, otherwise `self` becomes the waiter; only one frame may wait. */
  function SingleWaitStep(s: SingleState, self: Coroutine): (r: (SingleState, bool))
    requires s.waiter == null
    ensures r.1 <==> s.fulfilled
    ensures r.1 ==> r.0 == s
    ensures !r.1 ==> r.0 == SingleState(false, self)
    ensures SingleValid(s) ==> SingleValid(r.0)
  {
    if s.fulfilled then (s, true) else (SingleState(false, self), false)
  }

  /** `PODSinglePromise::fulfill`: sets the flag and resumes the waiter, if
      any. */
  function SingleFulfillStep(s: SingleState): (r: (SingleState, seq<Coroutine>))
    requires !s.fulfilled
    ensures SingleValid(r.0) && r.0.fulfilled
    ensures r.1 == if s.waiter == null then [] else [s.waiter]
  {
    (SingleState(true, null), if s.waiter == null then [] else [s.waiter])
  }

  /** A single promise behaves as a promise whose queue holds at most the
      one waiter. */
  lemma SingleRefinesPromise(s: SingleState, self: Coroutine)
    requires s.waiter == null
    ensures var single := SingleWaitStep(s, self);
      var multi := WaitStep(State(s.fulfilled, []), self);
      && single.1 == multi.nonblock
      && multi.state == State(single.0.fulfilled, if single.0.waiter == null then [] else [single.0.waiter])
  {
  }

  /** A single promise whose methods are proved against the step functions
      above. */
  class SinglePromise {
    var fulfilled: bool
    var waiter: Coroutine?
    ghost var resumed: seq<Coroutine>

    /** The single promise as a value. */
    function Current(): SingleState
      reads this
    {
      SingleState(fulfilled, waiter)
    }

    /** `SinglePromise()`: an initialised single promise. */
    constructor ()
      ensures Current() == SingleInitialised() && resumed == []
    {
      fulfilled := false;
      waiter := null;
      resumed := [];
    }

    /** `initialise`. */
    method Initialise()
      modifies this
      ensures Current() == SingleInitialised() && resumed == old(resumed)
    {
      waiter := null;
      fulfilled := false;
    }

    /** `wait(self)`. */
    method Wait(self: Coroutine) returns (ready: bool)
      requires waiter == null
      modifies this
      ensures (Current(), ready) == SingleWaitStep(old(Current()), self) && resumed == old(resumed)
    {
      if fulfilled {
        return true;
      }
      waiter := self;
      ready := false;
    }

    /** `fulfill`. */
    method Fulfill()
      requires !fulfilled
      modifies this
      ensures var r := SingleFulfillStep(old(Current()));
        Current() == r.0 && resumed == old(resumed) + r.1
    {
      fulfilled := true;
      if waiter != null {
        var w := waiter;
        waiter := null;
        resumed := resumed + [w];
      }
    }
  }
}
