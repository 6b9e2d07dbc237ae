/** The single-threaded repeatable event (`PODEventPattern`, `EventPattern`)
    and the consumable event (`PODConsumableEventPattern`,
    `ConsumableEventPattern`), generic over the notification order of their
    condition variable. */
module Events {
  import opened Coroutines
  import opened WaitQueue

  /** The `happened` flag and the frames waiting for the event, in wake order. */
  datatype State = State(happened: bool, queue: seq<Coroutine>)

  /** No frame waits twice, and nobody waits for an event that has happened. */
  predicate Valid(s: State)
  {
    Distinct(s.queue) && (s.happened ==> s.queue == [])
  }

  /** The new state, whether the caller proceeds without blocking, and the
      frames resumed, in order. */
  datatype Outcome = Outcome(state: State, nonblock: bool, woken: seq<Coroutine>)

  /** `initialise`: not happened, nobody waiting. */
  function Initialised(): (r: State)
    ensures Valid(r) && !r.happened && r.queue == []
  {
    State(false, [])
  }

  /** `fire`: the flag is set, then every frame that was waiting is resumed,
      in queue order.  A resumed frame in `rewait` clears the event, if it
      has still happened, and waits on it again; it stays queued, since
      `notify_all` resumes only the frames queued when it began.  Any other
      resumed frame, and every later waiter while the flag stays set, does
      not wait. */
  function FireStep(order: Order, s: State, rewait: set<Coroutine>): (r: Outcome)
    requires !s.happened
    ensures r.woken == s.queue
    ensures r.state.queue == Drained(order, [], s.queue, rewait)
    ensures r.state.happened <==> forall f :: f in s.queue ==> f !in rewait
    ensures Valid(s) ==> Valid(r.state)
  {
    DrainedEmpty(order, s.queue, rewait);
    DrainedDistinct(order, s.queue, rewait);
    var left := Drained(order, [], s.queue, rewait);
    Outcome(State(left == [], left), true, s.queue)
  }

  /** `clear`: only the flag is reset. */
  function ClearStep(s: State): (r: State)
    requires s.happened
    ensures !r.happened && r.queue == s.queue
    ensures Valid(s) ==> Valid(r)
  {
    State(false, s.queue)
  }

  /** `WaitCall::libcr_wait`: proceeds when the event has happened, otherwise
      queues the caller. */
  function WaitStep(order: Order, s: State, c: Coroutine): (r: Outcome)
    requires c !in s.queue
    ensures r.nonblock <==> s.happened
    ensures r.state.happened == s.happened && r.woken == []
    ensures r.nonblock ==> r.state.queue == s.queue
    ensures !r.nonblock ==> r.state.queue == Enqueue(order, s.queue, c)
    ensures Valid(s) ==> Valid(r.state)
  {
    if s.happened then Outcome(s, true, [])
    else Outcome(State(false, Enqueue(order, s.queue, c)), false, [])
  }

  /** Consumable `fire`: wakes the first waiter and leaves the flag clear, or,
      when nobody waits, sets the flag for the next consumer.  A woken
      frame in `rewait` consumes again while the flag is still clear, so it
      waits again. */
  function ConsumableFireStep(order: Order, s: State, rewait: set<Coroutine>): (r: Outcome)
    requires !s.happened
    ensures r.state.happened <==> s.queue == []
    ensures s.queue != [] ==> r.woken == [s.queue[0]] && r.state.queue == Requeue(order, s.queue[1..], s.queue[0], rewait)
    ensures s.queue == [] ==> r.woken == [] && r.state.queue == []
    ensures forall f :: f in r.state.queue ==> f in s.queue
    ensures Valid(s) ==> Valid(r.state)
  {
    if s.queue == [] then Outcome(State(true, []), true, [])
    else
      var first, rest := s.queue[0], s.queue[1..];
      assert s.queue == [first] + rest;
      assert Valid(s) ==> first !in rest;
      Outcome(State(false, Requeue(order, rest, first, rewait)), true, [first])
  }

  /** `ConsumeCall::libcr_wait`: consumes a happened event without blocking,
      clearing it, or queues the caller. */
  function ConsumeStep(order: Order, s: State, c: Coroutine): (r: Outcome)
    requires c !in s.queue
    ensures r.nonblock <==> s.happened
    ensures !r.state.happened && r.woken == []
    ensures r.nonblock ==> r.state.queue == s.queue
    ensures !r.nonblock ==> r.state.queue == Enqueue(order, s.queue, c)
    ensures Valid(s) ==> Valid(r.state)
  {
    if s.happened then Outcome(ClearStep(s), true, [])
    else Outcome(State(false, Enqueue(order, s.queue, c)), false, [])
  }

  /** Frames of `cs`, none of them already waiting, wait one after another;
      the outcome collects how many of them proceeded without blocking. */
  function WaitEach(order: Order, s: State, cs: seq<Coroutine>): (r: (State, nat))
    requires Distinct(cs) && forall c :: c in cs ==> c !in s.queue
    ensures forall c :: c in r.0.queue ==> c in s.queue || c in cs
    decreases |cs|
  {
    if cs == [] then (s, 0)
    else
      var mid := WaitEach(order, s, cs[..|cs| - 1]);
      assert cs[|cs| - 1] !in cs[..|cs| - 1];
      var step := WaitStep(order, mid.0, cs[|cs| - 1]);
      (step.state, mid.1 + if step.nonblock then 1 else 0)
  }

  /** As `WaitEach`, with consumers. */
  function ConsumeEach(order: Order, s: State, cs: seq<Coroutine>): (r: (State, nat))
    requires Distinct(cs) && forall c :: c in cs ==> c !in s.queue
    ensures forall c :: c in r.0.queue ==> c in s.queue || c in cs
    decreases |cs|
  {
    if cs == [] then (s, 0)
    else
      var mid := ConsumeEach(order, s, cs[..|cs| - 1]);
      assert cs[|cs| - 1] !in cs[..|cs| - 1];
      var step := ConsumeStep(order, mid.0, cs[|cs| - 1]);
      (step.state, mid.1 + if step.nonblock then 1 else 0)
  }

  /** Once the event has happened, any number of later waiters all proceed
      and nobody is left waiting. */
  lemma {:induction false} HappenedNeverBlocks(order: Order, s: State, cs: seq<Coroutine>)
    requires s.happened && s.queue == [] && Distinct(cs)
    ensures WaitEach(order, s, cs) == (s, |cs|)
    decreases |cs|
  {
    if cs != [] {
      HappenedNeverBlocks(order, s, cs[..|cs| - 1]);
    }
  }

  /** Before the event fires every waiter blocks and queues in the event's
      order; `fire` then resumes exactly those waiters, and only the ones in
      `rewait` are left waiting. */
  lemma {:induction false} WaitersBlockUntilFire(order: Order, cs: seq<Coroutine>, rewait: set<Coroutine>)
    requires Distinct(cs)
    ensures WaitEach(order, Initialised(), cs) == (State(false, Enqueued(order, [], cs)), 0)
    ensures FireStep(order, WaitEach(order, Initialised(), cs).0, rewait).woken == Enqueued(order, [], cs)
    ensures forall f :: f in FireStep(order, WaitEach(order, Initialised(), cs).0, rewait).state.queue ==> f in cs && f in rewait
    decreases |cs|
  {
    if cs != [] {
      WaitersBlockUntilFire(order, cs[..|cs| - 1], rewait);
    }
    EnqueuedFrames(order, cs);
    DrainedWithin(order, [], Enqueued(order, [], cs), rewait);
  }

  /** One consumable `fire` satisfies exactly one consumer: either the first
      waiter is woken and every later consumer blocks, or nobody was waiting
      and exactly the first later consumer proceeds. */
  lemma {:induction false} FireSatisfiesOne(order: Order, s: State, cs: seq<Coroutine>, rewait: set<Coroutine>)
    requires Valid(s) && !s.happened
    requires Distinct(cs) && forall c :: c in cs ==> c !in s.queue
    requires s.queue != [] || cs != []
    ensures var fired := ConsumableFireStep(order, s, rewait);
      |fired.woken| + ConsumeEach(order, fired.state, cs).1 == 1
  {
    var fired := ConsumableFireStep(order, s, rewait);
    if s.queue != [] {
      ConsumersBlock(order, fired.state, cs);
    } else {
      var rest := cs[1..];
      assert cs == [cs[0]] + rest;
      ConsumeFirstThenBlock(order, fired.state, cs);
    }
  }

  /** With the flag clear, every consumer blocks. */
  lemma {:induction false} ConsumersBlock(order: Order, s: State, cs: seq<Coroutine>)
    requires !s.happened && Distinct(cs) && forall c :: c in cs ==> c !in s.queue
    ensures !ConsumeEach(order, s, cs).0.happened && ConsumeEach(order, s, cs).1 == 0
    decreases |cs|
  {
    if cs != [] {
      ConsumersBlock(order, s, cs[..|cs| - 1]);
    }
  }

  /** With the flag set and nobody waiting, the first consumer proceeds and
      every later one blocks. */
  lemma {:induction false} ConsumeFirstThenBlock(order: Order, s: State, cs: seq<Coroutine>)
    requires s.happened && s.queue == [] && cs != [] && Distinct(cs)
    ensures !ConsumeEach(order, s, cs).0.happened && ConsumeEach(order, s, cs).1 == 1
    decreases |cs|
  {
    if |cs| > 1 {
      ConsumeFirstThenBlock(order, s, cs[..|cs| - 1]);
    }
  }

  /** A repeatable event whose methods are proved against the step
      functions above; `resumed` records the frames its `fire` resumed. */
  class Event {
    const order: Order
    var happened: bool
    var queue: seq<Coroutine>
    ghost var resumed: seq<Coroutine>

    /** The event as a value. */
    function Current(): State
      reads this
    {
      State(happened, queue)
    }

    /** `EventPattern()`: an initialised event. */
    constructor (order: Order)
      ensures this.order == order && Current() == Initialised() && resumed == []
    {
      this.order := order;
      happened := false;
      queue := [];
      resumed := [];
    }

    /** `initialise`. */
    method Initialise()
      modifies this
      ensures Current() == Initialised() && resumed == old(resumed)
    {
      queue := [];
      happened := false;
    }

    /** `fire`: the flag is set and the frames waiting at the start are
        resumed in turn; one in `rewait` clears the event if it has still
        happened and waits again. */
    method Fire(rewait: set<Coroutine>)
      requires !happened
      modifies this
      ensures var r := FireStep(order, old(Current()), rewait);
        Current() == r.state && resumed == old(resumed) + r.woken
    {
      happened := true;
      var waiting := queue;
      queue := [];
      var i := 0;
      while i < |waiting|
        invariant 0 <= i <= |waiting|
        invariant queue == Drained(order, [], waiting[..i], rewait)
        invariant happened <==> forall k :: 0 <= k < i ==> waiting[k] !in rewait
        invariant resumed == old(resumed) + waiting[..i]
      {
        var c := waiting[i];
        resumed := resumed + [c];
        if c in rewait {
          happened := false;
          queue := Enqueue(order, queue, c);
        }
        DrainedSnoc(order, [], waiting, i, rewait);
        assert waiting[..i + 1] == waiting[..i] + [c];
        i := i + 1;
      }
      assert waiting[..i] == waiting;
    }

    /** `clear`. */
    method Clear()
      requires happened
      modifies this
      ensures Current() == ClearStep(old(Current())) && resumed == old(resumed)
    {
      happened := false;
    }

    /** `WaitCall::libcr_wait`. */
    method Wait(c: Coroutine) returns (nonblock: bool)
      requires c !in queue
      modifies this
      ensures var r := WaitStep(order, old(Current()), c);
        Current() == r.state && nonblock == r.nonblock && resumed == old(resumed)
    {
      if happened {
        nonblock := true;
      } else {
        queue := Enqueue(order, queue, c);
        nonblock := false;
      }
    }

    /** `happened()`: the flag; nothing changes. */
    function Happened(): (r: bool)
      reads this
      ensures r <==> Current().happened
    {
      happened
    }
  }

  /** A consumable event: each `fire` is taken by one consumer. */
  class ConsumableEvent {
    const order: Order
    var happened: bool
    var queue: seq<Coroutine>
    ghost var resumed: seq<Coroutine>

    /** The event as a value. */
    function Current(): State
      reads this
    {
      State(happened, queue)
    }

    /** `ConsumableEventPattern()`: an initialised event. */
    constructor (order: Order)
      ensures this.order == order && Current() == Initialised() && resumed == []
    {
      this.order := order;
      happened := false;
      queue := [];
      resumed := [];
    }

    /** `initialise`, inherited from the repeatable event. */
    method Initialise()
      modifies this
      ensures Current() == Initialised() && resumed == old(resumed)
    {
      queue := [];
      happened := false;
    }

    /** Consumable `fire`; a woken frame in `rewait` consumes again and,
        the flag being clear, waits again. */
    method Fire(rewait: set<Coroutine>)
      requires !happened
      modifies this
      ensures var r := ConsumableFireStep(order, old(Current()), rewait);
        Current() == r.state && resumed == old(resumed) + r.woken
    {
      if queue == [] {
        happened := true;
      } else {
        var first := queue[0];
        queue := queue[1..];
        resumed := resumed + [first];
        if first in rewait {
          queue := Enqueue(order, queue, first);
        }
      }
    }

    /** `ConsumeCall::libcr_wait`. */
    method Consume(c: Coroutine) returns (nonblock: bool)
      requires c !in queue
      modifies this
      ensures var r := ConsumeStep(order, old(Current()), c);
        Current() == r.state && nonblock == r.nonblock && resumed == old(resumed)
    {
      if happened {
        happened := false;
        nonblock := true;
      } else {
        queue := Enqueue(order, queue, c);
        nonblock := false;
      }
    }
  }
}
