/** The single-threaded mutex (`PODMutex`, `Mutex`) with ownership hand-off.
    Its condition variable is the LIFO one, so the most recent waiter is
    the next owner. */
module Mutexes {
  import opened Coroutines
  import opened WaitQueue

  /** The owning frame, or null, and the frames waiting for the lock, in
      wake order. */
  datatype State = State(owner: Coroutine?, queue: seq<Coroutine>)

  /** No frame waits twice, and nobody waits for an unowned mutex. */
  predicate Valid(s: State)
  {
    Distinct(s.queue) && (s.owner == null ==> s.queue == [])
  }

  /** The new state, whether the caller proceeds (or acquired the lock), and
      the frames resumed, in order. */
  datatype Outcome = Outcome(state: State, nonblock: bool, woken: seq<Coroutine>)

  /** `initialise`: unowned, nobody waiting. */
  function Initialised(): (r: State)
    ensures Valid(r) && r.owner == null && r.queue == []
  {
    State(null, [])
  }

  /** `LockCall::libcr_wait`: takes an unowned mutex without blocking;
      otherwise the caller waits and the owner is kept. */
  function LockStep(s: State, c: Coroutine): (r: Outcome)
    requires c !in s.queue
    ensures r.nonblock <==> s.owner == null
    ensures r.nonblock ==> r.state == State(c, s.queue)
    ensures !r.nonblock ==> r.state.owner == s.owner && r.state.queue == Enqueue(Lifo, s.queue, c)
    ensures r.woken == []
    ensures Valid(s) ==> Valid(r.state)
  {
    if s.owner == null then Outcome(State(c, s.queue), true, [])
    else Outcome(State(s.owner, Enqueue(Lifo, s.queue, c)), false, [])
  }

  /** `try_lock`: succeeds exactly on an unowned mutex; a failed attempt
      changes nothing. */
  function TryLockStep(s: State, c: Coroutine): (r: Outcome)
    ensures r.nonblock <==> s.owner == null
    ensures r.nonblock ==> r.state == State(c, s.queue)
    ensures !r.nonblock ==> r.state == s
    ensures r.woken == []
    ensures Valid(s) ==> Valid(r.state)
  {
    if s.owner == null then Outcome(State(c, s.queue), true, []) else Outcome(s, false, [])
  }

  /** `unlock`: ownership passes to the front waiter before it is resumed,
      so the resumed frame owns the lock without checking again; with nobody
      waiting the mutex becomes unowned. */
  function UnlockStep(s: State): (r: Outcome)
    requires s.owner != null
    ensures s.queue == [] ==> r.state == Initialised() && r.woken == []
    ensures s.queue != [] ==> r.state == State(s.queue[0], s.queue[1..]) && r.woken == [s.queue[0]]
    ensures Valid(s) ==> Valid(r.state)
  {
    var front := if s.queue == [] then null else s.queue[0];
    if s.queue == [] then Outcome(State(front, []), true, [])
    else Outcome(State(front, s.queue[1..]), true, [s.queue[0]])
  }

  /** `k` unlocks in a row, each by whoever owns the mutex at that point: the
      final state and the frames resumed. */
  function UnlockEach(s: State, k: nat): (r: Outcome)
    requires Valid(s) && s.owner != null && k <= |s.queue| + 1
    ensures Valid(r.state)
    ensures k <= |s.queue| ==> |r.state.queue| == |s.queue| - k && r.state.owner != null
    decreases k
  {
    if k == 0 then Outcome(s, true, [])
    else
      var prev := UnlockEach(s, k - 1);
      var step := UnlockStep(prev.state);
      Outcome(step.state, true, prev.woken + step.woken)
  }

  /** Hand-off: after `k` unlocks the `k`-th waiter (in wake order) owns the
      mutex, each earlier waiter having been resumed as owner in turn; one
      more unlock than there are waiters leaves the mutex unowned. */
  lemma {:induction false} HandOff(s: State, k: nat)
    requires Valid(s) && s.owner != null && k <= |s.queue| + 1
    ensures 0 < k <= |s.queue| ==> UnlockEach(s, k).state == State(s.queue[k - 1], s.queue[k..])
    ensures k == |s.queue| + 1 ==> UnlockEach(s, k).state == Initialised()
    ensures UnlockEach(s, k).woken == s.queue[..if k <= |s.queue| then k else |s.queue|]
    decreases k
  {
    if k > 0 {
      HandOff(s, k - 1);
      if k <= |s.queue| {
        assert s.queue[..k] == s.queue[..k - 1] + [s.queue[k - 1]];
      }
    }
  }

  /** Frames of `cs`, none of them already waiting, try to lock one after
      another. */
  function LockEach(s: State, cs: seq<Coroutine>): (r: State)
    requires Distinct(cs) && forall c :: c in cs ==> c !in s.queue
    ensures forall c :: c in r.queue ==> c in s.queue || c in cs
    decreases |cs|
  {
    if cs == [] then s
    else
      var mid := LockEach(s, cs[..|cs| - 1]);
      assert cs[|cs| - 1] !in cs[..|cs| - 1];
      LockStep(mid, cs[|cs| - 1]).state
  }

  /** Frames that lock an owned mutex all wait and keep the owner; they get
      the lock in the reverse of the order they asked for it. */
  lemma {:induction false} LockersWaitInReverse(s: State, cs: seq<Coroutine>)
    requires s.owner != null && s.queue == [] && Distinct(cs)
    ensures LockEach(s, cs) == State(s.owner, Reverse(cs))
    decreases |cs|
  {
    if cs != [] {
      LockersWaitInReverse(s, cs[..|cs| - 1]);
    }
  }

  /** Frames that queued for an owned mutex get it, one unlock each, most
      recent first; the last unlock after them leaves it unowned. */
  lemma UnlocksHandOffInReverse(s: State, cs: seq<Coroutine>)
    requires s.owner != null && s.queue == [] && Distinct(cs)
    ensures Valid(LockEach(s, cs)) && |LockEach(s, cs).queue| == |cs|
    ensures UnlockEach(LockEach(s, cs), |cs|).woken == Reverse(cs)
    ensures UnlockEach(LockEach(s, cs), |cs| + 1).state == Initialised()
  {
    LockersWaitInReverse(s, cs);
    ReverseLength(cs);
    ReverseDistinct(cs);
    var locked := LockEach(s, cs);
    HandOff(locked, |cs|);
    HandOff(locked, |cs| + 1);
    assert Reverse(cs)[..|cs|] == Reverse(cs);
  }

  /** A mutex whose methods are proved against the step functions above;
      `resumed` records the frames its unlocks resumed. */
  class Mutex {
    var owner: Coroutine?
    var queue: seq<Coroutine>
    ghost var resumed: seq<Coroutine>

    /** The mutex as a value. */
    function Current(): State
      reads this
    {
      State(owner, queue)
    }

    /** `Mutex()`: an initialised mutex. */
    constructor ()
      ensures Current() == Initialised() && resumed == []
    {
      owner := null;
      queue := [];
      resumed := [];
    }

    /** `initialise`. */
    method Initialise()
      modifies this
      ensures Current() == Initialised() && resumed == old(resumed)
    {
      queue := [];
      owner := null;
    }

    /** `LockCall::libcr_wait`. */
    method Lock(self: Coroutine) returns (nonblock: bool)
      requires self !in queue
      modifies this
      ensures var r := LockStep(old(Current()), self);
        Current() == r.state && nonblock == r.nonblock && resumed == old(resumed)
    {
      if owner == null {
        owner := self;
        nonblock := true;
      } else {
        queue := Enqueue(Lifo, queue, self);
        nonblock := false;
      }
    }

    /** `try_lock`. */
    method TryLock(self: Coroutine) returns (locked: bool)
      modifies this
      ensures var r := TryLockStep(old(Current()), self);
        Current() == r.state && locked == r.nonblock && resumed == old(resumed)
    {
      if owner == null {
        owner := self;
        locked := true;
      } else {
        locked := false;
      }
    }

    /** `unlock`: the front waiter becomes the owner, then is notified. */
    method Unlock()
      requires owner != null
      modifies this
      ensures var r := UnlockStep(old(Current()));
        Current() == r.state && resumed == old(resumed) + r.woken
    {
      owner := if queue == [] then null else queue[0];
      if queue != [] {
        var first := queue[0];
        queue := queue[1..];
        resumed := resumed + [first];
      }
    }

    /** `is_owner(self)`. */
    function IsOwner(self: Coroutine): (r: bool)
      reads this
      ensures r <==> Current().owner == self
    {
      owner == self
    }
  }
}
