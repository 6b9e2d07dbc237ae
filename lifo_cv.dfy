/** The single-threaded condition variable with LIFO notifications
    (`PODConditionVariable` and its non-POD wrapper). */
module LifoConditionVariables {
  import opened Coroutines
  import opened WaitQueue

  /** Waiting frames are chained from `waiting` through their `next` links,
      the most recent waiter first.  `Queue` is the chain as a sequence and
      `resumed` records every invocation this condition variable makes. */
  class ConditionVariable {
    var waiting: Coroutine?
    ghost var Queue: seq<Coroutine>
    ghost var resumed: seq<Resumption>

    /** The chain from `waiting` is acyclic, null-terminated and is `Queue`. */
    ghost predicate Valid()
      reads this, Queue
    {
      && Distinct(Queue)
      && Linked(Queue)
      && waiting == (if Queue == [] then null else Queue[0])
    }

    /** The non-POD constructor: an empty queue. */
    constructor ()
      ensures Valid() && Queue == [] && resumed == []
    {
      waiting := null;
      Queue, resumed := [], [];
    }

    /** Initialises the waiting queue. */
    method Initialise()
      modifies this
      ensures Valid() && Queue == [] && resumed == old(resumed)
    {
      waiting := null;
      Queue := [];
    }

    /** Whether nothing is waiting. */
    function Empty(): (r: bool)
      requires Valid()
      reads this, Queue
      ensures r <==> Queue == []
    {
      waiting == null
    }

    /** The waiting frame that would be woken next, or null. */
    function Front(): (r: Coroutine?)
      requires Valid()
      reads this, Queue
      ensures Queue == [] ==> r == null
      ensures Queue != [] ==> r == Queue[0]
    {
      waiting
    }

    /** `WaitCall::libcr_wait`: links `c` in front of the current waiters and
        reports that the caller blocks. */
    method Wait(c: Coroutine) returns (nonblock: bool)
      requires Valid() && c !in Queue
      modifies this, c`next
      ensures Valid()
      ensures Queue == Enqueue(Lifo, old(Queue), c)
      ensures resumed == old(resumed)
      ensures !nonblock
    {
      c.next := waiting;
      waiting := c;
      Queue := [c] + Queue;
      nonblock := false;
    }

    /** The opaque invocation `(*c)()`: the resumption is recorded and, when
        `c` is in `rewait`, `c` waits on this condition variable again. */
    method Invoke(c: Coroutine, rewait: set<Coroutine>)
      requires Valid() && c !in Queue
      modifies this, c`next
      ensures Valid()
      ensures Queue == Requeue(Lifo, old(Queue), c, rewait)
      ensures resumed == old(resumed) + [Resumption(c, c.error)]
    {
      resumed := resumed + [Resumption(c, c.error)];
      if c in rewait {
        var blocks := Wait(c);
      }
    }

    /** The error flag of `c` is set, then `c` is invoked. */
    method FailInvoke(c: Coroutine, rewait: set<Coroutine>)
      requires Valid() && c !in Queue
      modifies this, c`next, c`error
      ensures Valid() && c.error
      ensures Queue == Requeue(Lifo, old(Queue), c, rewait)
      ensures resumed == old(resumed) + [Resumption(c, true)]
    {
      c.error := true;
      Invoke(c, rewait);
    }

    /** Removes and resumes the most recent waiter, if any. */
    method NotifyOne(rewait: set<Coroutine>) returns (notified: bool)
      requires Valid()
      modifies this, (set f | f in Queue)`next
      ensures Valid()
      ensures notified <==> old(Queue) != []
      ensures old(Queue) == [] ==> Queue == [] && resumed == old(resumed)
      ensures old(Queue) != [] ==>
        && Queue == Requeue(Lifo, old(Queue)[1..], old(Queue)[0], rewait)
        && resumed == old(resumed) + [Resumption(old(Queue)[0], old(Queue[0].error))]
      ensures forall f :: f in old(Queue) ==> f.error == old(f.error)
    {
      if waiting == null {
        return false;
      }
      var first := waiting;
      waiting := first.next;
      Queue := Queue[1..];
      Invoke(first, rewait);
      notified := true;
    }

    /** Removes the most recent waiter, if any, sets its error flag and
        resumes it. */
    method FailOne(rewait: set<Coroutine>) returns (notified: bool)
      requires Valid()
      modifies this, (set f | f in Queue)`next, (set f | f in Queue)`error
      ensures Valid()
      ensures notified <==> old(Queue) != []
      ensures old(Queue) == [] ==> Queue == [] && resumed == old(resumed)
      ensures old(Queue) != [] ==>
        && Queue == Requeue(Lifo, old(Queue)[1..], old(Queue)[0], rewait)
        && resumed == old(resumed) + [Resumption(old(Queue)[0], true)]
        && old(Queue)[0].error
      ensures forall f :: f in old(Queue) && f != old(Front()) ==> f.error == old(f.error)
    {
      if waiting == null {
        return false;
      }
      var first := waiting;
      waiting := first.next;
      Queue := Queue[1..];
      FailInvoke(first, rewait);
      notified := true;
    }

    /** Removes the most recent waiter, if any, without resuming it. */
    method RemoveOne() returns (removed: Coroutine?)
      requires Valid()
      modifies this
      ensures Valid()
      ensures old(Queue) == [] ==> removed == null && Queue == []
      ensures old(Queue) != [] ==> removed == old(Queue)[0] && Queue == old(Queue)[1..]
      ensures resumed == old(resumed)
    {
      removed := waiting;
      if removed != null {
        waiting := removed.next;
        Queue := Queue[1..];
      }
    }

    /** One step of a drain over the snapshot `snap` of the queue: the
        successor of `c`, which is `snap[i]`, is read before `c` is invoked
        (with its error flag set first when `fail` holds), so the rest of
        the snapshot stays chained whatever the resumed frame does.  `trace`
        is the resumptions the whole drain makes, after `r0`. */
    method DrainStep(c: Coroutine, ghost snap: seq<Coroutine>, ghost i: nat, fail: bool, rewait: set<Coroutine>,
                     ghost r0: seq<Resumption>, ghost trace: seq<Resumption>)
        returns (next: Coroutine?)
      requires Valid() && i < |snap| && c == snap[i] && Distinct(snap) && LinkedFrom(snap, i)
      requires Queue == Drained(Lifo, [], snap[..i], rewait)
      requires forall f :: f in Queue ==> f in snap[..i]
      requires |trace| == |snap| && resumed == r0 + trace[..i] && trace[i] == Resumption(c, fail || c.error)
      modifies this, c`next, (if fail then {c} else {})`error
      ensures Valid() && LinkedFrom(snap, i + 1)
      ensures next == if i + 1 < |snap| then snap[i + 1] else null
      ensures Queue == Drained(Lifo, [], snap[..i + 1], rewait)
      ensures forall f :: f in Queue ==> f in snap[..i + 1]
      ensures c.error == (fail || old(c.error))
      ensures resumed == r0 + trace[..i + 1]
    {
      next := c.next;
      if fail {
        FailInvoke(c, rewait);
      } else {
        Invoke(c, rewait);
      }
      assert forall k :: i < k < |snap| ==> snap[k] != c;
      DrainedSnoc(Lifo, [], snap, i, rewait);
      assert trace[..i + 1] == trace[..i] + [trace[i]];
    }

    /** Resumes every frame that was waiting when the call began, most recent
        first.  The head is cleared before the drain and each successor is
        read before its predecessor runs, so frames that wait again while
        being resumed stay queued and are not resumed by this call. */
    method NotifyAll(rewait: set<Coroutine>) returns (any: bool)
      requires Valid()
      modifies this, (set f | f in Queue)`next
      ensures Valid()
      ensures any <==> old(Queue) != []
      ensures resumed == old(resumed + Observed(Queue))
      ensures Queue == Drained(Lifo, [], old(Queue), rewait)
      ensures forall f :: f in old(Queue) ==> f.error == old(f.error)
    {
      var c := waiting;
      ghost var snap := Queue;
      ghost var trace := Observed(snap);
      ObservedAt(snap);
      waiting := null;
      Queue := [];
      if c == null {
        return false;
      }
      ghost var i := 0;
      while c != null
        invariant 0 <= i <= |snap| && Distinct(snap) && LinkedFrom(snap, i)
        invariant c == if i < |snap| then snap[i] else null
        invariant Valid()
        invariant Queue == Drained(Lifo, [], snap[..i], rewait)
        invariant forall f :: f in Queue ==> f in snap[..i]
        invariant |trace| == |snap| && resumed == old(resumed) + trace[..i]
        invariant forall k :: 0 <= k < |snap| ==> trace[k] == Resumption(snap[k], old(snap[k].error))
        decreases |snap| - i
      {
        c := DrainStep(c, snap, i, false, rewait, old(resumed), trace);
        i := i + 1;
      }
      assert snap[..i] == snap && trace[..i] == trace;
      any := true;
    }

    /** As `NotifyAll`, but sets each frame's error flag just before
        resuming it. */
    method FailAll(rewait: set<Coroutine>) returns (any: bool)
      requires Valid()
      modifies this, (set f | f in Queue)`next, (set f | f in Queue)`error
      ensures Valid()
      ensures any <==> old(Queue) != []
      ensures resumed == old(resumed) + Failed(old(Queue))
      ensures Queue == Drained(Lifo, [], old(Queue), rewait)
      ensures forall f :: f in old(Queue) ==> f.error
    {
      var c := waiting;
      ghost var snap := Queue;
      ghost var trace := Failed(snap);
      FailedAt(snap);
      waiting := null;
      Queue := [];
      if c == null {
        return false;
      }
      ghost var i := 0;
      while c != null
        invariant 0 <= i <= |snap| && Distinct(snap) && LinkedFrom(snap, i)
        invariant c == if i < |snap| then snap[i] else null
        invariant Valid()
        invariant Queue == Drained(Lifo, [], snap[..i], rewait)
        invariant forall f :: f in Queue ==> f in snap[..i]
        invariant |trace| == |snap| && resumed == old(resumed) + trace[..i]
        invariant forall k :: 0 <= k < |snap| ==> trace[k] == Resumption(snap[k], true)
        invariant forall k :: 0 <= k < i ==> snap[k].error
        decreases |snap| - i
      {
        c := DrainStep(c, snap, i, true, rewait, old(resumed), trace);
        i := i + 1;
      }
      assert snap[..i] == snap && trace[..i] == trace;
      any := true;
    }

    /** Empties the queue without resuming anyone; returns the old head, from
        which the removed frames are still chained. */
    method RemoveAll() returns (head: Coroutine?)
      requires Valid()
      modifies this
      ensures Valid() && Queue == [] && resumed == old(resumed)
      ensures old(Queue) == [] ==> head == null
      ensures old(Queue) != [] ==> head == old(Queue)[0]
      ensures Linked(old(Queue))
    {
      head := waiting;
      if head != null {
        waiting := null;
      }
      Queue := [];
    }

    /** The destructor of the non-POD wrapper: fails every waiting frame,
        then checks that nothing was queued again. */
    method Destroy(rewait: set<Coroutine>)
      requires Valid()
      requires forall f :: f in Queue ==> f !in rewait
      modifies this, (set f | f in Queue)`next, (set f | f in Queue)`error
      ensures Valid() && Queue == []
      ensures resumed == old(resumed) + Failed(old(Queue))
      ensures forall f :: f in old(Queue) ==> f.error
    {
      ghost var before := Queue;
      var any := FailAll(rewait);
      DrainedEmpty(Lifo, before, rewait);
      assert Front() == null;
    }
  }
}
