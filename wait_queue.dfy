/** The wait queue every condition variable keeps, as a value: the
    sequence of waiting frames in the order they will be woken.  Both linked
    condition variables are proved to implement these operations, and the
    derived primitives are specified with them. */
module WaitQueue {
  import opened Coroutines

  /** The two notification orders of the single-threaded condition variables. */
  datatype Order = Fifo | Lifo

  /** One invocation `(*c)()` of a frame by a condition variable, with the
      error flag the frame sees when it resumes. */
  datatype Resumption = Resumption(frame: Coroutine, error: bool)

  /** No frame is queued twice. */
  predicate Distinct(q: seq<Coroutine>)
  {
    forall i, j :: 0 <= i < j < |q| ==> q[i] != q[j]
  }

  /** The frames of `q` are chained through their `next` links in order,
      and the last one ends the chain with null. */
  ghost predicate Linked(q: seq<Coroutine>)
    reads q
  {
    && (forall i {:trigger q[i].next} :: 0 <= i < |q| - 1 ==> q[i].next == q[i + 1])
    && (q != [] ==> q[|q| - 1].next == null)
  }

  /** The frames of `q` from index `i` on are still chained through their
      `next` links, the last one ending the chain with null. */
  ghost predicate LinkedFrom(q: seq<Coroutine>, i: nat)
    reads q
  {
    && (forall k {:trigger q[k].next} :: i <= k < |q| - 1 ==> q[k].next == q[k + 1])
    && (i < |q| ==> q[|q| - 1].next == null)
  }

  /** The queue after `c` waits: appended for FIFO, prepended for LIFO. */
  function Enqueue(order: Order, q: seq<Coroutine>, c: Coroutine): seq<Coroutine>
  {
    match order
    case Fifo => q + [c]
    case Lifo => [c] + q
  }

  /** The queue after the resumed frame `c` runs: it waits on the same
      condition variable again exactly when it is in `rewait`. */
  function Requeue(order: Order, q: seq<Coroutine>, c: Coroutine, rewait: set<Coroutine>): seq<Coroutine>
  {
    if c in rewait then Enqueue(order, q, c) else q
  }

  /** The queue after each frame of `s` is resumed in turn, starting from `q`. */
  function Drained(order: Order, q: seq<Coroutine>, s: seq<Coroutine>, rewait: set<Coroutine>): seq<Coroutine>
    decreases |s|
  {
    if s == [] then q
    else Requeue(order, Drained(order, q, s[..|s| - 1], rewait), s[|s| - 1], rewait)
  }

  /** Draining one more frame of `s` requeues it after the drain so far. */
  lemma DrainedSnoc(order: Order, q: seq<Coroutine>, s: seq<Coroutine>, i: nat, rewait: set<Coroutine>)
    requires i < |s|
    ensures Drained(order, q, s[..i + 1], rewait) == Requeue(order, Drained(order, q, s[..i], rewait), s[i], rewait)
  {
    assert s[..i + 1][..i] == s[..i];
  }

  /** The queue `q` after the frames of `cs` wait one after another. */
  function Enqueued(order: Order, q: seq<Coroutine>, cs: seq<Coroutine>): seq<Coroutine>
    decreases |cs|
  {
    if cs == [] then q else Enqueue(order, Enqueued(order, q, cs[..|cs| - 1]), cs[|cs| - 1])
  }

  /** Each waiting frame adds one to the queue. */
  lemma {:induction false} EnqueuedLength(order: Order, cs: seq<Coroutine>)
    ensures |Enqueued(order, [], cs)| == |cs|
    decreases |cs|
  {
    if cs != [] {
      EnqueuedLength(order, cs[..|cs| - 1]);
    }
  }

  /** The frames of `s` that are in `r`, in their order in `s`. */
  function Filter(s: seq<Coroutine>, r: set<Coroutine>): seq<Coroutine>
    decreases |s|
  {
    if s == [] then []
    else Filter(s[..|s| - 1], r) + (if s[|s| - 1] in r then [s[|s| - 1]] else [])
  }

  /** `s` back to front. */
  function Reverse(s: seq<Coroutine>): seq<Coroutine>
    decreases |s|
  {
    if s == [] then [] else [s[|s| - 1]] + Reverse(s[..|s| - 1])
  }

  /** Reversing keeps the length. */
  lemma {:induction false} ReverseLength(s: seq<Coroutine>)
    ensures |Reverse(s)| == |s|
    decreases |s|
  {
    if s != [] {
      ReverseLength(s[..|s| - 1]);
    }
  }

  /** Reversing keeps the frames. */
  lemma {:induction false} ReverseFrames(s: seq<Coroutine>)
    ensures forall c :: c in Reverse(s) <==> c in s
    decreases |s|
  {
    if s != [] {
      ReverseFrames(s[..|s| - 1]);
      assert forall c :: c in s <==> c in s[..|s| - 1] || c == s[|s| - 1];
    }
  }

  /** Reversing keeps the frames distinct. */
  lemma {:induction false} ReverseDistinct(s: seq<Coroutine>)
    requires Distinct(s)
    ensures Distinct(Reverse(s))
    decreases |s|
  {
    if s != [] {
      var init := s[..|s| - 1];
      ReverseDistinct(init);
      ReverseFrames(init);
      assert s[|s| - 1] !in init;
    }
  }

  /** The resumptions of the frames of `s`, in order, each seeing its own
      current error flag (the notify variants). */
  ghost function Observed(s: seq<Coroutine>): seq<Resumption>
    reads s
    decreases |s|
  {
    if s == [] then [] else Observed(s[..|s| - 1]) + [Resumption(s[|s| - 1], s[|s| - 1].error)]
  }

  /** The `k`-th resumption observed is that of the `k`-th frame, with the
      flag it has now. */
  lemma {:induction false} ObservedAt(s: seq<Coroutine>)
    ensures |Observed(s)| == |s|
    ensures forall k :: 0 <= k < |s| ==> Observed(s)[k] == Resumption(s[k], s[k].error)
    decreases |s|
  {
    if s != [] {
      ObservedAt(s[..|s| - 1]);
    }
  }

  /** The resumptions of the frames of `s`, in order, each seeing its error
      flag set (the fail variants). */
  function Failed(s: seq<Coroutine>): seq<Resumption>
    decreases |s|
  {
    if s == [] then [] else Failed(s[..|s| - 1]) + [Resumption(s[|s| - 1], true)]
  }

  /** The `k`-th failed resumption is that of the `k`-th frame. */
  lemma {:induction false} FailedAt(s: seq<Coroutine>)
    ensures |Failed(s)| == |s|
    ensures forall k :: 0 <= k < |s| ==> Failed(s)[k] == Resumption(s[k], true)
    decreases |s|
  {
    if s != [] {
      FailedAt(s[..|s| - 1]);
    }
  }

  /** FIFO: frames are woken in the order they waited, after the frames
      already waiting. */
  lemma {:induction false} EnqueuedFifo(q: seq<Coroutine>, cs: seq<Coroutine>)
    ensures Enqueued(Fifo, q, cs) == q + cs
    decreases |cs|
  {
    if cs != [] {
      EnqueuedFifo(q, cs[..|cs| - 1]);
      assert cs[..|cs| - 1] + [cs[|cs| - 1]] == cs;
    }
  }

  /** LIFO: frames are woken in the reverse of the order they waited, before
      the frames already waiting. */
  lemma {:induction false} EnqueuedLifo(q: seq<Coroutine>, cs: seq<Coroutine>)
    ensures Enqueued(Lifo, q, cs) == Reverse(cs) + q
    decreases |cs|
  {
    if cs != [] {
      EnqueuedLifo(q, cs[..|cs| - 1]);
    }
  }

  /** A FIFO drain leaves behind the frames that were already queued,
      followed by the re-waiting frames in the order they were resumed. */
  lemma {:induction false} DrainedFifo(q: seq<Coroutine>, s: seq<Coroutine>, rewait: set<Coroutine>)
    ensures Drained(Fifo, q, s, rewait) == q + Filter(s, rewait)
    decreases |s|
  {
    if s != [] {
      DrainedFifo(q, s[..|s| - 1], rewait);
    }
  }

  /** A LIFO drain puts the re-waiting frames in front of the frames that
      were already queued, the last one resumed first. */
  lemma {:induction false} DrainedLifo(q: seq<Coroutine>, s: seq<Coroutine>, rewait: set<Coroutine>)
    ensures Drained(Lifo, q, s, rewait) == Reverse(Filter(s, rewait)) + q
    decreases |s|
  {
    if s != [] {
      DrainedLifo(q, s[..|s| - 1], rewait);
      var f := Filter(s[..|s| - 1], rewait);
      if s[|s| - 1] in rewait {
        var g := f + [s[|s| - 1]];
        assert g[..|g| - 1] == f;
      } else {
        assert f + [] == f;
      }
    }
  }

  /** Every frame left queued after a drain was queued before it, or was
      resumed by it and chose to wait again. */
  lemma {:induction false} DrainedWithin(order: Order, q: seq<Coroutine>, s: seq<Coroutine>, rewait: set<Coroutine>)
    ensures forall f :: f in Drained(order, q, s, rewait) ==> f in q || (f in s && f in rewait)
    decreases |s|
  {
    if s != [] {
      DrainedWithin(order, q, s[..|s| - 1], rewait);
      forall f | f in Drained(order, q, s, rewait)
        ensures f in q || (f in s && f in rewait)
      {
        if f != s[|s| - 1] {
          assert f in Drained(order, q, s[..|s| - 1], rewait);
          assert f in s[..|s| - 1] ==> f in s;
        }
      }
    }
  }

  /** Every frame queued by waiting is one of the waiters. */
  lemma {:induction false} EnqueuedFrames(order: Order, cs: seq<Coroutine>)
    ensures forall c :: c in Enqueued(order, [], cs) ==> c in cs
    decreases |cs|
  {
    if cs != [] {
      EnqueuedFrames(order, cs[..|cs| - 1]);
      assert forall c :: c in cs[..|cs| - 1] ==> c in cs;
    }
  }

  /** A drain of distinct frames from an empty queue queues no frame twice. */
  lemma {:induction false} DrainedDistinct(order: Order, s: seq<Coroutine>, rewait: set<Coroutine>)
    ensures Distinct(s) ==> Distinct(Drained(order, [], s, rewait))
    decreases |s|
  {
    if s != [] && Distinct(s) {
      var init, last := s[..|s| - 1], s[|s| - 1];
      DrainedDistinct(order, init, rewait);
      DrainedWithin(order, [], init, rewait);
      var d := Drained(order, [], init, rewait);
      assert last !in init;
      assert last !in d;
      if last in rewait {
        var e := Enqueue(order, d, last);
        forall i, j | 0 <= i < j < |e|
          ensures e[i] != e[j]
        {
          if order == Fifo {
            assert e == d + [last];
          } else {
            assert e == [last] + d;
          }
        }
      }
    }
  }

  /** A drain from an empty queue leaves nothing queued exactly when none
      of the resumed frames waits again. */
  lemma {:induction false} DrainedEmpty(order: Order, s: seq<Coroutine>, rewait: set<Coroutine>)
    ensures Drained(order, [], s, rewait) == [] <==> forall f :: f in s ==> f !in rewait
    decreases |s|
  {
    if s != [] {
      DrainedEmpty(order, s[..|s| - 1], rewait);
      var last := s[|s| - 1];
      assert forall f :: f in s <==> f in s[..|s| - 1] || f == last;
    }
  }
}
