/** Coroutine frames: the resumption-point store (`Protothread`) and the
    nested coroutine frame (`Coroutine`) that every wait queue threads
    through its `next` link. */
module Coroutines {

  /** The saved resume point.  `Start` stands for the null instruction
      pointer a freshly prepared body begins at, `Label(id)` for the address
      of the checkpoint label `id`, and `Ended` for the label placed after a
      body's end in debug builds, where re-entering is an assertion failure. */
  datatype Ip = Start | Label(id: nat) | Ended

  /** Worker-thread tag: a 16-bit identifier. */
  newtype Thread = x: int | 0 <= x < 0x1_0000

  /** The tag of "no thread", all sixteen bits set. */
  const InvalidThread: Thread := 0xFFFF

  /** The implementation member-function pointer, kept opaque. */
  datatype Impl = Impl(id: nat)

  /** Task-local storage shared by a coroutine tree; its contents are not modelled. */
  class Context {
    constructor () {}
  }

  /** Basic protothread state: the last saved resume point. */
  class Protothread {
    var ip: Ip

    constructor ()
      ensures ip == Start
    {
      ip := Start;
    }

    /** Prepares the protothread for execution: the resume point is reset
        to the start of the body. */
    method Prepare()
      modifies this
      ensures ip == Start
    {
      ip := Start;
    }
  }

  /** A coroutine frame.  `base` is the `Protothread` part the frame derives
      from; `next` is the plain single-threaded waiting link. */
  class Coroutine {
    const base: Protothread
    var context: Context?
    var parent: Coroutine?
    var impl: Impl
    var error: bool
    var next: Coroutine?
    var thread: Thread

    constructor ()
      ensures fresh(base) && parent == null && next == null && !error
    {
      base := new Protothread();
      context := null;
      parent := null;
      impl := Impl(0);
      error := false;
      next := null;
      thread := InvalidThread;
    }

    /** Prepares the coroutine as the root of a coroutine tree. */
    method PrepareRoot(coroutine: Impl, ctx: Context?)
      modifies this, base
      ensures base.ip == Start
      ensures parent == null && context == ctx
      ensures impl == coroutine && !error
      ensures thread == InvalidThread
      ensures next == old(next)
    {
      base.Prepare();
      parent := null;
      context := ctx;
      impl := coroutine;
      error := false;
      thread := InvalidThread;
    }

    /** Prepares the coroutine as a child of `p`: it inherits the parent's
        context. */
    method PrepareChild(coroutine: Impl, p: Coroutine)
      modifies this, base
      ensures base.ip == Start
      ensures parent == p && context == old(p.context)
      ensures impl == coroutine && !error
      ensures thread == InvalidThread
      ensures next == old(next)
      ensures p != this ==> p.error == old(p.error) && p.parent == old(p.parent) && p.context == old(p.context)
    {
      base.Prepare();
      parent := p;
      context := p.context;
      impl := coroutine;
      error := false;
      thread := InvalidThread;
    }
  }

  /** Prepares `frames[0]` as a root with context `ctx` and every later
      frame as a child of the one before it: each frame's parent is its
      predecessor, the whole chain shares the root's context, and no frame
      has its error flag set. */
  method PrepareChain(frames: seq<Coroutine>, ctx: Context?, impl: Impl)
    requires forall i, j :: 0 <= i < j < |frames| ==> frames[i] != frames[j]
    modifies set f | f in frames, set f | f in frames :: f.base
    ensures frames != [] ==> frames[0].parent == null
    ensures forall k :: 0 < k < |frames| ==> frames[k].parent == frames[k - 1]
    ensures forall k :: 0 <= k < |frames| ==> frames[k].context == ctx && !frames[k].error
  {
    if frames == [] {
      return;
    }
    frames[0].PrepareRoot(impl, ctx);
    var i := 1;
    while i < |frames|
      invariant 1 <= i <= |frames|
      invariant frames[0].parent == null
      invariant forall k :: 0 < k < i ==> frames[k].parent == frames[k - 1]
      invariant forall k :: 0 <= k < i ==> frames[k].context == ctx && !frames[k].error
    {
      frames[i].PrepareChild(impl, frames[i - 1]);
      i := i + 1;
    }
  }
}
