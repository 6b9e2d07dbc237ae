/** The control protocol the macros of `primitives.hpp` expand to, as steps
    on coroutine frames: saving the resume point, suspending, checking the
    error flag on resumption, throwing to the parent, completing, and the
    protothread yield/return/call protocol.  Label addresses are the `id`s
    of `Ip`; the computed `goto` itself is not modelled.  The completion
    steps follow the order of the protothread end (resume point saved
    after the return label); `CompleteAsWritten` keeps the order of the
    coroutine end in debug builds. */
module Protocol {
  import opened Coroutines
  import opened WaitQueue
  import opened FifoConditionVariables

  /** What a protocol step leaves the body doing. */
  datatype Control =
    | Suspended                        // the body returns; the frame waits
    | Proceed                          // execution continues after the macro
    | Handle                           // the custom error handler runs
    | ResumeParent(parent: Coroutine)  // the frame completed and invokes its parent
    | Finished                         // a root frame completed

  /** The error handler of `CR_AWAIT`/`CR_CALL`: `CR_THROW` by default, or
      code of the user's. */
  datatype Handler = Rethrow | Custom

  /** Where an invocation enters the body. */
  datatype Entry = Begin | ResumeAt(id: nat) | CalledAfterReturn

  /** The body's intro jumps to the saved label when one is saved and
      otherwise starts at the top; the label saved at the end of a body
      (debug builds) is an assertion that the frame was called after it
      returned. */
  function EntryOf(ip: Ip): (r: Entry)
    ensures r == Begin <==> ip == Start
    ensures r == CalledAfterReturn <==> ip == Ended
    ensures ip.Label? ==> r == ResumeAt(ip.id)
  {
    match ip
    case Start => Begin
    case Label(id) => ResumeAt(id)
    case Ended => CalledAfterReturn
  }

  /** The completion code at `cr_label_return` (`CR_IMPL_END`): the end
      label is saved, so any later invocation is the "called after return"
      assertion; a child frame then invokes its parent, a root just returns.
      Destroying the frame is not modelled. */
  method Complete(self: Coroutine) returns (ctl: Control)
    modifies self.base
    ensures EntryOf(self.base.ip) == CalledAfterReturn
    ensures self.parent != null ==> ctl == ResumeParent(self.parent)
    ensures self.parent == null ==> ctl == Finished
  {
    self.base.ip := Ended;
    if self.parent != null {
      ctl := ResumeParent(self.parent);
    } else {
      ctl := Finished;
    }
  }

  /** `CR_IMPL_END` in debug builds as written: the end label is saved before
      `cr_label_return`, so only a body that runs off its end saves it; a
      `CR_RETURN` or `CR_THROW`, which jump to `cr_label_return`, leave the
      last checkpoint saved. */
  method CompleteAsWritten(self: Coroutine, fellThrough: bool) returns (ctl: Control)
    modifies self.base
    ensures self.base.ip == if fellThrough then Ended else old(self.base.ip)
    ensures self.parent != null ==> ctl == ResumeParent(self.parent)
    ensures self.parent == null ==> ctl == Finished
  {
    if fellThrough {
      self.base.ip := Ended;
    }
    if self.parent != null {
      ctl := ResumeParent(self.parent);
    } else {
      ctl := Finished;
    }
  }

  /** `CR_RETURN`: jumps to the completion code. */
  method Return(self: Coroutine) returns (ctl: Control)
    modifies self.base
    ensures EntryOf(self.base.ip) == CalledAfterReturn
    ensures self.parent != null ==> ctl == ResumeParent(self.parent)
    ensures self.parent == null ==> ctl == Finished
  {
    ctl := Complete(self);
  }

  /** `CR_THROW`: only a frame with a parent may throw; the parent's error
      flag is set, then the frame completes and invokes the parent. */
  method Throw(self: Coroutine) returns (ctl: Control)
    requires self.parent != null
    modifies self.parent`error, self.base
    ensures self.parent.error && ctl == ResumeParent(self.parent)
    ensures EntryOf(self.base.ip) == CalledAfterReturn
  {
    self.parent.error := true;
    ctl := Return(self);
  }

  /** The code at the resume label of `CR_AWAIT` and `CR_CALL`: the frame
      must not be queued anywhere (`queued` stands for the frames linked
      into some wait queue); a set error flag is cleared before the handler
      runs, so each error is seen once; the default handler rethrows to the
      parent. */
  method Resume(self: Coroutine, handler: Handler, ghost queued: set<Coroutine>) returns (ctl: Control)
    requires self !in queued
    requires self.error && handler == Rethrow ==> self.parent != null
    modifies self`error, self.base, (if self.parent == null then {} else {self.parent})`error
    ensures !old(self.error) ==> ctl == Proceed && !self.error && self.base.ip == old(self.base.ip)
    ensures old(self.error) && handler == Custom ==> ctl == Handle && !self.error && self.base.ip == old(self.base.ip)
    ensures old(self.error) && handler == Rethrow ==>
      && ctl == ResumeParent(self.parent) && self.parent.error
      && EntryOf(self.base.ip) == CalledAfterReturn
      && (self.parent != self ==> !self.error)
    ensures self.parent != null && self.parent != self && !(old(self.error) && handler == Rethrow) ==>
      self.parent.error == old(self.parent.error)
  {
    if !self.error {
      return Proceed;
    }
    self.error := false;
    match handler
    case Custom =>
      ctl := Handle;
    case Rethrow =>
      ctl := Throw(self);
  }

  /** `CR_AWAIT(operation, handler)`: the resume label is saved first; when
      the operation reports that it blocks the body returns, otherwise
      execution falls through to the resume label. */
  method Await(self: Coroutine, id: nat, nonblock: bool, handler: Handler, ghost queued: set<Coroutine>) returns (ctl: Control)
    requires nonblock ==> self !in queued
    requires nonblock && self.error && handler == Rethrow ==> self.parent != null
    modifies self`error, self.base, (if self.parent == null then {} else {self.parent})`error
    ensures !nonblock ==> ctl == Suspended && self.base.ip == Label(id) && self.error == old(self.error)
    ensures nonblock && !old(self.error) ==> ctl == Proceed && self.base.ip == Label(id)
    ensures nonblock && old(self.error) && handler == Custom ==> ctl == Handle && !self.error && self.base.ip == Label(id)
    ensures nonblock && old(self.error) && handler == Rethrow ==>
      ctl == ResumeParent(self.parent) && self.parent.error && EntryOf(self.base.ip) == CalledAfterReturn
    ensures self.parent != null && self.parent != self && !(nonblock && old(self.error) && handler == Rethrow) ==>
      self.parent.error == old(self.parent.error)
  {
    self.base.ip := Label(id);
    if !nonblock {
      return Suspended;
    }
    ctl := Resume(self, handler, queued);
  }

  /** `CR_CALL(child, args)`: the resume label is saved, the child is
      prepared as a child of this frame and started, and the body returns;
      it is resumed at the label when the child completes. */
  method Call(self: Coroutine, id: nat, child: Coroutine, impl: Impl) returns (ctl: Control)
    requires child != self && child.base != self.base
    modifies self.base, child, child.base
    ensures ctl == Suspended && EntryOf(self.base.ip) == ResumeAt(id)
    ensures child.parent == self && child.context == self.context && child.impl == impl
    ensures EntryOf(child.base.ip) == Begin && !child.error
    ensures self.error == old(self.error) && self.parent == old(self.parent)
  {
    self.base.ip := Label(id);
    child.PrepareChild(impl, self);
    ctl := Suspended;
  }

  /** An error thrown two levels down reaches the root: the grandchild
      throws, the child's default handler rethrows at its call label, and
      the root's own handler takes it.  Every error flag ends clear, both
      callees are complete, and the root stays at its call label. */
  method PropagateError(root: Coroutine, child: Coroutine, grandchild: Coroutine, rootId: nat, childId: nat)
      returns (ctl: Control)
    requires root != child && child != grandchild && root != grandchild
    requires root.base != child.base && child.base != grandchild.base && root.base != grandchild.base
    requires root.parent == null && child.parent == root && grandchild.parent == child
    requires !root.error && !child.error
    requires EntryOf(root.base.ip) == ResumeAt(rootId) && EntryOf(child.base.ip) == ResumeAt(childId)
    modifies root`error, root.base, child`error, child.base, grandchild.base
    ensures ctl == Handle
    ensures !root.error && !child.error
    ensures EntryOf(child.base.ip) == CalledAfterReturn && EntryOf(grandchild.base.ip) == CalledAfterReturn
    ensures EntryOf(root.base.ip) == ResumeAt(rootId)
  {
    var up := Throw(grandchild);
    assert up == ResumeParent(child) && child.error;
    up := Resume(child, Rethrow, {});
    assert up == ResumeParent(root) && root.error && !child.error;
    ctl := Resume(root, Custom, {});
  }

  /** A frame awaiting a FIFO condition variable that is failed sees the
      error once and, with the default handler, passes it to its parent,
      which it then invokes. */
  method FailedAwait(cv: FifoConditionVariable, self: Coroutine, id: nat) returns (ctl: Control)
    requires cv.Valid() && cv.Queue == []
    requires self.parent != null && self.parent != self && !self.error
    modifies cv, self`next, self`error, self.base, self.parent`error
    ensures cv.Valid() && cv.Queue == []
    ensures cv.resumed == old(cv.resumed) + [Resumption(self, true)]
    ensures ctl == ResumeParent(self.parent) && self.parent.error && !self.error
    ensures EntryOf(self.base.ip) == CalledAfterReturn
  {
    self.base.ip := Label(id);
    var nonblock := cv.Wait(self);
    ctl := Await(self, id, nonblock, Rethrow, {});
    assert ctl == Suspended && cv.Queue == [self];
    var failed := cv.FailOne({});
    ctl := Resume(self, Rethrow, {});
  }

  /** An early `CR_RETURN` after an await, with the completion code as
      written: the await's label is still saved, so invoking the frame again
      resumes after the await instead of reaching the assertion. */
  method EarlyReturnAsWritten(self: Coroutine, id: nat) returns (ctl: Control)
    modifies self`error, self.base, (if self.parent == null then {} else {self.parent})`error
    ensures EntryOf(self.base.ip) == ResumeAt(id)
  {
    ctl := Await(self, id, false, Custom, {});
    ctl := CompleteAsWritten(self, false);
  }

  /** The same early return with the completion code saving the end label
      after `cr_label_return`: invoking the frame again is the assertion. */
  method EarlyReturn(self: Coroutine, id: nat) returns (ctl: Control)
    modifies self`error, self.base, (if self.parent == null then {} else {self.parent})`error
    ensures EntryOf(self.base.ip) == CalledAfterReturn
  {
    ctl := Await(self, id, false, Custom, {});
    ctl := Return(self);
  }

  /** What a protothread's body does in one run: yield at a label
      (`CR_PYIELD`) or return (`CR_PRETURN`). */
  datatype Run = YieldAt(id: nat) | Returns

  /** `CR_PYIELD`: the label is saved and the protothread reports that it is
      not done. */
  method PYield(self: Protothread, id: nat) returns (done: bool)
    modifies self
    ensures !done && EntryOf(self.ip) == ResumeAt(id)
  {
    self.ip := Label(id);
    done := false;
  }

  /** `CR_PRETURN` in debug builds: the end label is saved and the protothread
      reports that it is done. */
  method PReturn(self: Protothread) returns (done: bool)
    modifies self
    ensures done && EntryOf(self.ip) == CalledAfterReturn
  {
    self.ip := Ended;
    done := true;
  }

  /** Invoking a protothread that has not returned: its body runs to the
      next yield or return, whose result is passed back. */
  method PInvoke(self: Protothread, run: Run) returns (done: bool)
    requires EntryOf(self.ip) != CalledAfterReturn
    modifies self
    ensures done <==> run == Returns
    ensures run.YieldAt? ==> EntryOf(self.ip) == ResumeAt(run.id)
    ensures run == Returns ==> EntryOf(self.ip) == CalledAfterReturn
  {
    match run
    case YieldAt(id) =>
      done := PYield(self, id);
    case Returns =>
      done := PReturn(self);
  }

  /** `CR_PCALL(child, args)`: the child is prepared, a checkpoint is saved
      so that re-entering calls the child again, and the child is invoked;
      while the child is not done the caller returns "not done" itself. */
  method PCall(self: Protothread, id: nat, child: Protothread, run: Run) returns (proceed: bool)
    requires child != self
    modifies self, child
    ensures EntryOf(self.ip) == ResumeAt(id)
    ensures proceed <==> run == Returns
    ensures run.YieldAt? ==> EntryOf(child.ip) == ResumeAt(run.id)
    ensures run == Returns ==> EntryOf(child.ip) == CalledAfterReturn
  {
    child.Prepare();
    self.ip := Label(id);
    proceed := PInvoke(child, run);
  }

  /** Re-entering a protothread at its `CR_PCALL` checkpoint: the child is
      invoked again, without being prepared again. */
  method PCallResume(self: Protothread, child: Protothread, run: Run) returns (proceed: bool)
    requires child != self && EntryOf(self.ip).ResumeAt? && EntryOf(child.ip) != CalledAfterReturn
    modifies child
    ensures proceed <==> run == Returns
    ensures run.YieldAt? ==> EntryOf(child.ip) == ResumeAt(run.id)
    ensures run == Returns ==> EntryOf(child.ip) == CalledAfterReturn
  {
    proceed := PInvoke(child, run);
  }
}
