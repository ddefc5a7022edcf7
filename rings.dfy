/**
 The queue structures and the set-up sequence of mmap.go in imperative
 form: `mmapIOURing` allocates the two queues and the helpers assign their
 fields one by one, returning at the first error. Each method is proved to
 leave exactly the state, call log and error that its specification
 function in `Layout` describes.
 */
module Rings {
  import opened Words
  import opened Syscall
  import opened Layout

  /** The submission queue's handles into the SQ ring and the SQE array. */
  class SubmissionQueue {
    var ptr: uintptr
    var size: uint32
    var head: uintptr
    var tail: uintptr
    var mask: uintptr
    var entries: uintptr
    var flags: uintptr
    var dropped: uintptr
    var indexArray: View
    var sqes: View

    /** `new(SubmissionQueue)`. */
    constructor ()
      ensures State() == EmptySq
    {
      ptr, size := 0, 0;
      head, tail, mask, entries, flags, dropped := 0, 0, 0, 0, 0, 0;
      indexArray, sqes := NilView, NilView;
    }

    function State(): SqState
      reads this
    {
      SqState(ptr, size, head, tail, mask, entries, flags, dropped, indexArray, sqes)
    }
  }

  /** The completion queue's handles into the CQ ring. */
  class CompletionQueue {
    var ptr: uintptr
    var size: uint32
    var head: uintptr
    var tail: uintptr
    var mask: uintptr
    var flags: uintptr
    var overflow: uintptr
    var cqes: View

    /** `new(CompletionQueue)`. */
    constructor ()
      ensures State() == EmptyCq
    {
      ptr, size := 0, 0;
      head, tail, mask, flags, overflow := 0, 0, 0, 0, 0;
      cqes := NilView;
    }

    function State(): CqState
      reads this
    {
      CqState(ptr, size, head, tail, mask, flags, overflow, cqes)
    }
  }

  /** The ring: its descriptor, the negotiated parameters and the two queues (nil until mapped). */
  class IOURing {
    const fd: int
    const params: Params
    var sq: SubmissionQueue?
    var cq: CompletionQueue?

    constructor (fd: int, params: Params)
      ensures this.fd == fd && this.params == params && sq == null && cq == null
    {
      this.fd, this.params := fd, params;
      sq, cq := null, null;
    }
  }

  /** `mmapIOURing`: SQ ring, then the CQ ring (aliased or mapped), then the SQE array. */
  method MmapIOURing(iour: IOURing, kernel: Kernel) returns (err: Option<Error>)
    modifies iour, kernel
    ensures iour.sq != null && iour.cq != null && fresh(iour.sq) && fresh(iour.cq)
    ensures var o := MapRings(iour.params, iour.fd, kernel.answer, old(kernel.log));
            && kernel.log == o.log
            && iour.sq.State() == o.sq
            && iour.cq.State() == o.cq
            && err == o.err
  {
    iour.sq := new SubmissionQueue();
    iour.cq := new CompletionQueue();

    err := MmapSQ(iour, kernel);
    if err.Some? {
      return;
    }

    if SingleMmap(iour.params.features) {
      iour.cq.ptr := iour.sq.ptr;
    }
    err := MmapCQ(iour, kernel);
    if err.Some? {
      return;
    }

    err := MmapSQEs(iour, kernel);
  }

  /** `mmapSQ`. */
  method MmapSQ(iour: IOURing, kernel: Kernel) returns (err: Option<Error>)
    requires iour.sq != null
    modifies iour.sq, kernel
    ensures var s := MapSqRing(old(iour.sq.State()), iour.params, iour.fd, kernel.answer(|old(kernel.log)|));
            && kernel.log == old(kernel.log) + s.calls
            && iour.sq.State() == s.state
            && err == s.err
  {
    var sq := iour.sq;
    var params := iour.params;

    sq.size := SqRingSize(params);
    var e;
    sq.ptr, e := Mmap(kernel, iour.fd, sq.size, IORING_OFF_SQ_RING);
    if e.Some? {
      return Some(Wrapped(SQ_RING_CONTEXT, e.value));
    }

    sq.head := PtrAdd(sq.ptr, params.sqOff.head);
    sq.tail := PtrAdd(sq.ptr, params.sqOff.tail);
    sq.mask := PtrAdd(sq.ptr, params.sqOff.ringMask);
    sq.entries := PtrAdd(sq.ptr, params.sqOff.ringEntries);
    sq.flags := PtrAdd(sq.ptr, params.sqOff.flags);
    sq.dropped := PtrAdd(sq.ptr, params.sqOff.dropped);

    sq.indexArray := View(PtrAdd(sq.ptr, params.sqOff.indexArray), params.sqEntries as nat, params.sqEntries as nat);
    return None;
  }

  /** `mmapCQ`. */
  method MmapCQ(iour: IOURing, kernel: Kernel) returns (err: Option<Error>)
    requires iour.cq != null
    modifies iour.cq, kernel
    ensures var s := MapCqRing(old(iour.cq.State()), iour.params, iour.fd, kernel.answer(|old(kernel.log)|));
            && kernel.log == old(kernel.log) + s.calls
            && iour.cq.State() == s.state
            && err == s.err
  {
    var params := iour.params;
    var cq := iour.cq;

    cq.size := CqRingSize(params);
    if cq.ptr == 0 {
      var e;
      cq.ptr, e := Mmap(kernel, iour.fd, cq.size, IORING_OFF_CQ_RING);
      if e.Some? {
        return Some(Wrapped(CQ_RING_CONTEXT, e.value));
      }
    }

    cq.head := PtrAdd(cq.ptr, params.cqOff.head);
    cq.tail := PtrAdd(cq.ptr, params.cqOff.tail);
    cq.mask := PtrAdd(cq.ptr, params.cqOff.ringMask);
    cq.flags := PtrAdd(cq.ptr, params.cqOff.flags);
    cq.overflow := PtrAdd(cq.ptr, params.cqOff.overflow);

    cq.cqes := View(PtrAdd(cq.ptr, params.cqOff.cqes), params.cqEntries as nat, params.cqEntries as nat);
    return None;
  }

  /** `mmapSQEs`. */
  method MmapSQEs(iour: IOURing, kernel: Kernel) returns (err: Option<Error>)
    requires iour.sq != null
    modifies iour.sq, kernel
    ensures var s := MapSqes(old(iour.sq.State()), iour.params, iour.fd, kernel.answer(|old(kernel.log)|));
            && kernel.log == old(kernel.log) + s.calls
            && iour.sq.State() == s.state
            && err == s.err
  {
    var params := iour.params;

    var ptr, e := Mmap(kernel, iour.fd, SqesSize(params), IORING_OFF_SQES);
    if e.Some? {
      return Some(Wrapped(SQE_ARRAY_CONTEXT, e.value));
    }

    iour.sq.sqes := View(ptr, params.sqEntries as nat, params.sqEntries as nat);
    return None;
  }
}
