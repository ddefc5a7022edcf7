/**
 The layout of the three shared io_uring regions, as mmap.go derives it from
 the parameters negotiated by io_uring_setup, and the set-up sequence itself
 as pure functions over the values of the two queue structures.

 `MapSqRing`, `MapCqRing` and `MapSqes` specify the helpers `mmapSQ`,
 `mmapCQ` and `mmapSQEs`; `MapRings` specifies `mmapIOURing`. Pointers are
 integer addresses (0 is nil) and Go slices are (data, len, cap) views.
 */
module Layout {
  import opened Words
  import opened Syscall

  /** Byte offsets of the SQ ring's control words and index array within the SQ ring. */
  datatype SqRingOffsets = SqRingOffsets(
    head: uint32, tail: uint32, ringMask: uint32, ringEntries: uint32,
    flags: uint32, dropped: uint32, indexArray: uint32)

  /** Byte offsets of the CQ ring's control words and completion array within the CQ ring. */
  datatype CqRingOffsets = CqRingOffsets(
    head: uint32, tail: uint32, ringMask: uint32, ringEntries: uint32,
    overflow: uint32, cqes: uint32, flags: uint32)

  /** The fields of io_uring_setup's result that the mapping reads. */
  datatype Params = Params(
    sqEntries: uint32, cqEntries: uint32, features: uint32,
    sqOff: SqRingOffsets, cqOff: CqRingOffsets)

  /** A Go slice header: start address, length and capacity. */
  datatype View = View(data: uintptr, len: nat, cap: nat)

  const NilView := View(0, 0, 0)

  /** `unsafe.Sizeof(uint32(0))`: the ring size formulas count 4 bytes per entry. */
  const UINT32_SIZE: uint32 := 4

  /**
   `unsafe.Sizeof(SubmissionQueueEntry{})`: the size of one submission entry,
   a type outside this model, so its value is left unspecified beyond being
   positive.
   */
  const SQE_SIZE: PositiveSize

  type PositiveSize = x: uint32 | x > 0 witness 1

  const SQ_RING_CONTEXT := "mmap sq ring"
  const CQ_RING_CONTEXT := "mmap cq ring"
  const SQE_ARRAY_CONTEXT := "mmap sqe array"

  /** The fields of a SubmissionQueue that mmap.go assigns. */
  datatype SqState = SqState(
    ptr: uintptr, size: uint32,
    head: uintptr, tail: uintptr, mask: uintptr, entries: uintptr,
    flags: uintptr, dropped: uintptr,
    indexArray: View, sqes: View)

  /** The fields of a CompletionQueue that mmap.go assigns. */
  datatype CqState = CqState(
    ptr: uintptr, size: uint32,
    head: uintptr, tail: uintptr, mask: uintptr,
    flags: uintptr, overflow: uintptr,
    cqes: View)

  /** A freshly allocated (`new`) queue: every field is zero or nil. */
  const EmptySq := SqState(0, 0, 0, 0, 0, 0, 0, 0, NilView, NilView)
  const EmptyCq := CqState(0, 0, 0, 0, 0, 0, 0, NilView)

  /** io_uring_setup reported IORING_FEAT_SINGLE_MMAP. */
  predicate SingleMmap(features: uint32) {
    features as bv32 & IORING_FEAT_SINGLE_MMAP as bv32 != 0
  }

  /** `SQOffset.Array + SQEntries*uint32Size`, in uint32 arithmetic. */
  function SqRingSize(p: Params): (r: uint32)
    ensures r as int == (p.sqOff.indexArray as int + p.sqEntries as int * 4) % TWO32
  {
    Add32(p.sqOff.indexArray, Mul32(p.sqEntries, UINT32_SIZE))
  }

  /** `CQOffset.Cqes + CQEntries*uint32Size`, in uint32 arithmetic: 4 bytes per entry. */
  function CqRingSize(p: Params): (r: uint32)
    ensures r as int == (p.cqOff.cqes as int + p.cqEntries as int * 4) % TWO32
  {
    Add32(p.cqOff.cqes, Mul32(p.cqEntries, UINT32_SIZE))
  }

  /** `SQEntries*sqeSize`, in uint32 arithmetic. */
  function SqesSize(p: Params): (r: uint32)
    ensures r as int == (p.sqEntries as int * SQE_SIZE as int) % TWO32
  {
    Mul32(p.sqEntries, SQE_SIZE)
  }

  function SqRingCall(p: Params, fd: int): MmapCall {
    MmapCall(fd, SqRingSize(p), IORING_OFF_SQ_RING)
  }

  function CqRingCall(p: Params, fd: int): MmapCall {
    MmapCall(fd, CqRingSize(p), IORING_OFF_CQ_RING)
  }

  function SqesCall(p: Params, fd: int): MmapCall {
    MmapCall(fd, SqesSize(p), IORING_OFF_SQES)
  }

  /**
   The SQ layout after a successful SQ ring mapping: every control word at
   ring base + its offset, and the index array a view of SQEntries words at
   base + the array offset.
   */
  predicate SqWired(sq: SqState, p: Params) {
    && sq.head == PtrAdd(sq.ptr, p.sqOff.head)
    && sq.tail == PtrAdd(sq.ptr, p.sqOff.tail)
    && sq.mask == PtrAdd(sq.ptr, p.sqOff.ringMask)
    && sq.entries == PtrAdd(sq.ptr, p.sqOff.ringEntries)
    && sq.flags == PtrAdd(sq.ptr, p.sqOff.flags)
    && sq.dropped == PtrAdd(sq.ptr, p.sqOff.dropped)
    && sq.indexArray == View(PtrAdd(sq.ptr, p.sqOff.indexArray), p.sqEntries as nat, p.sqEntries as nat)
  }

  /**
   The CQ layout after the CQ ring is mapped or aliased: every control word
   at ring base + its offset, and the completion array a view of CQEntries
   records at base + the cqes offset.
   */
  predicate CqWired(cq: CqState, p: Params) {
    && cq.head == PtrAdd(cq.ptr, p.cqOff.head)
    && cq.tail == PtrAdd(cq.ptr, p.cqOff.tail)
    && cq.mask == PtrAdd(cq.ptr, p.cqOff.ringMask)
    && cq.flags == PtrAdd(cq.ptr, p.cqOff.flags)
    && cq.overflow == PtrAdd(cq.ptr, p.cqOff.overflow)
    && cq.cqes == View(PtrAdd(cq.ptr, p.cqOff.cqes), p.cqEntries as nat, p.cqEntries as nat)
  }

  /** One helper's effect: the new queue value, the mmap calls it issued, and its error. */
  datatype Step<S> = Step(state: S, calls: seq<MmapCall>, err: Option<Error>)

  /** `mmapSQ`: size the SQ ring, map it, and on success lay out its control words and index array. */
  function MapSqRing(sq: SqState, p: Params, fd: int, reply: RawReply): (r: Step<SqState>)
    ensures r.calls == [SqRingCall(p, fd)]
    ensures r.state.size == SqRingSize(p) && r.state.sqes == sq.sqes
    ensures Failed(reply) ==>
              && r.err == Some(Wrapped(SQ_RING_CONTEXT, Errno(reply.errno)))
              && r.state == sq.(size := SqRingSize(p), ptr := 0)
    ensures !Failed(reply) ==> r.err.None? && r.state.ptr == reply.r1 && SqWired(r.state, p)
  {
    var size := SqRingSize(p);
    var (ptr, err) := MmapReturn(reply);
    var mapped := sq.(size := size, ptr := ptr);
    if err.Some? then
      Step(mapped, [SqRingCall(p, fd)], Some(Wrapped(SQ_RING_CONTEXT, err.value)))
    else
      Step(mapped.(
             head := PtrAdd(ptr, p.sqOff.head),
             tail := PtrAdd(ptr, p.sqOff.tail),
             mask := PtrAdd(ptr, p.sqOff.ringMask),
             entries := PtrAdd(ptr, p.sqOff.ringEntries),
             flags := PtrAdd(ptr, p.sqOff.flags),
             dropped := PtrAdd(ptr, p.sqOff.dropped),
             indexArray := View(PtrAdd(ptr, p.sqOff.indexArray), p.sqEntries as nat, p.sqEntries as nat)),
           [SqRingCall(p, fd)], None)
  }

  /**
   `mmapCQ`: size the CQ ring; map it only when no base address is set yet
   (a non-zero `ptr` is the alias of the SQ ring); then lay out its control
   words and completion array.
   */
  function MapCqRing(cq: CqState, p: Params, fd: int, reply: RawReply): (r: Step<CqState>)
    ensures r.state.size == CqRingSize(p)
    ensures cq.ptr != 0 ==> r.calls == [] && r.err.None? && r.state.ptr == cq.ptr && CqWired(r.state, p)
    ensures cq.ptr == 0 ==> r.calls == [CqRingCall(p, fd)]
    ensures cq.ptr == 0 && Failed(reply) ==>
              && r.err == Some(Wrapped(CQ_RING_CONTEXT, Errno(reply.errno)))
              && r.state == cq.(size := CqRingSize(p))
    ensures cq.ptr == 0 && !Failed(reply) ==> r.err.None? && r.state.ptr == reply.r1 && CqWired(r.state, p)
  {
    var sized := cq.(size := CqRingSize(p));
    var (ptr, err) := if sized.ptr == 0 then MmapReturn(reply) else (sized.ptr, None);
    var calls := if sized.ptr == 0 then [CqRingCall(p, fd)] else [];
    if err.Some? then
      Step(sized.(ptr := ptr), calls, Some(Wrapped(CQ_RING_CONTEXT, err.value)))
    else
      Step(sized.(
             ptr := ptr,
             head := PtrAdd(ptr, p.cqOff.head),
             tail := PtrAdd(ptr, p.cqOff.tail),
             mask := PtrAdd(ptr, p.cqOff.ringMask),
             flags := PtrAdd(ptr, p.cqOff.flags),
             overflow := PtrAdd(ptr, p.cqOff.overflow),
             cqes := View(PtrAdd(ptr, p.cqOff.cqes), p.cqEntries as nat, p.cqEntries as nat)),
           calls, None)
  }

  /** `mmapSQEs`: map the submission-entry array and, on success, view SQEntries entries at its base. */
  function MapSqes(sq: SqState, p: Params, fd: int, reply: RawReply): (r: Step<SqState>)
    ensures r.calls == [SqesCall(p, fd)]
    ensures Failed(reply) ==> r.err == Some(Wrapped(SQE_ARRAY_CONTEXT, Errno(reply.errno))) && r.state == sq
    ensures !Failed(reply) ==>
              && r.err.None?
              && r.state == sq.(sqes := View(reply.r1, p.sqEntries as nat, p.sqEntries as nat))
  {
    var (ptr, err) := MmapReturn(reply);
    if err.Some? then
      Step(sq, [SqesCall(p, fd)], Some(Wrapped(SQE_ARRAY_CONTEXT, err.value)))
    else
      Step(sq.(sqes := View(ptr, p.sqEntries as nat, p.sqEntries as nat)), [SqesCall(p, fd)], None)
  }

  /** The fresh CQ, aliased to the SQ ring's address when the feature bit is set. */
  function CqBeforeMapping(p: Params, sq: SqState): CqState {
    if SingleMmap(p.features) then EmptyCq.(ptr := sq.ptr) else EmptyCq
  }

  /** The result of the whole set-up: the kernel's call log afterwards, final queue values and the error returned. */
  datatype Outcome = Outcome(log: seq<MmapCall>, sq: SqState, cq: CqState, err: Option<Error>)

  /** The CQ ring is aliased to the SQ ring: the feature bit is set and the SQ ring's address is not nil. */
  predicate Aliased(p: Params, sqReply: RawReply) {
    SingleMmap(p.features) && sqReply.r1 != 0
  }

  /**
   `mmapIOURing` on fresh queues, against a kernel that answers the k-th
   call with `answer(k)` and has already served the calls in `log0`. SQ ring
   first, then the CQ ring (aliased or mapped), then the SQE array; the
   first error ends the sequence.
   */
  function MapRings(p: Params, fd: int, answer: nat -> RawReply, log0: seq<MmapCall>): (o: Outcome)
    // only calls are appended, at least the SQ ring's and at most three
    ensures |log0| < |o.log| <= |log0| + 3 && o.log[..|log0|] == log0
    ensures o.log[|log0|] == SqRingCall(p, fd)
    // abort on the first failure: the last call served is the only one that failed
    ensures o.err.Some? <==> Failed(answer(|o.log| - 1))
    ensures |o.log| >= |log0| + 2 ==> !Failed(answer(|log0|))
    ensures |o.log| == |log0| + 3 ==> !Failed(answer(|log0| + 1)) && o.log[|log0| + 1] == CqRingCall(p, fd)
    ensures o.err.None? ==> o.log[|o.log| - 1] == SqesCall(p, fd)
    // SQ ring failure: nothing else is attempted and no pointer is set
    ensures Failed(answer(|log0|)) ==>
              && o.log == log0 + [SqRingCall(p, fd)]
              && o.err == Some(Wrapped(SQ_RING_CONTEXT, Errno(answer(|log0|).errno)))
              && o.sq == EmptySq.(size := SqRingSize(p))
              && o.cq == EmptyCq
    // once the SQ ring is mapped its layout is fixed, and cq.size is set
    ensures !Failed(answer(|log0|)) ==>
              && o.sq.ptr == answer(|log0|).r1 && SqWired(o.sq, p) && o.sq.size == SqRingSize(p)
              && o.cq.size == CqRingSize(p)
    // the single-mmap rule: a CQ ring call is issued exactly when the CQ ring is not aliased
    ensures CqRingCall(p, fd) in o.log[|log0|..] <==> !Failed(answer(|log0|)) && !Aliased(p, answer(|log0|))
    ensures !Failed(answer(|log0|)) && Aliased(p, answer(|log0|)) ==>
              && o.log == log0 + [SqRingCall(p, fd), SqesCall(p, fd)]
              && o.cq.ptr == o.sq.ptr && CqWired(o.cq, p)
    // the CQ ring mapped on its own
    ensures !Failed(answer(|log0|)) && !Aliased(p, answer(|log0|)) && Failed(answer(|log0| + 1)) ==>
              && o.log == log0 + [SqRingCall(p, fd), CqRingCall(p, fd)]
              && o.err == Some(Wrapped(CQ_RING_CONTEXT, Errno(answer(|log0| + 1).errno)))
              && o.cq == EmptyCq.(size := CqRingSize(p))
              && o.sq.sqes == NilView
    ensures !Failed(answer(|log0|)) && !Aliased(p, answer(|log0|)) && !Failed(answer(|log0| + 1)) ==>
              && o.log == log0 + [SqRingCall(p, fd), CqRingCall(p, fd), SqesCall(p, fd)]
              && o.cq.ptr == answer(|log0| + 1).r1 && CqWired(o.cq, p)
    // the SQE array, mapped last
    ensures o.log[|o.log| - 1] == SqesCall(p, fd) ==>
              if Failed(answer(|o.log| - 1)) then
                o.err == Some(Wrapped(SQE_ARRAY_CONTEXT, Errno(answer(|o.log| - 1).errno)))
                && o.sq.sqes == NilView
              else
                o.sq.sqes == View(answer(|o.log| - 1).r1, p.sqEntries as nat, p.sqEntries as nat)
  {
    var s1 := MapSqRing(EmptySq, p, fd, answer(|log0|));
    var log1 := log0 + s1.calls;
    if s1.err.Some? then
      Outcome(log1, s1.state, EmptyCq, s1.err)
    else
      var s2 := MapCqRing(CqBeforeMapping(p, s1.state), p, fd, answer(|log1|));
      var log2 := log1 + s2.calls;
      assert log2[|log0|..] == s1.calls + s2.calls;
      if s2.err.Some? then
        Outcome(log2, s1.state, s2.state, s2.err)
      else
        var s3 := MapSqes(s1.state, p, fd, answer(|log2|));
        Outcome(log2 + s3.calls, s3.state, s2.state, s3.err)
  }
}
