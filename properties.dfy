/**
 Properties of the set-up sequence that relate several runs of it, or that
 follow from its layout: what the outcome depends on, how the single-mmap
 feature changes the calls, and where the derived addresses lie.
 */
module Properties {
  import opened Words
  import opened Syscall
  import opened Layout

  /**
   The outcome depends on nothing but the answers to the calls it issues:
   two kernels that agree on those answers lead to the same queues, error
   and log.
   */
  lemma {:induction false} OnlyServedAnswersMatter(p: Params, fd: int, a1: nat -> RawReply, a2: nat -> RawReply, log0: seq<MmapCall>)
    requires forall k :: |log0| <= k < |MapRings(p, fd, a1, log0).log| ==> a1(k) == a2(k)
    ensures MapRings(p, fd, a1, log0) == MapRings(p, fd, a2, log0)
  {
    var o := MapRings(p, fd, a1, log0);
    assert a1(|log0|) == a2(|log0|);
    if !Failed(a1(|log0|)) {
      assert a1(|log0| + 1) == a2(|log0| + 1);
      if |o.log| == |log0| + 3 {
        assert a1(|log0| + 2) == a2(|log0| + 2);
      }
    }
  }

  /**
   The alias test is on the address, not on the feature bit: with
   IORING_FEAT_SINGLE_MMAP set, an SQ ring mapped at address 0 without an
   error still leads to a separate CQ ring call.
   */
  lemma NilSqAddressDefeatsAliasing(p: Params, fd: int, answer: nat -> RawReply, log0: seq<MmapCall>)
    requires SingleMmap(p.features)
    requires answer(|log0|) == RawReply(0, 0)
    ensures var o := MapRings(p, fd, answer, log0);
            |o.log| >= |log0| + 2 && o.log[|log0| + 1] == CqRingCall(p, fd)
  {
  }

  /** Both behaviours of the alias test occur with the feature bit set: each is reached by some kernel. */
  lemma {:induction false} SingleMmapBothWays(p: Params, fd: int, log0: seq<MmapCall>)
    requires SingleMmap(p.features)
    ensures exists answer :: |MapRings(p, fd, answer, log0).log| == |log0| + 2
                             && MapRings(p, fd, answer, log0).err.None?
    ensures exists answer :: MapRings(p, fd, answer, log0).log == log0 + [SqRingCall(p, fd), CqRingCall(p, fd), SqesCall(p, fd)]
  {
    var aliasing: nat -> RawReply := k => RawReply(0x1000, 0);
    var nilFirst: nat -> RawReply := k => if k == |log0| then RawReply(0, 0) else RawReply(0x1000, 0);
    assert |MapRings(p, fd, aliasing, log0).log| == |log0| + 2;
    assert MapRings(p, fd, nilFirst, log0).log == log0 + [SqRingCall(p, fd), CqRingCall(p, fd), SqesCall(p, fd)];
  }

  /**
   With the same kernel answers, setting IORING_FEAT_SINGLE_MMAP saves
   exactly the CQ ring call when the SQ ring lands at a non-nil address and
   every call succeeds.
   */
  lemma SingleMmapSavesTheCqCall(p: Params, fd: int, answer: nat -> RawReply, log0: seq<MmapCall>)
    requires SingleMmap(p.features)
    requires !Failed(answer(|log0|)) && answer(|log0|).r1 != 0
    requires !Failed(answer(|log0| + 1))
    ensures var single := MapRings(p, fd, answer, log0);
            var split := MapRings(p.(features := 0), fd, answer, log0);
            && single.log == log0 + [SqRingCall(p, fd), SqesCall(p, fd)]
            && split.log == log0 + [SqRingCall(p, fd), CqRingCall(p, fd), SqesCall(p, fd)]
            && single.cq.ptr == single.sq.ptr == split.sq.ptr
  {
  }

  /** `sizeof(struct io_uring_cqe)`: a completion record is 16 bytes. */
  const CQE_SIZE: int := 16

  /**
   The CQ ring size counts 4 bytes per completion entry, so once the CQ ring
   is laid out (mapped or aliased) with at least one entry and nothing wraps,
   the `cqes` view of CQEntries 16-byte completion records reaches past the
   `size` bytes recorded for the ring.
   */
  lemma CompletionViewExceedsCqRingSize(cq: CqState, p: Params, fd: int, reply: RawReply)
    requires MapCqRing(cq, p, fd, reply).err.None?
    requires p.cqEntries > 0
    requires p.cqOff.cqes as int + p.cqEntries as int * CQE_SIZE < TWO32
    requires MapCqRing(cq, p, fd, reply).state.ptr as int + p.cqOff.cqes as int < TWO64
    ensures var s := MapCqRing(cq, p, fd, reply).state;
            && s.size as int == p.cqOff.cqes as int + 4 * p.cqEntries as int
            && s.cqes.data as int + s.cqes.len * CQE_SIZE > s.ptr as int + s.size as int
  {
  }

  /**
   When the CQ ring is aliased, the only ring mapping is the SQ ring's
   `SqRingSize(p)` bytes, yet `cq.size` is `CqRingSize(p)`: some parameters
   make the recorded CQ size exceed the mapping it lies in.
   */
  lemma {:induction false} AliasedCqCanExceedSqMapping(fd: int, log0: seq<MmapCall>)
    ensures exists p: Params, a: nat -> RawReply ::
              && Aliased(p, a(|log0|))
              && !Failed(a(|log0|)) && MapRings(p, fd, a, log0).err.None?
              && MapRings(p, fd, a, log0).cq.ptr == MapRings(p, fd, a, log0).sq.ptr
              && MapRings(p, fd, a, log0).cq.size > MapRings(p, fd, a, log0).sq.size
  {
    var p := Params(1, 1, IORING_FEAT_SINGLE_MMAP,
                    SqRingOffsets(0, 0, 0, 0, 0, 0, 0),
                    CqRingOffsets(0, 0, 0, 0, 0, 64, 0));
    var a: nat -> RawReply := k => RawReply(0x1000, 0);
    assert SqRingSize(p) == 4 && CqRingSize(p) == 68;
    assert Aliased(p, a(|log0|)) && !Failed(a(|log0|));
    assert MapRings(p, fd, a, log0).err.None?;
  }

  /** A 4-byte word at offset `off` fits in a region of `size` bytes. */
  predicate WordFits(off: uint32, size: uint32) {
    off as int + 4 <= size as int
  }

  /** The 4-byte word at address `a` lies within the region [base, base + size). */
  predicate WordInside(a: uintptr, base: uintptr, size: uint32) {
    base <= a && a as int + 4 <= base as int + size as int
  }

  /**
   When the kernel's offsets put every SQ control word inside the ring and
   the ring does not reach the top of the address space, each control-word
   pointer lies within [ptr, ptr + size) and the index array ends exactly
   where the ring does.
   */
  lemma SqLayoutInsideRing(sq: SqState, p: Params)
    requires SqWired(sq, p) && sq.size == SqRingSize(p)
    requires p.sqOff.indexArray as int + 4 * p.sqEntries as int < TWO32
    requires sq.ptr as int + sq.size as int < TWO64
    requires WordFits(p.sqOff.head, sq.size) && WordFits(p.sqOff.tail, sq.size)
    requires WordFits(p.sqOff.ringMask, sq.size) && WordFits(p.sqOff.ringEntries, sq.size)
    requires WordFits(p.sqOff.flags, sq.size) && WordFits(p.sqOff.dropped, sq.size)
    ensures WordInside(sq.head, sq.ptr, sq.size) && WordInside(sq.tail, sq.ptr, sq.size)
    ensures WordInside(sq.mask, sq.ptr, sq.size) && WordInside(sq.entries, sq.ptr, sq.size)
    ensures WordInside(sq.flags, sq.ptr, sq.size) && WordInside(sq.dropped, sq.ptr, sq.size)
    ensures sq.ptr <= sq.indexArray.data
    ensures sq.indexArray.data as int + 4 * sq.indexArray.len == sq.ptr as int + sq.size as int
  {
  }
}
