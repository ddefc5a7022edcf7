/**
 The boundary to the operating system: the `mmap` system call on an io_uring
 descriptor, and the Go wrapper `mmap` that turns its raw reply into an
 `(address, error)` pair.

 The kernel is an oracle. A `Kernel` object answers the k-th mmap call it
 serves with `answer(k)`, an arbitrary function fixed when the object is
 made, and records every call it serves in `log`. Every statement about the
 set-up sequence is proved for all answer functions, so it holds whatever
 the kernel does.
 */
module Syscall {
  import opened Words

  datatype Option<+T> = None | Some(value: T)

  /**
   Mapping-offset tokens of the io_uring ABI (Linux `include/uapi/linux/io_uring.h`):
   the `offset` argument of mmap names the region, it is not a byte offset.
   */
  const IORING_OFF_SQ_RING: uint64 := 0
  const IORING_OFF_CQ_RING: uint64 := 0x8000000
  const IORING_OFF_SQES: uint64 := 0x10000000

  /** Feature bit reported by io_uring_setup: SQ and CQ rings share one mapping. */
  const IORING_FEAT_SINGLE_MMAP: uint32 := 1

  /**
   The errors of the set-up sequence: a raw OS error number, or an error
   wrapped with a context string (Go's `fmt.Errorf("<context>: %w", err)`).
   */
  datatype Error = Errno(code: uintptr) | Wrapped(context: string, cause: Error)

  /** The arguments of one mmap request that vary: descriptor, length and region token. */
  datatype MmapCall = MmapCall(fd: int, length: uint32, offset: uint64)

  /** What the raw system call hands back: the result register and the errno register. */
  datatype RawReply = RawReply(r1: uintptr, errno: uintptr)

  predicate Failed(reply: RawReply) {
    reply.errno != 0
  }

  class Kernel {
    const answer: nat -> RawReply
    var log: seq<MmapCall>

    constructor (answer: nat -> RawReply)
      ensures this.answer == answer && log == []
    {
      this.answer := answer;
      log := [];
    }

    /**
     The system call itself: `Syscall6(SYS_MMAP, 0, length, PROT_READ|PROT_WRITE,
     MAP_SHARED|MAP_POPULATE, fd, offset)`. The call is logged and answered
     by the oracle.
     */
    method SysMmap(call: MmapCall) returns (reply: RawReply)
      modifies this
      ensures log == old(log) + [call]
      ensures reply == answer(|old(log)|)
    {
      reply := answer(|log|);
      log := log + [call];
    }
  }

  /**
   The Go wrapper's decision on a raw reply: a non-zero errno yields the
   null address and that errno as the error; otherwise the kernel's address
   with a nil error.
   */
  function MmapReturn(reply: RawReply): (r: (uintptr, Option<Error>))
    ensures r.1.Some? <==> Failed(reply)
    ensures r.1.Some? ==> r.0 == 0 && r.1.value == Errno(reply.errno)
    ensures r.1.None? ==> r.0 == reply.r1
  {
    if reply.errno != 0 then (0, Some(Errno(reply.errno))) else (reply.r1, None)
  }

  /** Go's `mmap(fd, length, offset)`: one logged system call and the wrapper's decision. */
  method Mmap(kernel: Kernel, fd: int, length: uint32, offset: uint64) returns (ptr: uintptr, err: Option<Error>)
    modifies kernel
    ensures kernel.log == old(kernel.log) + [MmapCall(fd, length, offset)]
    ensures (ptr, err) == MmapReturn(kernel.answer(|old(kernel.log)|))
  {
    var reply := kernel.SysMmap(MmapCall(fd, length, offset));
    ptr, err := MmapReturn(reply).0, MmapReturn(reply).1;
  }
}
