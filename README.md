# io_uring ring mapping (mmap.go) in Dafny

This project models how iouring-go sets up the shared io_uring memory regions
after `io_uring_setup` has returned the ring parameters. `mmapIOURing`
allocates the submission queue (SQ) and completion queue (CQ) structures.
It then maps three regions through `mmap`:

1. the SQ ring;
2. the CQ ring, unless the kernel reported `IORING_FEAT_SINGLE_MMAP` and
   the SQ ring's address is non-nil, in which case the CQ is pointed at the
   SQ ring's address;
3. the submission-entry (SQE) array.

It stops at the first error. Each helper computes the region's byte size in
`uint32` arithmetic. It derives every control-word address as base plus
offset in `uintptr` arithmetic, and it fixes the (data, len, cap) of the
slices laid over the regions.

Files:

- `words.dfy` (module `Words`): Go's `uint32`, `uint64` and `uintptr` (64
  bits). It also has the wrapping `+` and `*` used by the size and address
  formulas.
- `syscall.dfy` (module `Syscall`): the kernel as an oracle. `Kernel` is a
  class whose `k`-th mmap call is answered with `answer(k)`, an arbitrary
  function. It records every call in `log`. `Mmap` models the `mmap`
  wrapper's success/error return shape.
- `layout.dfy` (module `Layout`): the parameters, the values of the two
  queue structures, and the size and address formulas. It has one pure
  specification function per Go function: `MapSqRing`, `MapCqRing`,
  `MapSqes` and the orchestrator `MapRings`.
- `rings.dfy` (module `Rings`): the imperative model. It has the classes
  `SubmissionQueue`, `CompletionQueue` and `IOURing`. The methods
  `MmapIOURing`, `MmapSQ`, `MmapCQ` and `MmapSQEs` assign the fields one at
  a time and return early on error, as the Go code does. Each is proved to
  produce exactly the call log, queue state and error that its
  specification function gives.
- `properties.dfy` (module `Properties`): lemmas relating several runs, and
  consequences of the layout.

Pointers are integer addresses and 0 is nil. Go slices are `View(data, len,
cap)`. Errors are `Errno(code)`, possibly wrapped with a context string
(`fmt.Errorf("<context>: %w", err)`).

The kernel lays out `CQEntries` 16-byte completion records
(`struct io_uring_cqe`) from `cq_off.cqes`, but `mmapCQ` multiplies
`CQEntries` by `uint32Size` (4), and the model follows the code. The lemma
`Properties.CompletionViewExceedsCqRingSize` states the consequence. When
the CQ is aliased, the only ring mapping is the SQ ring's `SqRingSize`
bytes, while `cq.size` still records `CqRingSize`, which can be larger
(`Properties.AliasedCqCanExceedSqMapping`).

The code also does not alias on the feature bit alone: `mmapCQ` maps the CQ
ring whenever `cq.ptr == 0`. So with the bit set, an SQ ring mapped at
address 0 still leads to a separate CQ ring mapping. The model keeps this
(`Properties.NilSqAddressDefeatsAliasing`).

## Model

| member | source | states |
|---|---|---|
| Words.Add32 | mmap.go:45 | uint32 `+` is the sum modulo 2^32; it is the plain sum when that fits, and below both operands when it does not |
| Words.Mul32 | mmap.go:45 | uint32 `*` is the exact product whenever the product fits in 32 bits |
| Words.PtrAdd | mmap.go:51-56 | `ptr + uintptr(off)` is the sum modulo 2^64; without wrap it lies exactly `off` above `ptr`, and on wrap it lies below `ptr` |
| Syscall.Kernel.constructor | mmap.go:116-124 | a fresh kernel oracle has served no calls and answers with the given function |
| Syscall.Kernel.SysMmap | mmap.go:116-124 | the raw mmap syscall appends exactly this call to the log and returns the answer for its position in the log |
| Syscall.MmapReturn | mmap.go:125-128 | the wrapper reports an error exactly when errno is non-zero; it then returns address 0 and `Errno(errno)`, and otherwise the kernel's address with no error |
| Syscall.Mmap | mmap.go:115-129 | `mmap` issues exactly one call `(fd, length, offset)` and returns the wrapper's interpretation of that call's answer |
| Layout.SqRingSize | mmap.go:45 | the SQ ring size is `(SQOffset.Array + SQEntries*4) mod 2^32` |
| Layout.CqRingSize | mmap.go:72 | the CQ ring size is `(CQOffset.Cqes + CQEntries*4) mod 2^32`, counting 4 bytes per completion entry |
| Layout.SqesSize | mmap.go:100 | the SQE array size is `(SQEntries*sqeSize) mod 2^32` |
| Layout.MapSqRing | mmap.go:41-66 | `mmapSQ` issues exactly the SQ ring call with that size and token `IORING_OFF_SQ_RING`, and sets `size` in every case; on failure it returns the error wrapped as "mmap sq ring", `ptr` is 0 and nothing else changes; on success `ptr` is the kernel's address, every control word is at `ptr + offset`, and the index array has length and capacity `SQEntries` |
| Layout.MapCqRing | mmap.go:68-95 | `mmapCQ` always sets `size`; with a non-nil `ptr` it issues no call, keeps `ptr` and lays the ring out from it; with a nil `ptr` it issues exactly the CQ ring call with token `IORING_OFF_CQ_RING`, on failure returns the error wrapped as "mmap cq ring" and changes nothing else, and on success lays the ring out from the kernel's address, with `cqes` of length and capacity `CQEntries` |
| Layout.MapSqes | mmap.go:97-113 | `mmapSQEs` issues exactly the SQE array call with token `IORING_OFF_SQES`; on failure it returns the error wrapped as "mmap sqe array" and leaves the queue unchanged; on success `sqes` is the view (address, SQEntries, SQEntries) and nothing else changes |
| Layout.MapRings | mmap.go:20-39 | the calls are appended in the order SQ ring, CQ ring, SQE array, one to three of them; the error is set exactly when the last call served failed; an SQ failure ends the sequence with only `sq.size` set; a CQ ring call is issued exactly when the SQ map succeeded and the CQ is not aliased (feature bit set and non-nil SQ address); when aliased, `cq.ptr == sq.ptr`; a CQ failure ends the sequence before the SQE call; after each successful map the layout is base + offset |
| Rings.SubmissionQueue.constructor | mmap.go:21 | `new(SubmissionQueue)` has every field zero or nil |
| Rings.CompletionQueue.constructor | mmap.go:22 | `new(CompletionQueue)` has every field zero or nil |
| Rings.MmapIOURing | mmap.go:20-39 | allocates fresh queues and leaves exactly the kernel log, queue fields and error that `MapRings` gives for the kernel's answers and previous log |
| Rings.MmapSQ | mmap.go:41-66 | leaves exactly the kernel log, SQ fields and error that `MapSqRing` gives for the old SQ value and the next answer |
| Rings.MmapCQ | mmap.go:68-95 | leaves exactly the kernel log, CQ fields and error that `MapCqRing` gives for the old CQ value (including an aliased `ptr`) and the next answer |
| Rings.MmapSQEs | mmap.go:97-113 | leaves exactly the kernel log, SQ fields and error that `MapSqes` gives for the old SQ value and the next answer |
| Properties.OnlyServedAnswersMatter | mmap.go:20-39 | two kernels that give the same answers to the calls the set-up actually issues lead to the same log, queues and error |
| Properties.NilSqAddressDefeatsAliasing | mmap.go:73 | with the feature bit set, an SQ ring mapped without error at address 0 is still followed by a CQ ring call, because the alias test is on `cq.ptr` |
| Properties.SingleMmapBothWays | mmap.go:28-30 | with the feature bit set, some kernel lets the set-up finish with only two calls, and some kernel makes it issue all three |
| Properties.SingleMmapSavesTheCqCall | mmap.go:28-33 | with the same successful answers, setting the feature bit saves exactly the CQ ring call and puts the CQ at the SQ ring's address |
| Properties.CompletionViewExceedsCqRingSize | mmap.go:72-91 | once `mmapCQ` has laid out the CQ with at least one entry and nothing wraps, `size` is `cqes + 4*CQEntries`, and the `cqes` view of 16-byte completion records reaches past `ptr + size` |
| Properties.AliasedCqCanExceedSqMapping | mmap.go:28-30 | some parameters with the feature bit set lead to an aliased CQ whose recorded `size` exceeds the SQ ring mapping it lies in |
| Properties.SqLayoutInsideRing | mmap.go:45-62 | when the offsets leave room for each control word and nothing wraps, every SQ control-word pointer lies inside `[ptr, ptr + size)` and the index array ends exactly at `ptr + size` |

## Left out

- The `Syscall6(SYS_MMAP, …)` call itself is not modelled. That includes its
  nil address hint, its `PROT_READ|PROT_WRITE` and `MAP_SHARED|MAP_POPULATE`
  flags, and its second result. It is an OS call; the kernel is an oracle
  that answers each call with an arbitrary (address, errno) pair, and every
  result is proved for all such answers.
- `unsafe.Pointer`, `reflect.SliceHeader` and `runtime.KeepAlive` are Go
  memory-representation plumbing. Pointers are integer addresses, and slices
  are (data, len, cap) values. No memory behind them is modelled.
- `sqeSize` is `unsafe.Sizeof` of a type that is not part of this model. It
  is an unspecified positive constant.
- The head/tail counters, masks, and atomic acquire/release ordering are not
  modelled. This code only stores pointers to those words; it never reads or
  writes them.
- Unmapping after a partial failure is not modelled, because this code does
  not do it.
- The text of the wrapped errors is kept only as a context string over the
  errno; Go's rendering of errno as a message is not modelled.
- `uintptr` is taken to be 64 bits wide, as on the 64-bit Linux targets.
- Go's `int(params.SQEntries)` conversion for slice lengths is exact here,
  since a 64-bit `int` holds every `uint32`.
