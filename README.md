# blockmemmgr: a verified model of the fixed-chunk block allocator

blockmemmgr is a small C allocator for embedded targets. It hands out
fixed-size chunks from a caller-supplied buffer. `_pxMemMgrInit` puts a
pool header at the 8-byte aligned start of the buffer. It then walks the
buffer at a fixed stride and threads a NULL-terminated free list through
per-block headers. `_pvMemMgrAlloc` pops the head of that list and
returns the aligned payload just past the block's header. `_vMemMgrFree`
maps a payload pointer back to its header and pushes it back, LIFO.

Two compile-time options wrap the operations:

- `MEMMGR_CHECK_OVERFLOW`, the guard, gives each header a magic word.
  Init stamps the pool header and the blocks its loop processes
  (src/memmgr.c:141-153). Allocate and free check the stamps and call
  `vMemMgrOverflowHook` when one is missing.
- `MEMMGR_THREAD_SAFE` brackets every allocate and free with
  `vMemMgrLock` and `vMemMgrUnlock`.

A static-pool build runs the same code over one global buffer, through
handle-free macros.

The project has six modules:

- `Alignment` (alignment.dfy) holds the rounding macros and their
  properties.
- `Pool` (pool.dfy) holds the state and one pure step function per
  operation: `InitOp`, `AllocOp` and `FreeOp`.
  - Memory is a map from address to header record `(magic, next)`, and
    NULL is 0.
  - The pool header is a block header, so the head of the free list is
    the `next` field at the pool address.
  - The build options and `sizeof(BlockHeader_t)` form a `Config`.
  - Calls to the lock, unlock and hook functions are recorded as
    `Event`s.
- `Allocator` (allocator.dfy) is the code as it runs. Class `Memory`
  updates its header map in place through `Init`, `Alloc` and `Free`,
  and keeps a ghost log of external calls. Each method is proved to
  leave exactly the state its step function describes. Class
  `StaticPool` is the static-pool build.
- `LayoutLemmas` (layout_lemmas.dfy) says what init leaves in memory.
- `OperationLemmas` (operation_lemmas.dfy) covers allocate and free:
  - the early exits;
  - pop and push on a well-formed free list (`Pool.FreeList`, with
    `Pool.Stamped` for the guard);
  - the round trips and capacity;
  - lock pairing and overrun detection.
- `Findings` (findings.dfy) shows three defects of the init layout, with
  a corrected layout.

With the guard, init stamps only the blocks its loop processes. When
the loop never runs, the first block is handed over unstamped. The loop
processes a block only while the block after it starts strictly below
`buf + size`. "## Findings" below shows what both rules lead to.

## Model

| member | source | states |
|---|---|---|
| Alignment.AlignLower | src/memmgr.c:13 | the result is a multiple of 8, at most `a` and more than `a - 8` |
| Alignment.AlignUpper | src/memmgr.c:14 | the result is a multiple of 8, at least `a` and less than `a + 8` |
| Alignment.NextBlockAddr | src/memmgr.c:15-19 | the next block address is aligned and at least `addr + H + chunk`, past the rounded-up payload end, and within 16 bytes of `addr + H + chunk` |
| Alignment.MaskIsRemainder | src/memmgr.h:22-24 | on 64-bit words, masking with 7 and with its complement equals the remainder and the round-down used by the model |
| Alignment.AlignUpperLeast | src/memmgr.c:14 | rounding up gives the least multiple of 8 not below `a` |
| Alignment.AlignedFixed | src/memmgr.c:13-14 | both roundings leave an aligned address unchanged |
| Alignment.AlignUpperShift | src/memmgr.c:14 | rounding up commutes with adding an aligned base |
| Alignment.AlignLowerShift | src/memmgr.c:13 | rounding down commutes with adding an aligned base |
| Alignment.NextBlockStride | src/memmgr.c:15-19 | from an aligned block, the next block is always the same stride further on |
| Alignment.PayloadRoundTrip | src/memmgr.c:77 | for an aligned block, rounding the payload address minus `H` down recovers the block, as free does with a pointer from allocate |
| Pool.FirstBlock | src/memmgr.c:138 | the first block is the first aligned address at or past the end of the pool header |
| Pool.PayloadOf | src/memmgr.c:77 | the payload handed out is the first aligned address at or past the end of the block's header |
| Pool.BlockOf | src/memmgr.c:97 | the block a pointer maps back to is aligned, and lies less than 8 bytes below the pointer minus the header size |
| Pool.Bracket | src/memmgr.c:46-48 | with the thread-safe option the calls are a lock on the pool, the body's calls, then an unlock on the pool; without it, the body's calls alone |
| Pool.MinSize | src/memmgr.c:134 | the smallest accepted size is aligned and holds at least two headers and one chunk |
| Pool.InitRejects | src/memmgr.c:130-135 | a buffer init accepts is non-NULL, has a non-zero chunk size, and holds two headers and one chunk counted from `buf` |
| Pool.Blocks | src/memmgr.c:146-148 | every block the init loop processes lies between the first block and the buffer end |
| Pool.Thread | src/memmgr.c:149-153 | the last block the loop processes links to the block after it and, with the guard, is stamped |
| Pool.Terminate | src/memmgr.c:157 | the terminated block gets a NULL link and keeps its magic, and no other header changes |
| Pool.InitList | src/memmgr.c:137-158 | the list init hands over is never empty and starts at the first block of the aligned pool |
| Pool.InitOp | src/memmgr.c:122-161 | a rejected buffer leaves memory unchanged; an accepted one gives an aligned pool less than 8 bytes past `buf` |
| Pool.AllocBody | src/memmgr.c:50-78 | the result is NULL or the payload of the current head; a hook call comes only with the guard, on the pool, with a NULL result; no header other than the pool header changes |
| Pool.AllocOp | src/memmgr.c:41-85 | a non-NULL result is the payload of the old head, and the pool header then points at the head's successor; without the guard the overflow hook is never called |
| Pool.FreeGuardFails | src/memmgr.c:100-102 | when free's guard passes, allocate's guard on the same memory passes too |
| Pool.FreeBody | src/memmgr.c:93-114 | either memory is unchanged, or the block, at or above the first block, is pushed as head and linked to the old head; no other header and no magic word changes; a hook call comes only with the guard, on the pointer, with memory unchanged |
| Pool.FreeOp | src/memmgr.c:87-120 | free never changes a magic word, and a hook call on the pointer means the guard is on and memory is unchanged |
| Pool.FreeList | src/memmgr.c:21-27 | no entry of a well-formed free list is NULL or the pool header itself |
| Pool.Stamped | src/memmgr.c:99-106 | when a stamped list's first block is the head, free's guard passes for every block on the list, so it cannot see a double free |
| Allocator.Memory.constructor | src/memmgr.c:21-27 | memory starts with the given header records and an empty call log |
| Allocator.Memory.CallLock | src/memmgr.h:57-59 | a call to `vMemMgrLock` appends `Lock(pool)` to the log |
| Allocator.Memory.CallUnlock | src/memmgr.h:57-60 | a call to `vMemMgrUnlock` appends `Unlock(pool)` to the log |
| Allocator.Memory.CallOverflowHook | src/memmgr.h:44-46 | a call to `vMemMgrOverflowHook` appends `OverflowHook(addr)` to the log |
| Allocator.Memory.Init | src/memmgr.c:122-161 | the new headers and the returned pool are those of `InitOp`; the result is NULL exactly when the argument checks reject the buffer |
| Allocator.Memory.ThreadBlocks | src/memmgr.c:146-154 | the loop links, and with the guard stamps, exactly the blocks `Blocks` lists, and returns the last one it linked |
| Allocator.Memory.Alloc | src/memmgr.c:41-85 | headers, result and logged calls are those of `AllocOp`; a non-NULL result is 8-aligned |
| Allocator.Memory.Free | src/memmgr.c:87-120 | headers and logged calls are those of `FreeOp` |
| Allocator.Memory.Corrupt | test/test_DynamicPool.c:29 | an overrun replaces the header record at one address and nothing else |
| Allocator.StaticPool.constructor | src/memmgr.c:29-31 | the static pool handle starts NULL over a fixed buffer |
| Allocator.StaticPool.Init | src/memmgr.c:35-38 | init over the fixed buffer stores its result in the global handle |
| Allocator.StaticPool.Alloc | src/memmgr.h:66-67 | handle-free allocate is allocate on the global handle |
| Allocator.StaticPool.Free | src/memmgr.h:72-73 | handle-free free is free on the global handle |
| LayoutLemmas.BlocksShape | src/memmgr.c:146-154 | the blocks the loop processes start at the first block, follow one another by stride, strictly increase, each has its successor below the buffer end, and the block after the last one fails the loop test |
| LayoutLemmas.BlocksStride | src/memmgr.c:146-151 | the processed blocks start at the first block and follow by stride, each with its successor below the end |
| LayoutLemmas.BlocksLast | src/memmgr.c:147 | the loop stops because the successor of the last processed block's successor is not below the end |
| LayoutLemmas.BlocksIncreasing | src/memmgr.c:148 | processed block addresses strictly increase, so the list is acyclic and its blocks are distinct |
| LayoutLemmas.ThreadOutside | src/memmgr.c:146-154 | the loop writes no header outside the blocks it processes |
| LayoutLemmas.ThreadInside | src/memmgr.c:149-153 | each processed block gets its successor's address and, with the guard, the magic word; other fields are kept |
| LayoutLemmas.InitRejected | src/memmgr.c:130-135 | init returns NULL exactly when the buffer is NULL, the size or chunk size is 0, or the size is below the rounded-up header plus one block; if so it writes nothing |
| LayoutLemmas.ChunkLargerThanBufferRejected | test/test_DynamicPool.c:48-50 | a chunk size larger than the buffer size is always rejected |
| LayoutLemmas.InitListShape | src/memmgr.c:137-158 | the handed-over list starts at the first aligned block after the pool header, follows by stride and increases; it is the processed blocks, or the first block alone if the loop never ran |
| LayoutLemmas.InitFreeList | src/memmgr.c:137-159 | on success the pool is the aligned buffer start, and its free list is exactly the handed-over list, NULL-terminated |
| LayoutLemmas.ThreadedFreeList | src/memmgr.c:139-158 | linking blocks that follow by stride and terminating the last one gives a well-formed free list from a pool header that points at the first block |
| LayoutLemmas.ThreadedStamps | src/memmgr.c:141-153 | with the guard, the pool header and every linked block carry the magic word |
| LayoutLemmas.TerminatedChain | src/memmgr.c:149-157 | after the loop and the termination, each listed block points at the next, and the last one points at NULL |
| LayoutLemmas.InitStamps | src/memmgr.c:141-153 | with the guard, the pool header and every processed block are stamped; if the loop never ran, the first block keeps its previous magic |
| LayoutLemmas.InitWritesOnlyList | src/memmgr.c:137-158 | init changes no header other than the pool header and the listed blocks |
| LayoutLemmas.InitPayloadsDisjoint | src/memmgr.c:15-19 | each listed block's payload starts past its header and ends before any later block starts |
| LayoutLemmas.StrideDisjoint | src/memmgr.c:15-19 | in blocks that follow by stride, a payload ends before any later block begins |
| OperationLemmas.AllocNullPool | src/memmgr.c:51-52 | allocate from a NULL pool returns NULL and changes nothing |
| OperationLemmas.AllocPoolCorrupt | src/memmgr.c:54-59 | with the guard, a pool header without the magic word: hook on the pool, NULL, nothing changed |
| OperationLemmas.AllocExhausted | src/memmgr.c:61-63 | an empty free list gives NULL, no change and no hook |
| OperationLemmas.AllocBlockCorrupt | src/memmgr.c:65-73 | with the guard, an unstamped popped block: hook on the pool, not the block; NULL; the head has already moved on |
| OperationLemmas.AllocPop | src/memmgr.c:65-77 | allocate on a well-formed list returns the first block's aligned payload just past its header, and leaves the rest of the list well-formed and stamped |
| OperationLemmas.PayloadOffset | src/memmgr.c:77 | the payload of an aligned block is a fixed distance past it |
| OperationLemmas.AllocTwiceDistinct | test/test_DynamicPool.c:65-73 | two allocations with no free between return two different non-NULL pointers |
| OperationLemmas.AllocRepeat | src/memmgr.c:41-85 | `n` allocations in a row return `n` results |
| OperationLemmas.Payloads | src/memmgr.c:77 | the payload list of a block list has the same length, and each entry is the payload of the matching block |
| OperationLemmas.AllocDrain | src/memmgr.c:65-77 | `n` allocations return the first `n` blocks' payloads in order and leave the rest of the list; handed-out headers stay as they were |
| OperationLemmas.AllocCapacity | test/test_DynamicPool.c:92-95 | draining a pool of `k` free blocks gives `k` aligned, non-NULL, pairwise different pointers, then NULL with nothing changed |
| OperationLemmas.FreeNullArgs | src/memmgr.c:94-95 | free with a NULL pool or pointer changes nothing and calls no hook |
| OperationLemmas.FreeGuardRejects | src/memmgr.c:99-106 | with the guard, a missing stamp on the pool, the block or a non-NULL head: hook on the freed pointer, once, nothing changed |
| OperationLemmas.FreeBelowFirstBlock | src/memmgr.c:108-110 | a block below the first block is silently ignored |
| OperationLemmas.FreeLinksAnyBlockAboveFirst | src/memmgr.c:97-113 | any pointer that passes the guard and maps at or above the first block is linked in as head; there is no upper-bound or stride check |
| OperationLemmas.FreePush | src/memmgr.c:112-113 | freeing a block not on the list pushes it at the front, and the list stays well-formed and stamped |
| OperationLemmas.FreeRepeat | src/memmgr.c:112-113 | freeing any sequence of pointers leaves every magic word as it was |
| OperationLemmas.Reversed | src/memmgr.c:112-113 | the reversal has the same length and mirrors the indices |
| OperationLemmas.FreeAllPushes | src/memmgr.c:112-113 | freeing blocks one after another puts them in front of the list in reverse order (LIFO) |
| OperationLemmas.DrainFreeDrain | test/test_DynamicPool.c:111-122 | drain, free everything, and drain again give the same pointers in reverse order, then NULL |
| OperationLemmas.FreeThenAlloc | src/memmgr.c:97-113 | freeing a block's payload and then allocating returns the same pointer and restores the pool header |
| OperationLemmas.AllocThenFree | test/test_DynamicPool.c:64-77 | allocating and then freeing the returned pointer restores every header |
| OperationLemmas.DoubleFreeMakesCycle | src/memmgr.c:108-113 | nothing detects a double free, and freeing a pointer twice makes its block its own successor |
| OperationLemmas.AllocLockPairing | src/memmgr.c:46-48 | every allocate call, early exits included, logs one lock first and one unlock last on its pool, at most one hook between, and no hook without the guard |
| OperationLemmas.FreeLockPairing | src/memmgr.c:89-91 | every free call logs one lock first and one unlock last on its pool, at most one hook between, and no hook without the guard |
| OperationLemmas.OverrunCaughtByAlloc | test/test_DynamicPool.c:21-34 | with the guard, an overrun that wipes the next free block's stamp makes the next allocate return NULL and call the hook exactly once, on the pool |
| OperationLemmas.OverrunCaughtByFree | src/memmgr.c:99-106 | the same overrun makes a free of the overrun payload call the hook exactly once, on that pointer, and change nothing |
| OperationLemmas.BracketOfHooks | src/memmgr.c:116-118 | wrapping at most one hook call in the lock pair gives a well-bracketed call log |
| Findings.MinimumPoolFirstAllocFails | src/memmgr.c:133-158 | with the guard, a fresh minimum-size pool is accepted, but its first allocate calls the hook and returns NULL |
| Findings.ExactFitDropped | src/memmgr.c:147 | a block whose payload ends exactly at the buffer end is not handed over |
| Findings.MisalignedBufferOverrun | src/memmgr.c:133-142 | with the guard off and a misaligned buffer, the first payload handed out ends past the buffer |
| Findings.FirstAllocSucceedsWhenLoopRan | src/memmgr.c:146-158 | as written, once the init loop has processed a block, the first allocate returns the first block's payload and calls no hook |
| Findings.FittingBlocks | src/memmgr.c:146-148 | the corrected walk lists no more chunks than fit in the space from its start to the buffer end |
| Findings.FittingBlocksShape | src/memmgr.c:146-154 | the corrected walk lists blocks that follow by stride, fit, and increase, up to the first one that does not fit |
| Findings.IntendedFits | src/memmgr.c:133-147 | the corrected layout keeps every payload inside the buffer, and the block after its last one would not fit |
| Findings.IntendedInitOp | src/memmgr.c:122-161 | the corrected init succeeds exactly when the arguments are non-zero and at least one block fits; on failure memory is unchanged |
| Findings.IntendedStampsAll | src/memmgr.c:141-158 | the corrected init hands over a well-formed free list of exactly the fitting blocks, all stamped with the guard |
| Findings.IntendedFirstAllocSucceeds | src/memmgr.c:65-77 | after the corrected init, the first allocate returns a payload inside the buffer and calls no hook |
| Findings.IntendedOnExamples | src/memmgr.c:133-158 | the corrected init accepts the minimum pool, lists both blocks of the exact-fit buffer, and rejects the misaligned buffer |

## Left out

- Integer width: addresses are unbounded integers, so `uintptr_t` wrap-around is not modelled. Nor is whether a freed pointer really belongs to the buffer; free keeps exactly its one-sided check.
- Byte-level layout: memory is a map from address to header record. Payload bytes and the `memset`s in the tests are not modelled. Header records that overlap are not modelled either. The records at `b` and `b + 8` are independent in the map, although with a 16-byte header they share 8 bytes. Free accepts such a block, since it has no stride check (`OperationLemmas.FreeLinksAnyBlockAboveFirst`). `Allocator.Memory.Corrupt` stands in for an overrun that rewrites one header.
- Memory nobody has written reads as a zero header. The initial contents are a constructor argument.
- Header layout: `sizeof(BlockHeader_t)` is the parameter `Config.headerSize`. On a 64-bit target it is 8 bytes with the guard off and 16 with it on; the concrete examples use those pairs. A header always has a `magic` field, and it is ignored when the guard is off. `BUILD_ASSERT` and the zero-length payload array (src/memmgr.c:124-126) are not modelled.
- Build options: `MEMMGR_CHECK_OVERFLOW` and `MEMMGR_THREAD_SAFE` are fields of `Config`. The flag normalisation in src/memmgr.h:35-55 is not modelled.
- External callbacks: `vMemMgrLock`, `vMemMgrUnlock` and `vMemMgrOverflowHook` are only logged as events. Their behaviour and real concurrency are not modelled, and the model is single-threaded.
- Static pool: the address and size of the static buffer (`MEMMGR_STATIC_POOL_SIZE`) are parameters of `StaticPool`.
- `pxMemMgrInit`, `pvMemMgrAlloc` and `vMemMgrFree` in the dynamic build (src/memmgr.h:69, 75, 81) pass their arguments straight through. They are `Memory.Init`, `Memory.Alloc` and `Memory.Free` themselves.
- Test harness: the `check.h` suites and `alloca` are not modelled. `test_check_alignment` and `test_check_free` appear only as the properties above (`AllocCapacity`, `DrainFreeDrain`).
- Allocator.Memory.ThreadBlocks: the C loop writes `pxNextFree` and then `xMagic` into the same header. The model builds the header record once with both fields and stores it, which leaves the same state.
- The classes use the layout as written. The corrected layout in `Findings` is a separate definition with its own proofs, and nothing else uses it.

## Findings

| source | as written | input that shows it | evidently intended | confidence | as-written member | corrected member |
|---|---|---|---|---|---|---|
| src/memmgr.c:133-158 | with the guard, when the loop never runs, the first block is handed over as the only free block but is never stamped | guard on, 16-byte header, empty buffer at 4096 of size 40, chunk 8: init accepts, and the first allocate calls the hook and returns NULL | every block handed over is stamped, and the minimum pool serves one allocation | high; not executed | Findings.MinimumPoolFirstAllocFails | Findings.IntendedStampsAll |
| src/memmgr.c:147 | the loop keeps a block only when the block after it starts strictly below the end, so a block that fits exactly is dropped | guard on, 16-byte header, buffer at 4096 of size 64, chunk 8: the list is [4112], although block 4136's payload ends exactly at 4160 | every block whose payload fits is handed over | medium; not executed | Findings.ExactFitDropped | Findings.IntendedFits |
| src/memmgr.c:133-142 | the minimum-size check measures from `buf`, not from the aligned pool header, and the first block is listed whether or not it fits | guard off, 8-byte header (64-bit target), buffer at 4097 of size 24, chunk 8: init accepts, and allocate returns 4120, whose 8 bytes end past 4121 | init rejects a buffer in which not even the first payload fits | high; not executed | Findings.MisalignedBufferOverrun | Findings.IntendedFits |
