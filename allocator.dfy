/**
 * The allocator as the C code runs it: a memory object whose header
 * records are updated in place by init, allocate and free, and a log of
 * the calls made to the external lock, unlock and overflow hooks.
 * Each method is proved to leave exactly the state that the matching
 * step function of module Pool describes.
 */
module Allocator {
  import opened Alignment
  import opened Pool

  class Memory {
    /** The compile-time options this build of the allocator was made with. */
    const cfg: Config
    /** Every header record present in memory, by address. */
    var headers: Headers
    /** Calls to vMemMgrLock, vMemMgrUnlock and vMemMgrOverflowHook, oldest first. */
    ghost var events: seq<Event>

    constructor (cfg: Config, contents: Headers)
      ensures this.cfg == cfg && headers == contents && events == []
    {
      this.cfg := cfg;
      headers := contents;
      events := [];
    }

    /** vMemMgrLock. */
    ghost method CallLock(pool: int)
      modifies this`events
      ensures events == old(events) + [Lock(pool)]
    {
      events := events + [Lock(pool)];
    }

    /** vMemMgrUnlock. */
    ghost method CallUnlock(pool: int)
      modifies this`events
      ensures events == old(events) + [Unlock(pool)]
    {
      events := events + [Unlock(pool)];
    }

    /** vMemMgrOverflowHook. */
    ghost method CallOverflowHook(addr: int)
      modifies this`events
      ensures events == old(events) + [OverflowHook(addr)]
    {
      events := events + [OverflowHook(addr)];
    }

    /** _pxMemMgrInit: lay a pool header and a free list over the buffer [buf, buf + size). */
    method Init(buf: nat, size: nat, chunk: nat) returns (pool: int)
      modifies this`headers
      ensures headers == InitOp(cfg, old(headers), buf, size, chunk).mem
      ensures pool == InitOp(cfg, old(headers), buf, size, chunk).pool
      ensures pool == NULL <==> InitRejects(cfg, buf, size, chunk)
    {
      pool := NULL;
      if buf == NULL || size == 0 || chunk == 0 {
        return;
      }
      // room for the pool header and one aligned block
      if size < AlignUpper(cfg.headerSize + NextBlockAddr(0, chunk, cfg.headerSize)) {
        assert InitRejects(cfg, buf, size, chunk);
        return;
      }
      ghost var m0 := headers;
      var header := AlignUpper(buf);
      var ptr := AlignUpper(header + cfg.headerSize);
      headers := headers[header := At(headers, header).(next := ptr)];
      if cfg.guard {
        headers := headers[header := At(headers, header).(magic := MAGIC)];
      }
      assert ptr == FirstBlock(cfg, header);
      assert headers == m0[header := Header(if cfg.guard then MAGIC else At(m0, header).magic, ptr)];
      ghost var m1 := headers;
      var prev := ThreadBlocks(ptr, buf + size, chunk);
      ghost var m2 := headers;
      assert m2 == Thread(cfg, m1, Blocks(cfg, ptr, buf + size, chunk), chunk);
      // terminate the last block
      headers := headers[prev := At(headers, prev).(next := NULL)];
      assert headers == Terminate(m2, prev);
      pool := header;
      InitOpAccepts(cfg, m0, buf, size, chunk, m2, prev);
    }

    /**
     * The loop of _pxMemMgrInit: starting at `ptr`, link each block to the
     * next one (and stamp it, with the guard) while the next one starts
     * below `end`; returns the last block linked, or `ptr` if none was.
     */
    method ThreadBlocks(ptr: int, end: int, chunk: nat) returns (prev: int)
      modifies this`headers
      ensures headers == Thread(cfg, old(headers), Blocks(cfg, ptr, end, chunk), chunk)
      ensures prev == LastProcessed(Blocks(cfg, ptr, end, chunk), ptr)
    {
      ghost var m1 := headers;
      ghost var done: seq<int> := [];
      var cur := ptr;
      prev := ptr;
      while NextBlockAddr(cur, chunk, cfg.headerSize) < end
        invariant cur == if done == [] then ptr else Next(cfg, done[|done| - 1], chunk)
        invariant prev == LastProcessed(done, ptr)
        invariant done + Blocks(cfg, cur, end, chunk) == Blocks(cfg, ptr, end, chunk)
        invariant headers == Thread(cfg, m1, done, chunk)
        decreases end - cur
      {
        ThreadSnoc(cfg, m1, done, cur, chunk);
        BlocksStep(cfg, done, cur, end, chunk);
        var block := At(headers, cur).(next := NextBlockAddr(cur, chunk, cfg.headerSize));
        if cfg.guard {
          block := block.(magic := MAGIC);
        }
        headers := headers[cur := block];
        prev := cur;
        done := done + [cur];
        cur := At(headers, cur).next;
      }
      assert done == Blocks(cfg, ptr, end, chunk);
    }

    /** InitOp when the buffer is accepted, in the terms of the loop above. */
    static lemma InitOpAccepts(cfg: Config, m: Headers, buf: nat, size: nat, chunk: nat, m2: Headers, prev: int)
      requires !InitRejects(cfg, buf, size, chunk)
      requires m2 == Thread(cfg, m[AlignUpper(buf) := Header(if cfg.guard then MAGIC else At(m, AlignUpper(buf)).magic, FirstBlock(cfg, AlignUpper(buf)))],
                            Blocks(cfg, FirstBlock(cfg, AlignUpper(buf)), buf + size, chunk), chunk)
      requires prev == LastProcessed(Blocks(cfg, FirstBlock(cfg, AlignUpper(buf)), buf + size, chunk), FirstBlock(cfg, AlignUpper(buf)))
      ensures InitOp(cfg, m, buf, size, chunk) == InitOutcome(Terminate(m2, prev), AlignUpper(buf))
    {
    }

    static lemma BlocksStep(cfg: Config, done: seq<int>, b: int, end: int, chunk: nat)
      requires Next(cfg, b, chunk) < end
      ensures done + Blocks(cfg, b, end, chunk) == (done + [b]) + Blocks(cfg, Next(cfg, b, chunk), end, chunk)
    {
    }

    /** One more round of the init loop threads one more block. */
    static lemma ThreadSnoc(cfg: Config, m: Headers, done: seq<int>, b: int, chunk: nat)
      ensures Thread(cfg, m, done + [b], chunk)
           == Thread(cfg, m, done, chunk)[b := Header(if cfg.guard then MAGIC else At(Thread(cfg, m, done, chunk), b).magic, Next(cfg, b, chunk))]
    {
      assert (done + [b])[..|done|] == done;
    }

    /** _pvMemMgrAlloc: pop the head of the free list and return its payload, or NULL. */
    method Alloc(pool: int) returns (r: int)
      modifies this
      ensures headers == AllocOp(cfg, old(headers), pool).mem
      ensures r == AllocOp(cfg, old(headers), pool).result
      ensures events == old(events) + AllocOp(cfg, old(headers), pool).events
      ensures r != NULL ==> Aligned(r)
    {
      r := NULL;
      if cfg.threadSafe {
        CallLock(pool);
      }
      label body: {
        if pool == NULL {
          break body;
        }
        if cfg.guard && At(headers, pool).magic != MAGIC {
          CallOverflowHook(pool);
          break body;
        }
        // no free memory
        if At(headers, pool).next == NULL {
          break body;
        }
        var ptr := At(headers, pool).next;
        headers := headers[pool := At(headers, pool).(next := At(headers, ptr).next)];
        if cfg.guard && At(headers, ptr).magic != MAGIC {
          CallOverflowHook(pool);
          break body;
        }
        r := AlignUpper(ptr + cfg.headerSize);
      }
      if cfg.threadSafe {
        CallUnlock(pool);
      }
    }

    /** _vMemMgrFree: push the block of payload `p` back on the free list, unless a check rejects it. */
    method Free(pool: int, p: int)
      modifies this
      ensures headers == FreeOp(cfg, old(headers), pool, p).mem
      ensures events == old(events) + FreeOp(cfg, old(headers), pool, p).events
    {
      if cfg.threadSafe {
        CallLock(pool);
      }
      label body: {
        if pool == NULL || p == NULL {
          break body;
        }
        var ptr := AlignLower(p - cfg.headerSize);
        if cfg.guard
           && (At(headers, pool).magic != MAGIC
               || At(headers, ptr).magic != MAGIC
               || (At(headers, pool).next != NULL && At(headers, At(headers, pool).next).magic != MAGIC))
        {
          CallOverflowHook(p);
          break body;
        }
        // pointer is out of range
        if ptr < AlignUpper(pool + cfg.headerSize) {
          break body;
        }
        headers := headers[ptr := At(headers, ptr).(next := At(headers, pool).next)];
        headers := headers[pool := At(headers, pool).(next := ptr)];
      }
      if cfg.threadSafe {
        CallUnlock(pool);
      }
    }

    /** A write past the end of a payload that overwrites the header at `a` (an overrun). */
    method Corrupt(a: int, h: Header)
      modifies this`headers
      ensures headers == old(headers)[a := h]
    {
      headers := headers[a := h];
    }
  }

  /**
   * The static-pool build (MEMMGR_USE_STATIC_POOL): one global pool over a
   * fixed buffer of MEMMGR_STATIC_POOL_SIZE bytes, with handle-free
   * allocate and free that pass the global handle on.
   */
  class StaticPool {
    const memory: Memory
    /** Address and size of puMemMgrMemoryPool. */
    const buf: nat
    const size: nat
    /** pxMemMgrStaticMemPool; NULL until initialised, like every zero-initialised global. */
    var pool: int

    constructor (memory: Memory, buf: nat, size: nat)
      ensures this.memory == memory && this.buf == buf && this.size == size && pool == NULL
    {
      this.memory := memory;
      this.buf := buf;
      this.size := size;
      pool := NULL;
    }

    /** vMemMgrStaticPoolInit. */
    method Init(chunk: nat)
      modifies this`pool, memory`headers
      ensures memory.headers == InitOp(memory.cfg, old(memory.headers), buf, size, chunk).mem
      ensures pool == InitOp(memory.cfg, old(memory.headers), buf, size, chunk).pool
    {
      pool := memory.Init(buf, size, chunk);
    }

    /** pvMemMgrAlloc() in the static-pool build. */
    method Alloc() returns (r: int)
      modifies memory
      ensures memory.headers == AllocOp(memory.cfg, old(memory.headers), pool).mem
      ensures r == AllocOp(memory.cfg, old(memory.headers), pool).result
      ensures memory.events == old(memory.events) + AllocOp(memory.cfg, old(memory.headers), pool).events
    {
      r := memory.Alloc(pool);
    }

    /** vMemMgrFree(p) in the static-pool build. */
    method Free(p: int)
      modifies memory
      ensures memory.headers == FreeOp(memory.cfg, old(memory.headers), pool, p).mem
      ensures memory.events == old(memory.events) + FreeOp(memory.cfg, old(memory.headers), pool, p).events
    {
      memory.Free(pool, p);
    }
  }
}
