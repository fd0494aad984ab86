/**
 * What _pxMemMgrInit leaves in memory: the rejected inputs, the shape of
 * the block list it threads, the free list it hands over, which headers it
 * stamps with the magic word and which it leaves alone.
 */
module LayoutLemmas {
  import opened Alignment
  import opened Pool

  /** The loop's blocks start at `b`, follow one another by Next, fit below `end`, and increase. */
  lemma BlocksShape(cfg: Config, b: int, end: int, chunk: nat)
    ensures var s := Blocks(cfg, b, end, chunk);
      (s == [] <==> Next(cfg, b, chunk) >= end)
      && (s != [] ==> s[0] == b && Next(cfg, Next(cfg, s[|s| - 1], chunk), chunk) >= end)
      && (forall i :: 0 <= i < |s| ==> b <= s[i] && Next(cfg, s[i], chunk) < end)
      && (forall i :: 0 <= i < |s| - 1 ==> s[i + 1] == Next(cfg, s[i], chunk))
      && (forall i, j :: 0 <= i < j < |s| ==> s[i] < s[j])
  {
    BlocksStride(cfg, b, end, chunk);
    BlocksLast(cfg, b, end, chunk);
    BlocksIncreasing(cfg, b, end, chunk);
  }

  lemma {:induction false} BlocksStride(cfg: Config, b: int, end: int, chunk: nat)
    ensures var s := Blocks(cfg, b, end, chunk);
      (s == [] <==> Next(cfg, b, chunk) >= end)
      && (s != [] ==> s[0] == b)
      && (forall i :: 0 <= i < |s| ==> b <= s[i] && Next(cfg, s[i], chunk) < end)
      && (forall i :: 0 <= i < |s| - 1 ==> s[i + 1] == Next(cfg, s[i], chunk))
    decreases end - b
  {
    var n := Next(cfg, b, chunk);
    if n < end {
      BlocksStride(cfg, n, end, chunk);
      var s := Blocks(cfg, b, end, chunk);
      var t := Blocks(cfg, n, end, chunk);
      assert s == [b] + t;
      forall i | 0 < i < |s|
        ensures s[i] == t[i - 1]
      {
      }
    }
  }

  lemma {:induction false} BlocksLast(cfg: Config, b: int, end: int, chunk: nat)
    ensures var s := Blocks(cfg, b, end, chunk);
      s != [] ==> Next(cfg, Next(cfg, s[|s| - 1], chunk), chunk) >= end
    decreases end - b
  {
    var n := Next(cfg, b, chunk);
    if n < end {
      BlocksLast(cfg, n, end, chunk);
      var s := Blocks(cfg, b, end, chunk);
      var t := Blocks(cfg, n, end, chunk);
      assert s == [b] + t;
      if t != [] {
        assert s[|s| - 1] == t[|t| - 1];
      }
    }
  }

  lemma {:induction false} BlocksIncreasing(cfg: Config, b: int, end: int, chunk: nat)
    ensures forall i :: 0 <= i < |Blocks(cfg, b, end, chunk)| ==> b <= Blocks(cfg, b, end, chunk)[i]
    ensures forall i, j :: 0 <= i < j < |Blocks(cfg, b, end, chunk)| ==> Blocks(cfg, b, end, chunk)[i] < Blocks(cfg, b, end, chunk)[j]
    decreases end - b
  {
    var n := Next(cfg, b, chunk);
    if n < end {
      BlocksIncreasing(cfg, n, end, chunk);
      var s := Blocks(cfg, b, end, chunk);
      var t := Blocks(cfg, n, end, chunk);
      assert s == [b] + t && b < n;
      forall i | 0 < i < |s|
        ensures s[i] == t[i - 1] && b < s[i]
      {
        assert s[i] == t[i - 1];
        assert n <= t[i - 1];
      }
      forall i, j | 0 <= i < j < |s|
        ensures s[i] < s[j]
      {
        assert s[j] == t[j - 1];
        if i > 0 {
          assert s[i] == t[i - 1];
        }
      }
    }
  }

  /** The init loop writes no header outside the blocks it processes. */
  lemma {:induction false} ThreadOutside(cfg: Config, m: Headers, s: seq<int>, chunk: nat, a: int)
    requires forall i :: 0 <= i < |s| ==> s[i] != a
    ensures At(Thread(cfg, m, s, chunk), a) == At(m, a)
    decreases |s|
  {
    if s != [] {
      ThreadOutside(cfg, m, s[..|s| - 1], chunk, a);
    }
  }

  /** Each processed block gets the next block's address, and the magic word with the guard. */
  lemma {:induction false} ThreadInside(cfg: Config, m: Headers, s: seq<int>, chunk: nat, k: int)
    requires 0 <= k < |s|
    requires forall i, j :: 0 <= i < j < |s| ==> s[i] != s[j]
    ensures At(Thread(cfg, m, s, chunk), s[k])
         == Header(if cfg.guard then MAGIC else At(m, s[k]).magic, Next(cfg, s[k], chunk))
    decreases |s|
  {
    var prefix := s[..|s| - 1];
    if k == |s| - 1 {
      ThreadOutside(cfg, m, prefix, chunk, s[k]);
    } else {
      ThreadInside(cfg, m, prefix, chunk, k);
    }
  }

  /**
   * Init fails, and writes nothing, exactly when the buffer is NULL, the
   * size or the chunk size is 0, or the size cannot hold the pool header
   * and one block.
   */
  lemma InitRejected(cfg: Config, m: Headers, buf: nat, size: nat, chunk: nat)
    ensures InitOp(cfg, m, buf, size, chunk).pool == NULL
        <==> (buf == NULL || size == 0 || chunk == 0 || size < AlignUpper(cfg.headerSize + Next(cfg, 0, chunk)))
    ensures InitOp(cfg, m, buf, size, chunk).pool == NULL ==> InitOp(cfg, m, buf, size, chunk).mem == m
  {
  }

  /** A chunk size beyond the buffer size is always rejected. */
  lemma ChunkLargerThanBufferRejected(cfg: Config, buf: nat, size: nat, chunk: nat)
    requires size < chunk
    ensures InitRejects(cfg, buf, size, chunk)
  {
  }

  /**
   * The shape of the list init threads: it starts at the aligned first
   * block after the pool header, each link is the next block by stride,
   * the addresses increase; if the loop ran, every listed block's
   * successor starts below the buffer end, and the block after the last
   * listed one was dropped because its own successor does not; if the
   * loop never ran, the list is the first block alone.
   */
  lemma InitListShape(cfg: Config, buf: nat, size: nat, chunk: nat)
    ensures var L := InitList(cfg, buf, size, chunk);
      var b0 := FirstBlock(cfg, AlignUpper(buf));
      var done := Blocks(cfg, b0, buf + size, chunk);
      |L| >= 1 && L[0] == b0
      && (forall i :: 0 <= i < |L| - 1 ==> L[i + 1] == Next(cfg, L[i], chunk))
      && (forall i, j :: 0 <= i < j < |L| ==> L[i] < L[j])
      && (forall i :: 0 <= i < |L| ==> Aligned(L[i]) && b0 <= L[i])
      && (done == [] ==> L == [b0] && Next(cfg, b0, chunk) >= buf + size)
      && (done != [] ==> L == done
                         && (forall i :: 0 <= i < |L| ==> Next(cfg, L[i], chunk) < buf + size)
                         && Next(cfg, Next(cfg, L[|L| - 1], chunk), chunk) >= buf + size)
  {
    var L := InitList(cfg, buf, size, chunk);
    var b0 := FirstBlock(cfg, AlignUpper(buf));
    BlocksShape(cfg, b0, buf + size, chunk);
    forall i | 0 <= i < |L|
      ensures Aligned(L[i])
    {
      if i > 0 {
        assert L[i] == Next(cfg, L[i - 1], chunk);
      }
    }
  }

  /**
   * On success, the pool header sits at the aligned start of the buffer
   * and the free list it anchors is InitList.
   */
  lemma InitFreeList(cfg: Config, m: Headers, buf: nat, size: nat, chunk: nat)
    requires !InitRejects(cfg, buf, size, chunk)
    ensures var o := InitOp(cfg, m, buf, size, chunk);
      o.pool == AlignUpper(buf) && buf <= o.pool < buf + ALIGNMENT
      && FreeList(cfg, o.mem, o.pool, InitList(cfg, buf, size, chunk))
  {
    var pool := AlignUpper(buf);
    var b0 := FirstBlock(cfg, pool);
    var m1 := m[pool := Header(if cfg.guard then MAGIC else At(m, pool).magic, b0)];
    var done := Blocks(cfg, b0, buf + size, chunk);
    var L := InitList(cfg, buf, size, chunk);
    assert InitOp(cfg, m, buf, size, chunk).mem == Terminate(Thread(cfg, m1, done, chunk), L[|L| - 1]);
    InitListShape(cfg, buf, size, chunk);
    ThreadedFreeList(cfg, m1, pool, done, L, chunk);
  }

  /**
   * Threading blocks that follow one another by stride above the pool
   * header, and terminating the last one, leaves a free list through them
   * when the pool header already points at the first.
   */
  lemma ThreadedFreeList(cfg: Config, m1: Headers, pool: int, done: seq<int>, L: seq<int>, chunk: nat)
    requires pool > NULL && |L| >= 1 && (done == L || (done == [] && |L| == 1))
    requires At(m1, pool).next == L[0]
    requires forall i :: 0 <= i < |L| - 1 ==> L[i + 1] == Next(cfg, L[i], chunk)
    requires forall i, j :: 0 <= i < j < |L| ==> L[i] < L[j]
    requires forall i :: 0 <= i < |L| ==> Aligned(L[i]) && FirstBlock(cfg, pool) <= L[i]
    ensures FreeList(cfg, Terminate(Thread(cfg, m1, done, chunk), L[|L| - 1]), pool, L)
  {
    assert forall i :: 0 <= i < |done| ==> done[i] != pool;
    ThreadOutside(cfg, m1, done, chunk, pool);
    TerminatedChain(cfg, m1, done, L, chunk);
    var m3 := Terminate(Thread(cfg, m1, done, chunk), L[|L| - 1]);
    assert forall i :: 0 <= i < |L| ==> At(m3, L[i]).next == (if i + 1 < |L| then L[i + 1] else NULL);
    assert At(m3, pool).next == L[0];
    assert forall i, j :: 0 <= i < j < |L| ==> L[i] != L[j];
    assert forall i :: 0 <= i < |L| ==> Aligned(L[i]) && FirstBlock(cfg, pool) <= L[i];
    assert FreeList(cfg, m3, pool, L);
  }

  /**
   * With the guard, threading distinct blocks above a stamped pool header
   * and terminating the last one leaves the header and every block stamped.
   */
  lemma ThreadedStamps(cfg: Config, m1: Headers, pool: int, L: seq<int>, chunk: nat)
    requires cfg.guard && |L| >= 1 && At(m1, pool).magic == MAGIC
    requires forall i :: 0 <= i < |L| ==> pool < L[i]
    requires forall i, j :: 0 <= i < j < |L| ==> L[i] != L[j]
    ensures Stamped(Terminate(Thread(cfg, m1, L, chunk), L[|L| - 1]), pool, L)
  {
    var m3 := Terminate(Thread(cfg, m1, L, chunk), L[|L| - 1]);
    ThreadOutside(cfg, m1, L, chunk, pool);
    forall i | 0 <= i < |L|
      ensures At(m3, L[i]).magic == MAGIC
    {
      ThreadInside(cfg, m1, L, chunk, i);
    }
  }

  /**
   * Threading increasing blocks that follow one another by stride and then
   * terminating the last one yields a NULL-terminated chain through them.
   */
  lemma TerminatedChain(cfg: Config, m1: Headers, done: seq<int>, L: seq<int>, chunk: nat)
    requires |L| >= 1 && (done == L || (done == [] && |L| == 1))
    requires forall i :: 0 <= i < |L| - 1 ==> L[i + 1] == Next(cfg, L[i], chunk)
    requires forall i, j :: 0 <= i < j < |L| ==> L[i] < L[j]
    ensures forall i :: 0 <= i < |L| ==>
      At(Terminate(Thread(cfg, m1, done, chunk), L[|L| - 1]), L[i]).next == (if i + 1 < |L| then L[i + 1] else NULL)
  {
    var m2 := Thread(cfg, m1, done, chunk);
    forall i | 0 <= i < |L|
      ensures At(Terminate(m2, L[|L| - 1]), L[i]).next == (if i + 1 < |L| then L[i + 1] else NULL)
    {
      if i + 1 < |L| {
        assert L[i] < L[|L| - 1] && done == L;
        assert forall x, y :: 0 <= x < y < |L| ==> L[x] != L[y];
        ThreadInside(cfg, m1, L, chunk, i);
      }
    }
  }

  /**
   * With the guard, init stamps the pool header and every block its loop
   * processed; when the loop never ran, the one listed block keeps
   * whatever magic it had before.
   */
  lemma InitStamps(cfg: Config, m: Headers, buf: nat, size: nat, chunk: nat)
    requires !InitRejects(cfg, buf, size, chunk)
    ensures var o := InitOp(cfg, m, buf, size, chunk);
      var b0 := FirstBlock(cfg, o.pool);
      var done := Blocks(cfg, b0, buf + size, chunk);
      (cfg.guard ==> At(o.mem, o.pool).magic == MAGIC)
      && (cfg.guard ==> forall i :: 0 <= i < |done| ==> At(o.mem, done[i]).magic == MAGIC)
      && (done == [] ==> At(o.mem, b0).magic == At(m, b0).magic)
  {
    var o := InitOp(cfg, m, buf, size, chunk);
    var pool := AlignUpper(buf);
    var b0 := FirstBlock(cfg, pool);
    var m1 := m[pool := Header(if cfg.guard then MAGIC else At(m, pool).magic, b0)];
    var done := Blocks(cfg, b0, buf + size, chunk);
    var m2 := Thread(cfg, m1, done, chunk);
    BlocksShape(cfg, b0, buf + size, chunk);
    ThreadOutside(cfg, m1, done, chunk, pool);
    if done == [] {
      assert At(o.mem, b0).magic == At(m2, b0).magic == At(m1, b0).magic;
    } else {
      forall i | 0 <= i < |done|
        ensures cfg.guard ==> At(o.mem, done[i]).magic == MAGIC
      {
        ThreadInside(cfg, m1, done, chunk, i);
      }
    }
  }

  /** Init writes the pool header and the listed blocks' headers, and no other header. */
  lemma InitWritesOnlyList(cfg: Config, m: Headers, buf: nat, size: nat, chunk: nat, a: int)
    requires !InitRejects(cfg, buf, size, chunk)
    requires a != AlignUpper(buf) && a !in InitList(cfg, buf, size, chunk)
    ensures At(InitOp(cfg, m, buf, size, chunk).mem, a) == At(m, a)
  {
    var pool := AlignUpper(buf);
    var b0 := FirstBlock(cfg, pool);
    var m1 := m[pool := Header(if cfg.guard then MAGIC else At(m, pool).magic, b0)];
    var done := Blocks(cfg, b0, buf + size, chunk);
    if done != [] {
      assert a != done[|done| - 1];
    }
    ThreadOutside(cfg, m1, done, chunk, a);
  }

  /**
   * Payloads of the listed blocks do not overlap: each lies between its
   * own header and the next listed block.
   */
  lemma InitPayloadsDisjoint(cfg: Config, buf: nat, size: nat, chunk: nat, i: int, j: int)
    requires var L := InitList(cfg, buf, size, chunk); 0 <= i < j < |L|
    ensures var L := InitList(cfg, buf, size, chunk);
      L[i] + cfg.headerSize <= PayloadOf(cfg, L[i])
      && PayloadOf(cfg, L[i]) + chunk <= L[j] < PayloadOf(cfg, L[j])
  {
    InitListShape(cfg, buf, size, chunk);
    StrideDisjoint(cfg, InitList(cfg, buf, size, chunk), chunk, i, j);
  }

  /** In blocks that follow one another by stride, a payload ends before any later block starts. */
  lemma StrideDisjoint(cfg: Config, L: seq<int>, chunk: nat, i: int, j: int)
    requires 0 <= i < j < |L|
    requires forall k :: 0 <= k < |L| - 1 ==> L[k + 1] == Next(cfg, L[k], chunk)
    requires forall k, l :: 0 <= k < l < |L| ==> L[k] < L[l]
    ensures PayloadOf(cfg, L[i]) + chunk <= L[j]
  {
    assert L[i + 1] == Next(cfg, L[i], chunk);
    if i + 1 < j {
      assert L[i + 1] < L[j];
    }
  }
}
