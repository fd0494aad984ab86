/**
 * Three defects of _pxMemMgrInit's layout, each shown on a concrete buffer
 * against the model of the code as written (Pool.InitOp), and a corrected
 * layout with the intended properties proved about it.
 *
 * 1. With the guard, only the blocks the loop processes are stamped. When
 *    the loop never runs, the first block is still handed over as the only
 *    free block, but without the magic word: the first allocation from a
 *    fresh minimum-size pool reports an overflow and returns NULL
 *    (MinimumPoolFirstAllocFails; FirstAllocSucceedsWhenLoopRan shows
 *    that a loop that ran avoids it).
 * 2. The loop takes a block only when the block after it starts strictly
 *    below the buffer end, so a block whose payload ends exactly at the end
 *    is dropped (ExactFitDropped).
 * 3. The minimum-size check measures from `buf`, not from the aligned pool
 *    header, and the first block is listed whether or not it fits: with a
 *    misaligned buffer the payload handed out runs past the buffer end
 *    (MisalignedBufferOverrun).
 *
 * The corrected layout takes exactly the blocks whose payload fits in the
 * buffer and fails when there is none.
 */
module Findings {
  import opened Alignment
  import opened Pool
  import opened LayoutLemmas
  import opened OperationLemmas

  // ----- The code as written, on concrete buffers -----

  /**
   * Guard on, 16-byte headers, an empty 40-byte buffer at 4096 and 8-byte
   * chunks: init accepts (40 is the minimum size), yet the very first
   * allocation calls the overflow hook and returns NULL.
   */
  lemma MinimumPoolFirstAllocFails()
    ensures var cfg := Config(true, false, 16);
      var o := InitOp(cfg, map[], 4096, 40, 8);
      var a := AllocOp(cfg, o.mem, o.pool);
      o.pool == 4096 && a.result == NULL && a.events == [OverflowHook(4096)]
  {
    var cfg := Config(true, false, 16);
    assert MinSize(cfg, 8) == 40;
    assert FirstBlock(cfg, 4096) == 4112;
    assert Next(cfg, 4112, 8) == 4136;
    assert Blocks(cfg, 4112, 4136, 8) == [];
  }

  /**
   * Guard on, 16-byte headers, a 64-byte buffer at 4096 and 8-byte chunks:
   * the second block's payload ends exactly at the buffer end, but init
   * lists only the first block.
   */
  lemma ExactFitDropped()
    ensures var cfg := Config(true, false, 16);
      InitList(cfg, 4096, 64, 8) == [4112]
      && PayloadOf(cfg, 4136) + 8 == 4096 + 64
  {
    var cfg := Config(true, false, 16);
    assert Next(cfg, 4112, 8) == 4136;
    assert Next(cfg, 4136, 8) == 4160;
    assert Blocks(cfg, 4136, 4160, 8) == [];
    assert Blocks(cfg, 4112, 4160, 8) == [4112];
  }

  /**
   * Guard off, so 8-byte headers on a 64-bit target, a 24-byte buffer at
   * the odd address 4097 and 8-byte chunks: init accepts and the first
   * allocation returns a payload whose 8 bytes end past the buffer end
   * 4121.  (With the guard on, the unstamped first block makes that
   * allocation call the hook instead; see MinimumPoolFirstAllocFails.)
   */
  lemma MisalignedBufferOverrun()
    ensures var cfg := Config(false, false, 8);
      var o := InitOp(cfg, map[], 4097, 24, 8);
      var a := AllocOp(cfg, o.mem, o.pool);
      o.pool == 4104 && a.result == 4120 && a.result + 8 > 4097 + 24
  {
    var cfg := Config(false, false, 8);
    assert MinSize(cfg, 8) == 24;
    assert AlignUpper(4097) == 4104;
    assert FirstBlock(cfg, 4104) == 4112;
    assert Next(cfg, 4112, 8) == 4128;
    assert Blocks(cfg, 4112, 4121, 8) == [];
    assert PayloadOf(cfg, 4112) == 4120;
  }

  // ----- The corrected layout -----

  /** The block at `b` fits: its payload of `chunk` bytes ends at or below `end`. */
  predicate Fits(cfg: Config, b: int, end: int, chunk: nat) {
    PayloadOf(cfg, b) + chunk <= end
  }

  /** The blocks from `b` on, by stride, as long as each one fits. */
  function FittingBlocks(cfg: Config, b: int, end: int, chunk: nat): (r: seq<int>)
    ensures r != [] ==> |r| * chunk <= end - b
    decreases end - b
  {
    if Fits(cfg, b, end, chunk) then
      var rest := FittingBlocks(cfg, Next(cfg, b, chunk), end, chunk);
      assert (|rest| + 1) * chunk == |rest| * chunk + chunk;
      [b] + rest
    else []
  }

  lemma {:induction false} FittingBlocksShape(cfg: Config, b: int, end: int, chunk: nat)
    ensures var s := FittingBlocks(cfg, b, end, chunk);
      (s == [] <==> !Fits(cfg, b, end, chunk))
      && (s != [] ==> s[0] == b && !Fits(cfg, Next(cfg, s[|s| - 1], chunk), end, chunk))
      && (forall i :: 0 <= i < |s| ==> b <= s[i] && Fits(cfg, s[i], end, chunk))
      && (forall i :: 0 <= i < |s| - 1 ==> s[i + 1] == Next(cfg, s[i], chunk))
      && (forall i, j :: 0 <= i < j < |s| ==> s[i] < s[j])
      && (Aligned(b) ==> forall i :: 0 <= i < |s| ==> Aligned(s[i]))
    decreases end - b
  {
    var s := FittingBlocks(cfg, b, end, chunk);
    if Fits(cfg, b, end, chunk) {
      var n := Next(cfg, b, chunk);
      FittingBlocksShape(cfg, n, end, chunk);
      var t := FittingBlocks(cfg, n, end, chunk);
      assert s == [b] + t;
      forall i | 0 < i < |s|
        ensures s[i] == t[i - 1]
      {
      }
      forall i, j | 0 <= i < j < |s|
        ensures s[i] < s[j]
      {
        assert s[j] == t[j - 1];
        if i > 0 {
          assert s[i] == t[i - 1];
        }
      }
    }
  }

  /** The blocks the corrected init hands over. */
  function IntendedList(cfg: Config, buf: nat, size: nat, chunk: nat): seq<int> {
    FittingBlocks(cfg, FirstBlock(cfg, AlignUpper(buf)), buf + size, chunk)
  }

  predicate IntendedRejects(cfg: Config, buf: nat, size: nat, chunk: nat) {
    buf == NULL || size == 0 || chunk == 0 || IntendedList(cfg, buf, size, chunk) == []
  }

  /** _pxMemMgrInit as evidently intended: thread and stamp every fitting block, and only those. */
  function IntendedInitOp(cfg: Config, m: Headers, buf: nat, size: nat, chunk: nat): (r: InitOutcome)
    ensures r.pool != NULL <==> buf != NULL && size != 0 && chunk != 0 && IntendedList(cfg, buf, size, chunk) != []
    ensures r.pool == NULL ==> r.mem == m
  {
    if IntendedRejects(cfg, buf, size, chunk) then InitOutcome(m, NULL)
    else
      var pool := AlignUpper(buf);
      var L := IntendedList(cfg, buf, size, chunk);
      var m1 := m[pool := Header(if cfg.guard then MAGIC else At(m, pool).magic, L[0])];
      InitOutcome(Terminate(Thread(cfg, m1, L, chunk), L[|L| - 1]), pool)
  }

  /**
   * Every block of the corrected layout lies inside the buffer, payload
   * included, and the block after the last one would not fit: the layout
   * is as long as the buffer allows.
   */
  lemma IntendedFits(cfg: Config, buf: nat, size: nat, chunk: nat)
    ensures var L := IntendedList(cfg, buf, size, chunk);
      (forall i :: 0 <= i < |L| ==> buf <= L[i] && PayloadOf(cfg, L[i]) + chunk <= buf + size)
      && (L != [] ==> !Fits(cfg, Next(cfg, L[|L| - 1], chunk), buf + size, chunk))
      && (L == [] ==> !Fits(cfg, FirstBlock(cfg, AlignUpper(buf)), buf + size, chunk))
  {
    FittingBlocksShape(cfg, FirstBlock(cfg, AlignUpper(buf)), buf + size, chunk);
  }

  /**
   * The corrected init hands over a well-formed free list of exactly the
   * fitting blocks and, with the guard, stamps all of them.
   */
  lemma IntendedStampsAll(cfg: Config, m: Headers, buf: nat, size: nat, chunk: nat)
    requires !IntendedRejects(cfg, buf, size, chunk)
    ensures var o := IntendedInitOp(cfg, m, buf, size, chunk);
      var L := IntendedList(cfg, buf, size, chunk);
      o.pool == AlignUpper(buf)
      && FreeList(cfg, o.mem, o.pool, L)
      && (cfg.guard ==> Stamped(o.mem, o.pool, L))
  {
    var pool := AlignUpper(buf);
    var b0 := FirstBlock(cfg, pool);
    var L := IntendedList(cfg, buf, size, chunk);
    var m1 := m[pool := Header(if cfg.guard then MAGIC else At(m, pool).magic, L[0])];
    var m2 := Thread(cfg, m1, L, chunk);
    var o := IntendedInitOp(cfg, m, buf, size, chunk);
    assert o.mem == Terminate(m2, L[|L| - 1]);
    FittingBlocksShape(cfg, b0, buf + size, chunk);
    AlignedFixed(b0);
    ThreadedFreeList(cfg, m1, pool, L, L, chunk);
    if cfg.guard {
      ThreadedStamps(cfg, m1, pool, L, chunk);
    }
  }

  /**
   * As written, the defect of MinimumPoolFirstAllocFails needs a loop that
   * never ran: once init's loop has processed a block, the first
   * allocation succeeds and calls no hook.
   */
  lemma FirstAllocSucceedsWhenLoopRan(cfg: Config, m: Headers, buf: nat, size: nat, chunk: nat)
    requires !InitRejects(cfg, buf, size, chunk)
    requires Blocks(cfg, FirstBlock(cfg, AlignUpper(buf)), buf + size, chunk) != []
    ensures var o := InitOp(cfg, m, buf, size, chunk);
      var a := AllocOp(cfg, o.mem, o.pool);
      a.result == PayloadOf(cfg, FirstBlock(cfg, o.pool)) && a.result != NULL
      && a.events == Bracket(cfg, o.pool, [])
  {
    InitFreeList(cfg, m, buf, size, chunk);
    InitStamps(cfg, m, buf, size, chunk);
    var o := InitOp(cfg, m, buf, size, chunk);
    AllocPop(cfg, o.mem, o.pool, InitList(cfg, buf, size, chunk));
  }

  /**
   * With the corrected layout, the first allocation from a fresh pool
   * returns the first block's payload, inside the buffer, and calls no hook.
   */
  lemma IntendedFirstAllocSucceeds(cfg: Config, m: Headers, buf: nat, size: nat, chunk: nat)
    requires !IntendedRejects(cfg, buf, size, chunk)
    ensures var o := IntendedInitOp(cfg, m, buf, size, chunk);
      var a := AllocOp(cfg, o.mem, o.pool);
      a.result != NULL && buf <= a.result && a.result + chunk <= buf + size
      && a.events == Bracket(cfg, o.pool, [])
  {
    IntendedStampsAll(cfg, m, buf, size, chunk);
    IntendedFits(cfg, buf, size, chunk);
    var o := IntendedInitOp(cfg, m, buf, size, chunk);
    AllocPop(cfg, o.mem, o.pool, IntendedList(cfg, buf, size, chunk));
  }

  /** On the two buffers above, the corrected init stamps the one block, and rejects the misaligned buffer. */
  lemma IntendedOnExamples()
    ensures !IntendedRejects(Config(true, false, 16), 4096, 40, 8)
    ensures IntendedList(Config(true, false, 16), 4096, 64, 8) == [4112, 4136]
    ensures IntendedRejects(Config(false, false, 8), 4097, 24, 8)
  {
    var cfg := Config(true, false, 16);
    assert Next(cfg, 4112, 8) == 4136 && Next(cfg, 4136, 8) == 4160;
    assert FittingBlocks(cfg, 4160, 4160, 8) == [];
    assert FittingBlocks(cfg, 4136, 4160, 8) == [4136];
    assert FittingBlocks(cfg, 4112, 4136, 8) == [4112] by {
      assert FittingBlocks(cfg, 4136, 4136, 8) == [];
    }
    assert FittingBlocks(Config(false, false, 8), 4112, 4121, 8) == [];
  }
}
