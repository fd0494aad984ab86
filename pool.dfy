/**
 * The state the block allocator works on, and one pure step function per
 * operation of src/memmgr.c: _pxMemMgrInit (InitOp), _pvMemMgrAlloc
 * (AllocOp) and _vMemMgrFree (FreeOp).  The imperative methods of
 * Allocator.Memory are proved to agree with these functions; the
 * properties of the allocator are lemmas about them (modules
 * LayoutLemmas and OperationLemmas).
 *
 * The memory is a map from address to the header record written there.
 * The pool header is itself a block header (HeapHeader_t is BlockHeader_t),
 * so the head of the free list is the `next` field of the header at the
 * pool address.
 */
module Pool {
  import opened Alignment

  const NULL: int := 0

  /** MEMMGR_MAGIC. */
  const MAGIC: int := 0xDEAD_BEAF_DEAD_BEAF

  /** sizeof(BlockHeader_t): a header holds at least its `next` pointer. */
  type HeaderSize = h: nat | 0 < h witness 16

  /**
   * The compile-time configuration: MEMMGR_CHECK_OVERFLOW (guard),
   * MEMMGR_THREAD_SAFE (threadSafe) and the header size they imply.
   */
  datatype Config = Config(guard: bool, threadSafe: bool, headerSize: HeaderSize)

  /** A BLOCK_HEADER: the magic word (meaningful only with the guard) and the next-free link. */
  datatype Header = Header(magic: int, next: int)

  type Headers = map<int, Header>

  /** The header at address `a`; memory where no header was written reads as zero. */
  function At(m: Headers, a: int): Header {
    if a in m then m[a] else Header(0, NULL)
  }

  /** Calls the allocator makes to its external collaborators. */
  datatype Event = Lock(pool: int) | Unlock(pool: int) | OverflowHook(addr: int)

  datatype InitOutcome = InitOutcome(mem: Headers, pool: int)
  datatype AllocOutcome = AllocOutcome(mem: Headers, result: int, events: seq<Event>)
  datatype FreeOutcome = FreeOutcome(mem: Headers, events: seq<Event>)

  /** `pxHeader->pvMem` rounded up: where the first block of the pool sits. */
  function FirstBlock(cfg: Config, pool: int): (r: int)
    ensures Aligned(r) && pool + cfg.headerSize <= r < pool + cfg.headerSize + ALIGNMENT
  {
    PayloadOf(cfg, pool)
  }

  /** The payload address handed out for the block at `b`. */
  function PayloadOf(cfg: Config, b: int): (r: int)
    ensures Aligned(r) && b + cfg.headerSize <= r < b + cfg.headerSize + ALIGNMENT
  {
    AlignUpper(b + cfg.headerSize)
  }

  /** The block header a payload pointer `p` is mapped back to. */
  function BlockOf(cfg: Config, p: int): (r: int)
    ensures Aligned(r) && p - cfg.headerSize - ALIGNMENT < r <= p - cfg.headerSize
  {
    AlignLower(p - cfg.headerSize)
  }

  /** The block after `b` for chunks of `chunk` bytes. */
  function Next(cfg: Config, b: int, chunk: nat): int {
    NextBlockAddr(b, chunk, cfg.headerSize)
  }

  /** Lock before and unlock after the body, when the thread-safe option is on. */
  function Bracket(cfg: Config, pool: int, body: seq<Event>): (r: seq<Event>)
    ensures cfg.threadSafe ==> |r| == |body| + 2 && r[0] == Lock(pool) && r[|r| - 1] == Unlock(pool) && r[1..|r| - 1] == body
    ensures !cfg.threadSafe ==> r == body
  {
    if cfg.threadSafe then [Lock(pool)] + body + [Unlock(pool)] else body
  }

  // ----- Initialisation -----

  /** The smallest buffer init accepts: a pool header and one block. */
  function MinSize(cfg: Config, chunk: nat): (r: int)
    ensures Aligned(r) && 2 * cfg.headerSize + chunk <= r
  {
    AlignUpper(cfg.headerSize + Next(cfg, 0, chunk))
  }

  predicate InitRejects(cfg: Config, buf: nat, size: nat, chunk: nat): (r: bool)
    ensures !r ==> buf != NULL && 0 < chunk && 2 * cfg.headerSize + chunk <= size
  {
    buf == NULL || size == 0 || chunk == 0 || size < MinSize(cfg, chunk)
  }

  /**
   * The blocks the init loop processes, starting at `b`: it continues while
   * the block after the current one starts strictly below `end`.
   */
  function Blocks(cfg: Config, b: int, end: int, chunk: nat): (r: seq<int>)
    ensures forall x :: x in r ==> b <= x < end
    decreases end - b
  {
    if Next(cfg, b, chunk) < end then [b] + Blocks(cfg, Next(cfg, b, chunk), end, chunk) else []
  }

  /** The headers the init loop writes for the blocks `s`, in order. */
  function Thread(cfg: Config, m: Headers, s: seq<int>, chunk: nat): (r: Headers)
    ensures s != [] ==>
              At(r, s[|s| - 1]).next == Next(cfg, s[|s| - 1], chunk)
              && (cfg.guard ==> At(r, s[|s| - 1]).magic == MAGIC)
    decreases |s|
  {
    if s == [] then m
    else
      var m' := Thread(cfg, m, s[..|s| - 1], chunk);
      var b := s[|s| - 1];
      m'[b := Header(if cfg.guard then MAGIC else At(m', b).magic, Next(cfg, b, chunk))]
  }

  /** The free list init leaves behind: the processed blocks, or the first block alone. */
  function InitList(cfg: Config, buf: nat, size: nat, chunk: nat): (r: seq<int>)
    ensures r != [] && r[0] == FirstBlock(cfg, AlignUpper(buf))
  {
    var b0 := FirstBlock(cfg, AlignUpper(buf));
    var done := Blocks(cfg, b0, buf + size, chunk);
    if done == [] then [b0] else done
  }

  /** _pxMemMgrInit. */
  function InitOp(cfg: Config, m: Headers, buf: nat, size: nat, chunk: nat): (r: InitOutcome)
    ensures r.pool == NULL ==> r.mem == m
    ensures r.pool != NULL ==> Aligned(r.pool) && buf <= r.pool < buf + ALIGNMENT
  {
    if InitRejects(cfg, buf, size, chunk) then InitOutcome(m, NULL)
    else
      var pool := AlignUpper(buf);
      var b0 := FirstBlock(cfg, pool);
      var m1 := m[pool := Header(if cfg.guard then MAGIC else At(m, pool).magic, b0)];
      var done := Blocks(cfg, b0, buf + size, chunk);
      var m2 := Thread(cfg, m1, done, chunk);
      InitOutcome(Terminate(m2, LastProcessed(done, b0)), pool)
  }

  /** The last block the init loop processed, or the first block when it processed none. */
  function LastProcessed(done: seq<int>, b0: int): int {
    if done == [] then b0 else done[|done| - 1]
  }

  /** `pxPrevPtr->pxNextFree = NULL`: the header at `a` gets a NULL link. */
  function Terminate(m: Headers, a: int): (r: Headers)
    ensures At(r, a) == Header(At(m, a).magic, NULL)
    ensures forall x :: x != a ==> At(r, x) == At(m, x)
  {
    m[a := At(m, a).(next := NULL)]
  }

  // ----- Allocate -----

  function AllocBody(cfg: Config, m: Headers, pool: int): (r: AllocOutcome)
    ensures r.result == NULL || r.result == PayloadOf(cfg, At(m, pool).next)
    ensures r.events == [] || (cfg.guard && r.result == NULL && r.events == [OverflowHook(pool)])
    ensures forall a :: a != pool ==> At(r.mem, a) == At(m, a)
  {
    if pool == NULL then AllocOutcome(m, NULL, [])
    else if cfg.guard && At(m, pool).magic != MAGIC then AllocOutcome(m, NULL, [OverflowHook(pool)])
    else if At(m, pool).next == NULL then AllocOutcome(m, NULL, [])
    else
      var block := At(m, pool).next;
      var m' := m[pool := At(m, pool).(next := At(m, block).next)];
      if cfg.guard && At(m', block).magic != MAGIC then AllocOutcome(m', NULL, [OverflowHook(pool)])
      else AllocOutcome(m', PayloadOf(cfg, block), [])
  }

  /** _pvMemMgrAlloc. */
  function AllocOp(cfg: Config, m: Headers, pool: int): (r: AllocOutcome)
    ensures r.result != NULL ==>
              pool != NULL && At(m, pool).next != NULL
              && r.result == PayloadOf(cfg, At(m, pool).next)
              && At(r.mem, pool).next == At(m, At(m, pool).next).next
    ensures !cfg.guard ==> OverflowHook(pool) !in r.events
  {
    var o := AllocBody(cfg, m, pool);
    o.(events := Bracket(cfg, pool, o.events))
  }

  // ----- Free -----

  /**
   * The guard's three checks on release: pool, block, and a non-null head.
   * Memory that passes them passes allocate's checks as well.
   */
  predicate FreeGuardFails(m: Headers, pool: int, block: int): (r: bool)
    ensures !r ==> forall cfg: Config :: cfg.guard && pool != NULL ==> AllocBody(cfg, m, pool).events == []
  {
    At(m, pool).magic != MAGIC
    || At(m, block).magic != MAGIC
    || (At(m, pool).next != NULL && At(m, At(m, pool).next).magic != MAGIC)
  }

  function FreeBody(cfg: Config, m: Headers, pool: int, p: int): (r: FreeOutcome)
    ensures r.mem == m
              || (pool != NULL && FirstBlock(cfg, pool) <= BlockOf(cfg, p)
                  && At(r.mem, pool).next == BlockOf(cfg, p) && At(r.mem, BlockOf(cfg, p)).next == At(m, pool).next)
    ensures forall a :: a != pool && a != BlockOf(cfg, p) ==> At(r.mem, a) == At(m, a)
    ensures forall a :: At(r.mem, a).magic == At(m, a).magic
    ensures r.events == [] || (cfg.guard && r.mem == m && r.events == [OverflowHook(p)])
  {
    if pool == NULL || p == NULL then FreeOutcome(m, [])
    else
      var block := BlockOf(cfg, p);
      if cfg.guard && FreeGuardFails(m, pool, block) then FreeOutcome(m, [OverflowHook(p)])
      else if block < FirstBlock(cfg, pool) then FreeOutcome(m, [])
      else
        var m' := m[block := At(m, block).(next := At(m, pool).next)];
        FreeOutcome(m'[pool := At(m', pool).(next := block)], [])
  }

  /** _vMemMgrFree. */
  function FreeOp(cfg: Config, m: Headers, pool: int, p: int): (r: FreeOutcome)
    ensures forall a :: At(r.mem, a).magic == At(m, a).magic
    ensures OverflowHook(p) in r.events ==> cfg.guard && r.mem == m
  {
    var o := FreeBody(cfg, m, pool, p);
    o.(events := Bracket(cfg, pool, o.events))
  }

  // ----- The free list as an abstract sequence -----

  /**
   * `s` is the free list of the pool at `pool` in `m`: the pool header
   * points at s[0], each block at the next, the last at NULL; the blocks
   * are aligned, distinct and not below the first block.
   */
  ghost predicate FreeList(cfg: Config, m: Headers, pool: int, s: seq<int>): (r: bool)
    ensures r ==> forall i :: 0 <= i < |s| ==> s[i] != NULL && s[i] != pool
  {
    pool > NULL
    && At(m, pool).next == (if s == [] then NULL else s[0])
    && (forall i :: 0 <= i < |s| ==> Aligned(s[i]) && FirstBlock(cfg, pool) <= s[i])
    && (forall i :: 0 <= i < |s| ==> At(m, s[i]).next == (if i + 1 < |s| then s[i + 1] else NULL))
    && (forall i, j :: 0 <= i < j < |s| ==> s[i] != s[j])
  }

  /**
   * The pool header and every free block carry the magic word.  Free's
   * guard then passes for any block already on the list: it cannot catch
   * a double free.
   */
  ghost predicate Stamped(m: Headers, pool: int, s: seq<int>): (r: bool)
    ensures r && s != [] && At(m, pool).next == s[0] ==> forall i :: 0 <= i < |s| ==> !FreeGuardFails(m, pool, s[i])
  {
    At(m, pool).magic == MAGIC && forall i :: 0 <= i < |s| ==> At(m, s[i]).magic == MAGIC
  }
}
