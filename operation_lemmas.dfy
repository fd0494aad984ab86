/**
 * Properties of _pvMemMgrAlloc and _vMemMgrFree (the step functions
 * AllocOp and FreeOp): their early exits, how they pop and push the free
 * list, the round trips between them, the lock/unlock pairing and the
 * overflow hook.
 */
module OperationLemmas {
  import opened Alignment
  import opened Pool

  // ----- Allocate -----

  /** Allocating from a NULL pool returns NULL and changes nothing. */
  lemma AllocNullPool(cfg: Config, m: Headers)
    ensures AllocOp(cfg, m, NULL).result == NULL
    ensures AllocOp(cfg, m, NULL).mem == m
    ensures AllocOp(cfg, m, NULL).events == Bracket(cfg, NULL, [])
  {
  }

  /** With the guard, a pool header without the magic word: hook on the pool, NULL, nothing changed. */
  lemma AllocPoolCorrupt(cfg: Config, m: Headers, pool: int)
    requires cfg.guard && pool != NULL && At(m, pool).magic != MAGIC
    ensures AllocOp(cfg, m, pool).result == NULL
    ensures AllocOp(cfg, m, pool).mem == m
    ensures AllocOp(cfg, m, pool).events == Bracket(cfg, pool, [OverflowHook(pool)])
  {
  }

  /** An empty free list: NULL, nothing changed, no hook. */
  lemma AllocExhausted(cfg: Config, m: Headers, pool: int)
    requires pool != NULL && (cfg.guard ==> At(m, pool).magic == MAGIC) && At(m, pool).next == NULL
    ensures AllocOp(cfg, m, pool).result == NULL
    ensures AllocOp(cfg, m, pool).mem == m
    ensures AllocOp(cfg, m, pool).events == Bracket(cfg, pool, [])
  {
  }

  /**
   * With the guard, a popped block without the magic word: hook on the
   * pool (not the block), NULL returned, but the head has already moved on
   * to the block's successor.
   */
  lemma AllocBlockCorrupt(cfg: Config, m: Headers, pool: int)
    requires cfg.guard && pool != NULL && At(m, pool).magic == MAGIC
    requires At(m, pool).next != NULL
    requires At(m, At(m, pool).next).magic != MAGIC
    ensures AllocOp(cfg, m, pool).result == NULL
    ensures AllocOp(cfg, m, pool).events == Bracket(cfg, pool, [OverflowHook(pool)])
    ensures AllocOp(cfg, m, pool).mem == m[pool := Header(MAGIC, At(m, At(m, pool).next).next)]
  {
  }

  /**
   * Allocating from a well-formed free list pops its first block: the
   * result is that block's aligned payload, just past its header, and the
   * rest of the list (still stamped, with the guard) remains.
   */
  lemma AllocPop(cfg: Config, m: Headers, pool: int, s: seq<int>)
    requires FreeList(cfg, m, pool, s) && s != []
    requires cfg.guard ==> Stamped(m, pool, s)
    ensures var o := AllocOp(cfg, m, pool);
      o.result == PayloadOf(cfg, s[0]) && o.result != NULL && Aligned(o.result)
      && s[0] + cfg.headerSize <= o.result < s[0] + cfg.headerSize + ALIGNMENT
      && o.events == Bracket(cfg, pool, [])
      && o.mem == m[pool := At(m, pool).(next := At(m, s[0]).next)]
      && FreeList(cfg, o.mem, pool, s[1..])
      && (cfg.guard ==> Stamped(o.mem, pool, s[1..]))
  {
    var o := AllocOp(cfg, m, pool);
    var t := s[1..];
    assert s[0] != pool;
    assert o.mem == m[pool := At(m, pool).(next := At(m, s[0]).next)];
    forall i | 0 <= i < |t|
      ensures At(o.mem, t[i]).next == (if i + 1 < |t| then t[i + 1] else NULL)
    {
      assert t[i] == s[i + 1] && t[i] != pool;
      assert At(o.mem, t[i]) == At(m, s[i + 1]);
      FreeListLink(cfg, m, pool, s, i + 1);
      if i + 1 < |t| {
        assert t[i + 1] == s[i + 2];
      }
    }
    assert At(o.mem, pool).next == At(m, s[0]).next;
    assert At(o.mem, pool).next == (if t == [] then NULL else t[0]);
    assert forall i :: 0 <= i < |t| ==> Aligned(t[i]) && FirstBlock(cfg, pool) <= t[i];
    assert forall i, j :: 0 <= i < j < |t| ==> t[i] != t[j];
    assert FreeList(cfg, o.mem, pool, t);
    if cfg.guard {
      forall i | 0 <= i < |t|
        ensures At(o.mem, t[i]).magic == MAGIC
      {
        assert t[i] == s[i + 1] && t[i] != pool;
      }
    }
  }

  /** Each block on a free list links to the next one, the last to NULL. */
  lemma FreeListLink(cfg: Config, m: Headers, pool: int, s: seq<int>, k: int)
    requires FreeList(cfg, m, pool, s) && 0 <= k < |s|
    ensures At(m, s[k]).next == (if k + 1 < |s| then s[k + 1] else NULL)
  {
  }

  /** The payload of an aligned block sits a fixed distance past the block. */
  lemma PayloadOffset(cfg: Config, b: int)
    requires Aligned(b)
    ensures PayloadOf(cfg, b) == b + AlignUpper(cfg.headerSize)
  {
    AlignUpperShift(b, cfg.headerSize);
  }

  /** Two allocations with no free in between return two different non-NULL pointers. */
  lemma AllocTwiceDistinct(cfg: Config, m: Headers, pool: int, s: seq<int>)
    requires FreeList(cfg, m, pool, s) && |s| >= 2
    requires cfg.guard ==> Stamped(m, pool, s)
    ensures var o1 := AllocOp(cfg, m, pool);
      var o2 := AllocOp(cfg, o1.mem, pool);
      o1.result != NULL && o2.result != NULL && o1.result != o2.result
  {
    AllocPop(cfg, m, pool, s);
    var o1 := AllocOp(cfg, m, pool);
    AllocPop(cfg, o1.mem, pool, s[1..]);
    PayloadOffset(cfg, s[0]);
    PayloadOffset(cfg, s[1]);
  }

  /** The outcome of `n` allocations in a row: the pointers returned and the final memory. */
  datatype Drained = Drained(results: seq<int>, mem: Headers)

  function AllocRepeat(cfg: Config, m: Headers, pool: int, n: nat): (d: Drained)
    ensures |d.results| == n
    decreases n
  {
    if n == 0 then Drained([], m)
    else
      var o := AllocOp(cfg, m, pool);
      var rest := AllocRepeat(cfg, o.mem, pool, n - 1);
      Drained([o.result] + rest.results, rest.mem)
  }

  /** Payload addresses of the blocks `s`, in order. */
  function Payloads(cfg: Config, s: seq<int>): (ps: seq<int>)
    ensures |ps| == |s| && forall i :: 0 <= i < |s| ==> ps[i] == PayloadOf(cfg, s[i])
  {
    if s == [] then [] else [PayloadOf(cfg, s[0])] + Payloads(cfg, s[1..])
  }

  /**
   * `n` allocations from a free list of at least `n` blocks return the
   * payloads of its first `n` blocks in order and leave the rest; blocks
   * handed out keep their headers.
   */
  lemma {:induction false} AllocDrain(cfg: Config, m: Headers, pool: int, s: seq<int>, n: nat)
    requires FreeList(cfg, m, pool, s) && n <= |s|
    requires cfg.guard ==> Stamped(m, pool, s)
    ensures var d := AllocRepeat(cfg, m, pool, n);
      d.results == Payloads(cfg, s[..n])
      && FreeList(cfg, d.mem, pool, s[n..])
      && (cfg.guard ==> Stamped(d.mem, pool, s[n..]))
      && At(d.mem, pool).magic == At(m, pool).magic
      && (forall a :: a != pool ==> At(d.mem, a) == At(m, a))
    decreases n
  {
    if n > 0 {
      var o := AllocOp(cfg, m, pool);
      AllocPop(cfg, m, pool, s);
      AllocDrain(cfg, o.mem, pool, s[1..], n - 1);
      var rest := AllocRepeat(cfg, o.mem, pool, n - 1);
      assert AllocRepeat(cfg, m, pool, n) == Drained([o.result] + rest.results, rest.mem);
      assert s[1..][n - 1..] == s[n..];
      PayloadsCons(cfg, s, n);
    } else {
      assert s[0..] == s;
    }
  }

  lemma PayloadsCons(cfg: Config, s: seq<int>, n: nat)
    requires 0 < n <= |s|
    ensures [PayloadOf(cfg, s[0])] + Payloads(cfg, s[1..][..n - 1]) == Payloads(cfg, s[..n])
  {
    var l, r := [PayloadOf(cfg, s[0])] + Payloads(cfg, s[1..][..n - 1]), Payloads(cfg, s[..n]);
    forall i | 0 <= i < n
      ensures l[i] == r[i]
    {
      if i > 0 {
        assert l[i] == Payloads(cfg, s[1..][..n - 1])[i - 1];
      }
    }
  }

  /**
   * Draining a pool of `|s|` free blocks: exactly `|s|` pointers, each
   * non-NULL and aligned, no two alike, and then NULL with nothing changed.
   */
  lemma AllocCapacity(cfg: Config, m: Headers, pool: int, s: seq<int>)
    requires FreeList(cfg, m, pool, s)
    requires cfg.guard ==> Stamped(m, pool, s)
    ensures var d := AllocRepeat(cfg, m, pool, |s|);
      (forall i :: 0 <= i < |s| ==> d.results[i] != NULL && Aligned(d.results[i]))
      && (forall i, j :: 0 <= i < j < |s| ==> d.results[i] != d.results[j])
      && AllocOp(cfg, d.mem, pool).result == NULL
      && AllocOp(cfg, d.mem, pool).mem == d.mem
  {
    AllocDrain(cfg, m, pool, s, |s|);
    assert s[..|s|] == s;
    var d := AllocRepeat(cfg, m, pool, |s|);
    forall i | 0 <= i < |s|
      ensures d.results[i] != NULL && d.results[i] == s[i] + AlignUpper(cfg.headerSize)
    {
      PayloadOffset(cfg, s[i]);
      assert d.results[i] == PayloadOf(cfg, s[i]) && s[i] >= FirstBlock(cfg, pool);
    }
  }

  // ----- Free -----

  /** Freeing with a NULL pool or a NULL pointer changes nothing and calls no hook. */
  lemma FreeNullArgs(cfg: Config, m: Headers, pool: int, p: int)
    requires pool == NULL || p == NULL
    ensures FreeOp(cfg, m, pool, p).mem == m
    ensures FreeOp(cfg, m, pool, p).events == Bracket(cfg, pool, [])
  {
  }

  /**
   * With the guard, a missing magic word on the pool, on the block, or on a
   * non-NULL head: hook on the freed pointer once, nothing changed.
   */
  lemma FreeGuardRejects(cfg: Config, m: Headers, pool: int, p: int)
    requires cfg.guard && pool != NULL && p != NULL
    requires FreeGuardFails(m, pool, BlockOf(cfg, p))
    ensures FreeOp(cfg, m, pool, p).mem == m
    ensures FreeOp(cfg, m, pool, p).events == Bracket(cfg, pool, [OverflowHook(p)])
  {
  }

  /** A pointer whose block lies below the first block is ignored silently. */
  lemma FreeBelowFirstBlock(cfg: Config, m: Headers, pool: int, p: int)
    requires pool != NULL && p != NULL
    requires !(cfg.guard && FreeGuardFails(m, pool, BlockOf(cfg, p)))
    requires BlockOf(cfg, p) < FirstBlock(cfg, pool)
    ensures FreeOp(cfg, m, pool, p).mem == m
    ensures FreeOp(cfg, m, pool, p).events == Bracket(cfg, pool, [])
  {
  }

  /**
   * Any pointer that passes the guard and whose block is at or above the
   * first block is linked in as the new head, however far above the buffer
   * it lies and whether or not it is on a block boundary: the lower bound is
   * the only range check.
   */
  lemma FreeLinksAnyBlockAboveFirst(cfg: Config, m: Headers, pool: int, p: int)
    requires pool != NULL && p != NULL
    requires !(cfg.guard && FreeGuardFails(m, pool, BlockOf(cfg, p)))
    requires FirstBlock(cfg, pool) <= BlockOf(cfg, p)
    ensures var m' := FreeOp(cfg, m, pool, p).mem;
      At(m', pool) == At(m, pool).(next := BlockOf(cfg, p))
      && At(m', BlockOf(cfg, p)) == At(m, BlockOf(cfg, p)).(next := At(m, pool).next)
      && (forall a :: a != pool && a != BlockOf(cfg, p) ==> At(m', a) == At(m, a))
  {
  }

  /**
   * Freeing a block that is not on the free list pushes it at the front
   * (LIFO), and the list stays well formed and, with the guard, stamped.
   */
  lemma FreePush(cfg: Config, m: Headers, pool: int, s: seq<int>, p: int)
    requires FreeList(cfg, m, pool, s) && p != NULL
    requires FirstBlock(cfg, pool) <= BlockOf(cfg, p) && BlockOf(cfg, p) !in s
    requires cfg.guard ==> Stamped(m, pool, s) && At(m, BlockOf(cfg, p)).magic == MAGIC
    ensures var o := FreeOp(cfg, m, pool, p);
      FreeList(cfg, o.mem, pool, [BlockOf(cfg, p)] + s)
      && (cfg.guard ==> Stamped(o.mem, pool, [BlockOf(cfg, p)] + s))
      && o.events == Bracket(cfg, pool, [])
  {
    var b := BlockOf(cfg, p);
    var o := FreeOp(cfg, m, pool, p);
    var t := [b] + s;
    assert b != pool;
    assert o.mem == m[b := At(m, b).(next := At(m, pool).next)][pool := At(m, pool).(next := b)];
    if cfg.guard {
      assert !FreeGuardFails(m, pool, b) by {
        if s != [] {
          assert At(m, pool).next == s[0];
        }
      }
    }
    forall k | 0 <= k < |s|
      ensures At(o.mem, s[k]) == At(m, s[k])
    {
      assert s[k] != pool && s[k] != b;
    }
    assert At(o.mem, b).next == At(m, pool).next;
    forall i | 0 <= i < |t|
      ensures At(o.mem, t[i]).next == (if i + 1 < |t| then t[i + 1] else NULL)
    {
      if i + 1 < |t| {
        assert t[i + 1] == s[i];
      }
      if i > 0 {
        assert t[i] == s[i - 1] && At(o.mem, s[i - 1]) == At(m, s[i - 1]);
        assert At(m, s[i - 1]).next == (if i < |s| then s[i] else NULL);
      } else {
        assert t[i] == b;
      }
    }
    assert At(o.mem, pool).next == t[0];
    assert FreeList(cfg, o.mem, pool, t);
    forall i, j | 0 <= i < j < |t|
      ensures t[i] != t[j]
    {
      assert t[j] == s[j - 1];
      if i > 0 {
        assert t[i] == s[i - 1];
      }
    }
    if cfg.guard {
      forall i | 0 <= i < |t|
        ensures At(o.mem, t[i]).magic == MAGIC
      {
        if i > 0 {
          assert t[i] == s[i - 1] && t[i] != pool && t[i] != b;
        }
      }
    }
  }

  /** The outcome of freeing the pointers `ps` in order. */
  function FreeRepeat(cfg: Config, m: Headers, pool: int, ps: seq<int>): (r: Headers)
    ensures forall a :: At(r, a).magic == At(m, a).magic
    decreases |ps|
  {
    if ps == [] then m else FreeRepeat(cfg, FreeOp(cfg, m, pool, ps[0]).mem, pool, ps[1..])
  }

  function Reversed(s: seq<int>): (r: seq<int>)
    ensures |r| == |s| && forall i :: 0 <= i < |s| ==> r[i] == s[|s| - 1 - i]
  {
    if s == [] then [] else Reversed(s[1..]) + [s[0]]
  }

  lemma ReversedPushFront(bs: seq<int>, s: seq<int>)
    requires bs != []
    ensures Reversed(bs[1..]) + ([bs[0]] + s) == Reversed(bs) + s
  {
    var r := Reversed(bs[1..]);
    assert Reversed(bs) == r + [bs[0]];
    AppendAssoc(r, [bs[0]], s);
  }

  lemma AppendAssoc(a: seq<int>, b: seq<int>, c: seq<int>)
    ensures (a + b) + c == a + (b + c)
  {
  }

  /**
   * The blocks `bs` can be freed one after the other onto the free list
   * `s`: they are aligned, not below the first block, distinct, not on the
   * list, and stamped with the guard.
   */
  ghost predicate Freeable(cfg: Config, m: Headers, pool: int, s: seq<int>, bs: seq<int>) {
    FreeList(cfg, m, pool, s)
    && (forall i :: 0 <= i < |bs| ==> Aligned(bs[i]) && FirstBlock(cfg, pool) <= bs[i] && bs[i] !in s)
    && (forall i, j :: 0 <= i < j < |bs| ==> bs[i] != bs[j])
    && (cfg.guard ==> Stamped(m, pool, s) && forall i :: 0 <= i < |bs| ==> At(m, bs[i]).magic == MAGIC)
  }

  /**
   * Freeing the payloads of blocks `bs` one after the other pushes each in
   * turn: the free list becomes `bs` reversed in front of the old list.
   */
  lemma {:induction false} FreeAllPushes(cfg: Config, m: Headers, pool: int, s: seq<int>, bs: seq<int>)
    requires Freeable(cfg, m, pool, s, bs)
    ensures var m' := FreeRepeat(cfg, m, pool, Payloads(cfg, bs));
      FreeList(cfg, m', pool, Reversed(bs) + s)
      && (cfg.guard ==> Stamped(m', pool, Reversed(bs) + s))
    decreases |bs|
  {
    if bs != [] {
      FreeFirstOfMany(cfg, m, pool, s, bs);
      FreeAllPushes(cfg, FreeOp(cfg, m, pool, PayloadOf(cfg, bs[0])).mem, pool, [bs[0]] + s, bs[1..]);
      assert Payloads(cfg, bs)[1..] == Payloads(cfg, bs[1..]);
      ReversedPushFront(bs, s);
    } else {
      assert Reversed(bs) + s == s;
    }
  }

  /** Freeing the first of `bs` pushes it, and the rest can still be freed onto the longer list. */
  lemma FreeFirstOfMany(cfg: Config, m: Headers, pool: int, s: seq<int>, bs: seq<int>)
    requires Freeable(cfg, m, pool, s, bs) && bs != []
    ensures Freeable(cfg, FreeOp(cfg, m, pool, PayloadOf(cfg, bs[0])).mem, pool, [bs[0]] + s, bs[1..])
  {
    var b := bs[0];
    var p := PayloadOf(cfg, b);
    PayloadRoundTrip(b, cfg.headerSize);
    assert BlockOf(cfg, p) == b;
    FreePush(cfg, m, pool, s, p);
    var m1 := FreeOp(cfg, m, pool, p).mem;
    assert forall a :: a != pool && a != b ==> At(m1, a) == At(m, a);
    var rest := bs[1..];
    forall i | 0 <= i < |rest|
      ensures rest[i] !in [b] + s
    {
      assert rest[i] == bs[i + 1];
    }
  }

  /**
   * Draining a pool, freeing every pointer it returned, and draining it
   * again yields the same number of blocks, in reverse order.
   */
  lemma DrainFreeDrain(cfg: Config, m: Headers, pool: int, s: seq<int>)
    requires FreeList(cfg, m, pool, s)
    requires cfg.guard ==> Stamped(m, pool, s)
    ensures var d1 := AllocRepeat(cfg, m, pool, |s|);
      var m2 := FreeRepeat(cfg, d1.mem, pool, d1.results);
      var d2 := AllocRepeat(cfg, m2, pool, |s|);
      d2.results == Reversed(d1.results)
      && AllocOp(cfg, d2.mem, pool).result == NULL
  {
    var d1 := AllocRepeat(cfg, m, pool, |s|);
    AllocDrain(cfg, m, pool, s, |s|);
    assert s[..|s|] == s && s[|s|..] == [];
    forall i | 0 <= i < |s|
      ensures s[i] !in []
    {
    }
    FreeAllPushes(cfg, d1.mem, pool, [], s);
    var m2 := FreeRepeat(cfg, d1.mem, pool, d1.results);
    assert Reversed(s) + [] == Reversed(s);
    AllocCapacity(cfg, m2, pool, Reversed(s));
    AllocDrain(cfg, m2, pool, Reversed(s), |s|);
    assert Reversed(s)[..|s|] == Reversed(s);
    var d2 := AllocRepeat(cfg, m2, pool, |s|);
    assert d2.results == Payloads(cfg, Reversed(s));
    PayloadsReversed(cfg, s);
  }

  lemma PayloadsReversed(cfg: Config, s: seq<int>)
    ensures Payloads(cfg, Reversed(s)) == Reversed(Payloads(cfg, s))
  {
    var l, r := Payloads(cfg, Reversed(s)), Reversed(Payloads(cfg, s));
    forall i | 0 <= i < |s|
      ensures l[i] == r[i]
    {
      PayloadsReversedAt(cfg, s, i);
    }
  }

  lemma PayloadsReversedAt(cfg: Config, s: seq<int>, i: int)
    requires 0 <= i < |s|
    ensures Payloads(cfg, Reversed(s))[i] == Reversed(Payloads(cfg, s))[i]
  {
    var k := |s| - 1 - i;
    assert Reversed(s)[i] == s[k];
    assert Reversed(Payloads(cfg, s))[i] == Payloads(cfg, s)[k];
  }

  // ----- Round trips -----

  /**
   * Freeing the payload of an aligned block at or above the first block and
   * then allocating returns that same pointer, and the pool header is as
   * it was before the free.
   */
  lemma FreeThenAlloc(cfg: Config, m: Headers, pool: int, b: int)
    requires pool > NULL && Aligned(b) && FirstBlock(cfg, pool) <= b
    requires cfg.guard ==> !FreeGuardFails(m, pool, b)
    ensures var p := PayloadOf(cfg, b);
      var f := FreeOp(cfg, m, pool, p);
      var a := AllocOp(cfg, f.mem, pool);
      a.result == p && At(a.mem, pool) == At(m, pool)
      && At(a.mem, b).next == At(m, pool).next
  {
    PayloadRoundTrip(b, cfg.headerSize);
  }

  /**
   * Allocating and then freeing the pointer returned puts back exactly the
   * headers there were before.
   */
  lemma AllocThenFree(cfg: Config, m: Headers, pool: int)
    requires pool > NULL && At(m, pool).next != NULL
    requires Aligned(At(m, pool).next) && FirstBlock(cfg, pool) <= At(m, pool).next
    requires cfg.guard ==> At(m, pool).magic == MAGIC && At(m, At(m, pool).next).magic == MAGIC
    requires cfg.guard && At(m, At(m, pool).next).next != NULL
             ==> At(m, At(m, At(m, pool).next).next).magic == MAGIC
    ensures var a := AllocOp(cfg, m, pool);
      var f := FreeOp(cfg, a.mem, pool, a.result);
      a.result != NULL && forall x :: At(f.mem, x) == At(m, x)
  {
    var b := At(m, pool).next;
    PayloadRoundTrip(b, cfg.headerSize);
  }

  /**
   * Nothing detects a double free: freeing the same pointer twice makes its
   * block the head and its own successor, a cycle in the free list.
   */
  lemma DoubleFreeMakesCycle(cfg: Config, m: Headers, pool: int, p: int)
    requires pool != NULL && p != NULL && FirstBlock(cfg, pool) <= BlockOf(cfg, p)
    requires cfg.guard ==> !FreeGuardFails(m, pool, BlockOf(cfg, p))
    ensures var m2 := FreeOp(cfg, FreeOp(cfg, m, pool, p).mem, pool, p).mem;
      At(m2, pool).next == BlockOf(cfg, p) && At(m2, BlockOf(cfg, p)).next == BlockOf(cfg, p)
  {
  }

  // ----- Lock pairing and the overflow hook -----

  /** Events of one call: one lock first and one unlock last when thread safe, at most one hook. */
  ghost predicate WellBracketed(cfg: Config, pool: int, e: seq<Event>) {
    (cfg.threadSafe ==> |e| >= 2 && e[0] == Lock(pool) && e[|e| - 1] == Unlock(pool)
                        && forall i :: 0 < i < |e| - 1 ==> e[i].OverflowHook?)
    && (!cfg.threadSafe ==> forall i :: 0 <= i < |e| ==> e[i].OverflowHook?)
    && |e| <= (if cfg.threadSafe then 3 else 1)
  }

  lemma BracketOfHooks(cfg: Config, pool: int, body: seq<Event>)
    requires |body| <= 1 && forall i :: 0 <= i < |body| ==> body[i].OverflowHook?
    ensures WellBracketed(cfg, pool, Bracket(cfg, pool, body))
  {
    if cfg.threadSafe {
      var e := Bracket(cfg, pool, body);
      forall i | 0 < i < |e| - 1
        ensures e[i].OverflowHook?
      {
        assert e[i] == body[i - 1];
      }
    }
  }

  /**
   * Every allocate call, the early exits included, locks once before and
   * unlocks once after, on the pool it was given, and calls the hook at most
   * once and only with the guard enabled.
   */
  lemma AllocLockPairing(cfg: Config, m: Headers, pool: int)
    ensures WellBracketed(cfg, pool, AllocOp(cfg, m, pool).events)
    ensures !cfg.guard ==> AllocOp(cfg, m, pool).events == Bracket(cfg, pool, [])
  {
    BracketOfHooks(cfg, pool, AllocBody(cfg, m, pool).events);
  }

  /** The same pairing for every free call. */
  lemma FreeLockPairing(cfg: Config, m: Headers, pool: int, p: int)
    ensures WellBracketed(cfg, pool, FreeOp(cfg, m, pool, p).events)
    ensures !cfg.guard ==> FreeOp(cfg, m, pool, p).events == Bracket(cfg, pool, [])
  {
    BracketOfHooks(cfg, pool, FreeBody(cfg, m, pool, p).events);
  }

  // ----- Overrun detection -----

  /**
   * With the guard, an overrun of the first allocated payload that wipes
   * the magic word of the next free block is reported exactly once by the
   * next allocate, with the pool address, and that allocate returns NULL.
   */
  lemma OverrunCaughtByAlloc(cfg: Config, m: Headers, pool: int, s: seq<int>, h: Header)
    requires cfg.guard && FreeList(cfg, m, pool, s) && Stamped(m, pool, s) && |s| >= 2
    requires h.magic != MAGIC
    ensures var a1 := AllocOp(cfg, m, pool);
      var a2 := AllocOp(cfg, a1.mem[s[1] := h], pool);
      a1.result != NULL && a2.result == NULL
      && a2.events == Bracket(cfg, pool, [OverflowHook(pool)])
  {
    AllocPop(cfg, m, pool, s);
    assert s[1] != pool;
  }

  /**
   * The same overrun is reported exactly once, with the freed pointer, by a
   * free of the overrun payload, and that free changes nothing.
   */
  lemma OverrunCaughtByFree(cfg: Config, m: Headers, pool: int, s: seq<int>, h: Header)
    requires cfg.guard && FreeList(cfg, m, pool, s) && Stamped(m, pool, s) && |s| >= 2
    requires h.magic != MAGIC
    ensures var a1 := AllocOp(cfg, m, pool);
      var mc := a1.mem[s[1] := h];
      var f := FreeOp(cfg, mc, pool, a1.result);
      f.mem == mc && f.events == Bracket(cfg, pool, [OverflowHook(a1.result)])
  {
    AllocPop(cfg, m, pool, s);
    assert s[1] != pool;
    PayloadRoundTrip(s[0], cfg.headerSize);
  }
}
