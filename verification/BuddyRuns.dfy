/** What holds over every run of the allocator, whatever the order of calls. */
module BuddyRuns {
  import opened Levels
  import opened BuddyBits
  import opened BuddySpec
  import opened BuddyPool

  /** One call, seen from the live blocks: a successful allocation, a successful release, or a refusal. */
  ghost predicate Step(n: nat, live: map<nat, nat>, live': map<nat, nat>) {
    || live' == live
    || (exists p :: p in live && live' == live - {p})
    || (exists m, k: nat, b :: k <= 18 && Canonical(m, FreePages(n, live)) && AllocStep(m, live, k, b, live'))
  }

  ghost predicate Run(n: nat, run: seq<map<nat, nat>>) {
    && run != [] && run[0] == map[]
    && (forall i :: 0 <= i < |run| - 1 ==> StepAt(n, run, i))
  }

  ghost predicate StepAt(n: nat, run: seq<map<nat, nat>>, i: int)
    requires 0 <= i < |run| - 1
  {
    Step(n, run[i], run[i + 1])
  }

  /** The calls of the class are steps, so runs of calls are runs. */
  lemma AllocIsStep(n: nat, marked: set<Block>, live: map<nat, nat>, size: nat, b: Block, live': map<nat, nat>)
    requires size <= MAX_REQUEST && Canonical(marked, FreePages(n, live))
    requires AllocStep(marked, live, LevelOf(size), b, live')
    ensures Step(n, live, live')
  {
    SupportedLevel(size);
  }

  /** The part of a larger block that an allocation takes is an aligned block of its own. */
  lemma TakenBlock(n: nat, live: map<nat, nat>, m: set<Block>, k: nat, b: Block, live': map<nat, nat>)
    requires LiveOk(n, live) && Canonical(m, FreePages(n, live)) && AllocStep(m, live, k, b, live')
    ensures LiveOk(n, live')
    ensures Pages(LiveBlock(First(b), k)) <= Pages(b)
    ensures FreePages(n, live') == FreePages(n, live) - Pages(LiveBlock(First(b), k))
  {
    var c := LeftPart(b, k);
    FreeDown(FreePages(n, live), c, b);
    LiveAdd(n, live, c);
    Nested(c, b);
  }

  lemma {:induction false} LeftPart(b: Block, k: nat) returns (c: Block)
    requires k <= b.level
    ensures c.level == k && Within(c, b) && First(c) == First(b)
    decreases b.level
  {
    c := b;
    assert Shr(b.offset, 0) == b.offset;
    if k < b.level {
      var l := Block(b.level - 1, 2 * b.offset);
      c := LeftPart(l, k);
      ShlDouble(b.offset, b.level);
      assert Shr(l.offset, 1) == b.offset by { assert Shr(l.offset, 0) == l.offset; }
      ShrAdd(c.offset, l.level - k, 1);
    }
  }

  lemma StepKeepsLive(n: nat, live: map<nat, nat>, live': map<nat, nat>)
    requires LiveOk(n, live) && Step(n, live, live')
    ensures LiveOk(n, live')
  {
    if p :| p in live && live' == live - {p} {
      LiveRemove(n, live, p);
    } else if m, k: nat, b :|
      k <= 18 && Canonical(m, FreePages(n, live)) && AllocStep(m, live, k, b, live') {
      TakenBlock(n, live, m, k, b, live');
    }
  }

  /** In every state of every run the live blocks are aligned, disjoint and inside the pool. */
  lemma {:induction false} RunKeepsLive(n: nat, run: seq<map<nat, nat>>, i: nat)
    requires Run(n, run) && i < |run|
    ensures LiveOk(n, run[i])
  {
    if i > 0 {
      RunKeepsLive(n, run, i - 1);
      assert StepAt(n, run, i - 1);
      StepKeepsLive(n, run[i - 1], run[i]);
    }
  }

  /** The blocks of a state: the marked ones and the live ones. */
  ghost predicate IsBlock(live: map<nat, nat>, m: set<Block>, b: Block) {
    b in m || exists q :: q in live && b == LiveBlock(q, live[q])
  }

  lemma BlocksDisjoint(n: nat, live: map<nat, nat>, m: set<Block>, b: Block, c: Block)
    requires LiveOk(n, live) && Canonical(m, FreePages(n, live))
    requires IsBlock(live, m, b) && IsBlock(live, m, c) && b != c
    ensures Pages(b) !! Pages(c)
  {
    if b in m && c in m {
      MaximalDisjoint(FreePages(n, live), b, c);
    } else if b in m {
      assert Free(FreePages(n, live), b);
    } else if c in m {
      assert Free(FreePages(n, live), c);
    }
  }

  lemma BlockOfPage(n: nat, live: map<nat, nat>, m: set<Block>, p: nat) returns (b: Block)
    requires LiveOk(n, live) && Canonical(m, FreePages(n, live)) && p < n
    ensures IsBlock(live, m, b) && p in Pages(b)
  {
    var F := FreePages(n, live);
    assert p in PoolPages(n);
    if p in F {
      var page := Block(0, p);
      assert Free(F, page) by {
        forall q | q in Pages(page) ensures q == p { assert Shr(q, 0) == q; }
      }
      b := MaximalAncestor(n, F, page);
      assert b in m;
      Nested(page, b);
      assert Shr(p, 0) == p;
    } else {
      var q :| q in live && p in Pages(LiveBlock(q, live[q]));
      b := LiveBlock(q, live[q]);
    }
  }

  ghost predicate Covered(live: map<nat, nat>, m: set<Block>, p: nat) {
    exists b :: IsBlock(live, m, b) && p in Pages(b)
  }

  /** Partition: every page of the pool lies in exactly one block, marked or live, and no block
      reaches outside the pool. */
  lemma Partition(n: nat, live: map<nat, nat>, m: set<Block>)
    requires LiveOk(n, live) && Canonical(m, FreePages(n, live))
    ensures forall p: nat :: p < n <==> Covered(live, m, p)
    ensures forall b, c :: IsBlock(live, m, b) && IsBlock(live, m, c) && b != c ==> Pages(b) !! Pages(c)
    ensures forall b :: IsBlock(live, m, b) ==> Pages(b) <= PoolPages(n)
  {
    forall p: nat | p < n ensures Covered(live, m, p) {
      var b := BlockOfPage(n, live, m, p);
    }
    forall b, c | IsBlock(live, m, b) && IsBlock(live, m, c) && b != c ensures Pages(b) !! Pages(c) {
      BlocksDisjoint(n, live, m, b, c);
    }
    forall b | IsBlock(live, m, b) ensures Pages(b) <= PoolPages(n) {
      if b in m { assert Free(FreePages(n, live), b); }
    }
  }

  /** In every state of every run, allocated and free blocks tile the pool. */
  lemma EveryRun(n: nat, run: seq<map<nat, nat>>, i: nat, m: set<Block>)
    requires Run(n, run) && i < |run| && Canonical(m, FreePages(n, run[i]))
    ensures forall p: nat :: p < n <==> Covered(run[i], m, p)
    ensures forall b, c :: IsBlock(run[i], m, b) && IsBlock(run[i], m, c) && b != c ==> Pages(b) !! Pages(c)
    ensures forall b :: IsBlock(run[i], m, b) ==> Pages(b) <= PoolPages(n)
  {
    RunKeepsLive(n, run, i);
    Partition(n, run[i], m);
  }

  /** Only the first page of a live block is recorded: the others read 0xFF. */
  lemma InteriorNotRecorded(n: nat, live: map<nat, nat>, q: nat, p: nat)
    requires LiveOk(n, live) && q in live && p in Pages(LiveBlock(q, live[q])) && p != q
    ensures p !in live
  {
    if p in live {
      FirstInside(LiveBlock(p, live[p]));
    }
  }

  /** Full coalescing: no block and its buddy are ever both marked. */
  lemma NoFreeBuddies(m: set<Block>, F: set<nat>, b: Block)
    requires Canonical(m, F)
    ensures !(b in m && Buddy(b) in m)
  {
    ParentPages(b);
  }

  // ----- releasing everything

  ghost function ReleaseAll(live: map<nat, nat>, order: seq<nat>): map<nat, nat> {
    if order == [] then live else ReleaseAll(live - {order[0]}, order[1..])
  }

  lemma {:induction false} ReleaseAllKeys(live: map<nat, nat>, order: seq<nat>)
    ensures ReleaseAll(live, order).Keys == live.Keys - set p | p in order
  {
    if order != [] {
      ReleaseAllKeys(live - {order[0]}, order[1..]);
      assert forall p :: p in order <==> p == order[0] || p in order[1..];
    }
  }

  /** A pool without live blocks holds byte for byte the bitmaps, counts and index that
      initialisation built. */
  lemma EmptyPoolIsInitial(pool: Pool)
    requires pool.Valid() && pool.live == map[]
    ensures pool.marked == InitMarks(pool.smallestBlock, pool.maxLevel)
    ensures pool.usedSize == 0
    ensures forall i: nat :: i < pool.maxLevel ==> pool.count[i] == Shr(pool.smallestBlock, i) % 2
    ensures forall i: nat, x: nat :: i < pool.maxLevel && x < pool.bytes[i] ==>
              pool.bits[pool.base[i] + x] == InitByte(Shr(pool.smallestBlock, i), x)
  {
    var n := pool.smallestBlock;
    assert FreePages(n, map[]) == PoolPages(n);
    InitMarksCanonical(n, pool.maxLevel);
    CanonicalUnique(pool.marked, InitMarks(n, pool.maxLevel), PoolPages(n));
    PoolCount(n);
    InitCounts(n, pool.maxLevel);
    forall i: nat | i < pool.maxLevel ensures pool.count[i] == Shr(n, i) % 2 {
      assert pool.count[..][i] == |OfLevel(pool.marked, i)|;
    }
    forall i: nat, x: nat | i < pool.maxLevel && x < pool.bytes[i]
      ensures pool.bits[pool.base[i] + x] == InitByte(Shr(n, i), x)
    {
      InitialByte(pool, pool.bits[..], i, x);
    }
  }

  lemma InitialByte(pool: Pool, s: seq<bv8>, i: nat, x: nat)
    requires pool.Layout() && |s| == pool.bits.Length && LevelCount(pool.smallestBlock, pool.maxLevel)
    requires pool.BitsMatch(s, InitMarks(pool.smallestBlock, pool.maxLevel))
    requires i < pool.maxLevel && x < pool.bytes[i]
    ensures s[pool.base[i] + x] == InitByte(Shr(pool.smallestBlock, i), x)
  {
    var b, c := s[pool.base[i] + x], InitByte(Shr(pool.smallestBlock, i), x);
    forall j: nat | j < 8 ensures TestBit(b, j) <==> TestBit(c, j) {
      InitialBit(pool, s, i, x, j);
    }
    SameBits(b, c);
  }

  lemma InitialBit(pool: Pool, s: seq<bv8>, i: nat, x: nat, j: nat)
    requires pool.Layout() && |s| == pool.bits.Length && LevelCount(pool.smallestBlock, pool.maxLevel)
    requires pool.BitsMatch(s, InitMarks(pool.smallestBlock, pool.maxLevel))
    requires i < pool.maxLevel && x < pool.bytes[i] && j < 8
    ensures TestBit(s[pool.base[i] + x], j) <==> TestBit(InitByte(Shr(pool.smallestBlock, i), x), j)
  {
    var o := 8 * x + j;
    DivUnique(o, 8, x);
    assert o % 8 == j;
    assert pool.BitIn(s, i, o) <==> Block(i, o) in InitMarks(pool.smallestBlock, pool.maxLevel);
    InitMarksCanonical(pool.smallestBlock, pool.maxLevel);
    InitByteBit(Shr(pool.smallestBlock, i), o);
  }

  /** Releasing every live block, in any order, leads back to the initial bitmaps. */
  lemma DrainRestores(n: nat, levels: nat, live: map<nat, nat>, order: seq<nat>, m: set<Block>)
    requires LevelCount(n, levels) && (forall p :: p in live ==> p in order)
    requires Canonical(m, FreePages(n, ReleaseAll(live, order)))
    ensures ReleaseAll(live, order) == map[] && m == InitMarks(n, levels)
  {
    ReleaseAllKeys(live, order);
    assert ReleaseAll(live, order).Keys == {};
    assert FreePages(n, map[]) == PoolPages(n);
    InitMarksCanonical(n, levels);
    CanonicalUnique(m, InitMarks(n, levels), PoolPages(n));
  }
}
