/** What the buddy bitmaps mean.  A pool of n pages is cut into aligned blocks of
    2^level pages.  A set of free pages F has exactly one canonical bitmap: the
    bit of a block is set iff the block is wholly free and its parent is not. */
module BuddySpec {
  import opened Levels

  predicate Between(lo: nat, p: nat, hi: nat) {
    lo <= p < hi
  }

  /** The pages lo, lo + 1, ..., hi - 1. */
  ghost function Range(lo: nat, hi: nat): (s: set<nat>)
    ensures forall p: nat :: p in s <==> lo <= p < hi
  {
    set p: nat | lo <= p < hi && Between(lo, p, hi)
  }

  datatype Block = Block(level: nat, offset: nat)

  /** The pages [offset * 2^level, (offset + 1) * 2^level) of a block. */
  ghost function Pages(b: Block): (s: set<nat>)
    ensures forall p: nat {:trigger Shr(p, b.level)} :: p in s <==> Shr(p, b.level) == b.offset
  {
    PagesExist(b);
    var s :| IsPages(s, b);
    s
  }

  ghost predicate IsPages(s: set<nat>, b: Block) {
    forall p: nat {:trigger Shr(p, b.level)} :: p in s <==> Shr(p, b.level) == b.offset
  }

  lemma PagesExist(b: Block)
    ensures exists s :: IsPages(s, b)
  {
    var s := Range(Shl(b.offset, b.level), Shl(b.offset + 1, b.level));
    forall p: nat ensures p in s <==> Shr(p, b.level) == b.offset {
      ShrShl(p, b.level, b.offset);
    }
    assert IsPages(s, b);
  }

  function Parent(b: Block): Block {
    Block(b.level + 1, b.offset / 2)
  }

  function Buddy(b: Block): Block {
    Block(b.level, if b.offset % 2 == 0 then b.offset + 1 else b.offset - 1)
  }

  function First(b: Block): nat {
    Shl(b.offset, b.level)
  }

  ghost predicate Free(F: set<nat>, b: Block) {
    Pages(b) <= F
  }

  ghost predicate Maximal(F: set<nat>, b: Block) {
    Free(F, b) && !Free(F, Parent(b))
  }

  /** `marked` is the set of blocks whose bit is set. */
  ghost predicate Canonical(marked: set<Block>, F: set<nat>) {
    forall b {:trigger b in marked} :: b in marked <==> Maximal(F, b)
  }

  ghost function PoolPages(n: nat): set<nat> {
    Range(0, n)
  }

  // ----- geometry of blocks

  lemma FirstInside(b: Block)
    ensures First(b) in Pages(b)
  {
    ShlIsMul(b.offset, b.level);
    ShrFirst(b.level, b.offset);
  }

  lemma ParentPages(b: Block)
    ensures Pages(Parent(b)) == Pages(b) + Pages(Buddy(b))
    ensures Pages(b) !! Pages(Buddy(b))
  {
    forall p: nat ensures p in Pages(Parent(b)) <==> p in Pages(b) + Pages(Buddy(b)) {
      assert Shr(p, b.level + 1) == Shr(p, b.level) / 2;
    }
    forall p | p in Pages(b) ensures p !in Pages(Buddy(b)) {
      assert Shr(p, b.level) == b.offset;
    }
  }

  /** A block disjoint from the free pages is not marked, and its buddy is marked iff it is free. */
  lemma HoleNotMarked(marked: set<Block>, F: set<nat>, b: Block)
    requires Canonical(marked, F) && Pages(b) !! F
    ensures b !in marked && (Buddy(b) in marked <==> Free(F, Buddy(b)))
  {
    FirstInside(b);
    ParentPages(Buddy(b));
    assert Buddy(Buddy(b)) == b;
  }

  lemma {:induction false} PagesCount(b: Block)
    ensures |Pages(b)| == Pow2(b.level)
    decreases b.level
  {
    if b.level == 0 {
      forall p: nat ensures p in Pages(b) <==> p == b.offset { assert Shr(p, 0) == p; }
      assert Pages(b) == {b.offset};
    } else {
      var l := Block(b.level - 1, 2 * b.offset);
      ParentPages(l);
      PagesCount(l);
      PagesCount(Buddy(l));
    }
  }

  predicate Within(c: Block, b: Block) {
    c.level <= b.level && Shr(c.offset, b.level - c.level) == b.offset
  }

  /** Two blocks are nested or disjoint. */
  lemma Nested(c: Block, b: Block)
    requires c.level <= b.level
    ensures Within(c, b) ==> Pages(c) <= Pages(b)
    ensures !Within(c, b) ==> Pages(c) !! Pages(b)
  {
    forall p | p in Pages(c)
      ensures p in Pages(b) <==> Within(c, b)
    {
      ShrAdd(p, c.level, b.level - c.level);
    }
  }

  lemma WithinParent(c: Block, b: Block)
    requires Within(c, b) && c.level < b.level
    ensures Within(Parent(c), b) && Within(c, Parent(c))
  {
    assert Shr(c.offset, 1) == c.offset / 2 by { assert Shr(c.offset, 0) == c.offset; }
    ShrAdd(c.offset, 1, b.level - c.level - 1);
  }

  lemma ParentWithin(c: Block, b: Block)
    requires Within(Parent(c), b)
    ensures Within(c, b) && c != b
  {
    assert Shr(c.offset, 1) == c.offset / 2 by { assert Shr(c.offset, 0) == c.offset; }
    ShrAdd(c.offset, 1, b.level - c.level - 1);
  }

  lemma SelfParent(b: Block)
    ensures Within(b, b) && Within(b, Parent(b))
  {
    assert Shr(b.offset, 0) == b.offset;
    assert Shr(b.offset, 1) == b.offset / 2;
  }

  // ----- a block that is free in a bigger set

  lemma FreeDown(F: set<nat>, c: Block, b: Block)
    requires Within(c, b) && Free(F, b)
    ensures Free(F, c)
  {
    Nested(c, b);
  }

  /** Adding the free block b does not change the freeness of blocks around it. */
  lemma FreeAfterAdd(G: set<nat>, b: Block, c: Block)
    requires Pages(b) !! G && !Free(G, Buddy(b))
    ensures Free(G + Pages(b), c) <==> Free(G, c) || Within(c, b)
    ensures Within(c, b) ==> !Free(G, c)
  {
    if c.level <= b.level {
      Nested(c, b);
      FirstInside(c);
    } else {
      Nested(b, c);
      FirstInside(b);
      if Within(b, c) {
        WithinParent(b, c);
        Nested(Parent(b), c);
        ParentPages(b);
      }
    }
  }

  /** Setting one bit is all it takes to return a block whose buddy is not free. */
  lemma CanonicalAdd(G: set<nat>, b: Block, marked: set<Block>)
    requires Canonical(marked, G)
    requires Pages(b) !! G && !Free(G, Buddy(b))
    ensures Canonical(marked + {b}, G + Pages(b))
  {
    ParentPages(b);
    forall c ensures c in marked + {b} <==> Maximal(G + Pages(b), c) {
      FreeAfterAdd(G, b, c);
      FreeAfterAdd(G, b, Parent(c));
      SelfParent(c);
      if c.level < b.level && Within(c, b) {
        WithinParent(c, b);
      }
      if Within(Parent(c), b) {
        ParentWithin(c, b);
      }
    }
  }

  /** Clearing one bit is all it takes to hand out a marked block. */
  lemma CanonicalRemove(H: set<nat>, b: Block, marked: set<Block>)
    requires Canonical(marked, H) && b in marked
    ensures Canonical(marked - {b}, H - Pages(b))
  {
    var G := H - Pages(b);
    ParentPages(b);
    assert !Free(G, Buddy(b));
    assert G + Pages(b) == H;
    forall c ensures c in marked - {b} <==> Maximal(G, c) {
      FreeAfterAdd(G, b, c);
      FreeAfterAdd(G, b, Parent(c));
      SelfParent(c);
      if c.level < b.level && Within(c, b) {
        WithinParent(c, b);
      }
      if Within(Parent(c), b) {
        ParentWithin(c, b);
      }
    }
  }

  /** Splitting: the hole shrinks from block b to its left half, the right half becomes free. */
  lemma CanonicalSplit(F: set<nat>, b: Block, marked: set<Block>)
    requires b.level > 0 && Free(F, b) && Canonical(marked, F - Pages(b))
    ensures var l := Block(b.level - 1, 2 * b.offset);
            var r := Block(b.level - 1, 2 * b.offset + 1);
            && Free(F, l) && Free(F, r) && l !in marked
            && First(l) == First(b)
            && Canonical(marked + {r}, F - Pages(l))
  {
    var l := Block(b.level - 1, 2 * b.offset);
    var r := Block(b.level - 1, 2 * b.offset + 1);
    ParentPages(l);
    FirstInside(l);
    FirstInside(r);
    var G := F - Pages(b);
    CanonicalAdd(G, r, marked);
    assert G + Pages(r) == F - Pages(l);
    ShlDouble(b.offset, b.level);
  }

  /** Merging: a hole b whose buddy is marked is the same hole as its parent, once the
      buddy is unmarked. */
  lemma CanonicalMerge(G: set<nat>, b: Block, marked: set<Block>)
    requires Canonical(marked, G) && Pages(b) !! G && Buddy(b) in marked
    ensures var G' := G - Pages(Buddy(b));
            && Canonical(marked - {Buddy(b)}, G')
            && Pages(Parent(b)) !! G'
            && G' + Pages(Parent(b)) == G + Pages(b)
  {
    ParentPages(b);
    CanonicalRemove(G, Buddy(b), marked);
  }

  /** Two canonical bitmaps of the same free set are equal. */
  lemma CanonicalUnique(m1: set<Block>, m2: set<Block>, F: set<nat>)
    requires Canonical(m1, F) && Canonical(m2, F)
    ensures m1 == m2
  {
    forall b ensures b in m1 <==> b in m2 { assert Maximal(F, b) || !Maximal(F, b); }
  }

  // ----- bounds

  /** The blocks of level i that fit in a pool of n pages are those with offset below n >> i. */
  lemma {:induction false} FitsPool(n: nat, b: Block)
    ensures Free(PoolPages(n), b) <==> b.offset < Shr(n, b.level)
  {
    var last := Shl(b.offset + 1, b.level);
    var q := Shr(n, b.level);
    ShrShl(n, b.level, q);
    if b.offset < q {
      ShlMono(b.offset + 1, q, b.level);
      forall p | p in Pages(b) ensures p < n { ShrShl(p, b.level, b.offset); }
    } else {
      ShlMono(q + 1, b.offset + 1, b.level);
      FirstInside(b);
      ShlStrict(b.offset, b.level);
      ShrShl(last - 1, b.level, b.offset);
      assert last - 1 in Pages(b);
    }
  }

  lemma {:induction false} ShlMono(x: nat, y: nat, i: nat)
    requires x <= y
    ensures Shl(x, i) <= Shl(y, i)
  {
    if i > 0 { ShlMono(x, y, i - 1); }
  }

  lemma {:induction false} ShlStrict(x: nat, i: nat)
    ensures Shl(x, i) < Shl(x + 1, i)
  {
    if i > 0 { ShlStrict(x, i - 1); }
  }

  lemma FreeBounded(n: nat, F: set<nat>, b: Block)
    requires F <= PoolPages(n) && Free(F, b)
    ensures b.offset < Shr(n, b.level)
  {
    assert Free(PoolPages(n), b);
    FitsPool(n, b);
  }

  /** Every free block lies inside a marked one. */
  lemma {:induction false} MaximalAncestor(n: nat, F: set<nat>, b: Block) returns (c: Block)
    requires F <= PoolPages(n) && Free(F, b)
    ensures Maximal(F, c) && Within(b, c)
    decreases Shr(n, b.level)
  {
    FreeBounded(n, F, b);
    SelfParent(b);
    c := b;
    if Free(F, Parent(b)) {
      c := MaximalAncestor(n, F, Parent(b));
      ShrAdd(b.offset, 1, c.level - b.level - 1);
    }
  }

  /** Marked blocks never overlap. */
  lemma MaximalDisjoint(F: set<nat>, b: Block, c: Block)
    requires Maximal(F, b) && Maximal(F, c) && b != c
    ensures Pages(b) !! Pages(c)
    decreases b.level > c.level
  {
    if b.level <= c.level {
      Nested(b, c);
      if Within(b, c) {
        assert Shr(b.offset, 0) == b.offset;
        WithinParent(b, c);
        FreeDown(F, Parent(b), c);
      }
    } else {
      MaximalDisjoint(F, c, b);
    }
  }

  // ----- the live blocks

  /** A live block is recorded at its first page, with its level. */
  ghost function LiveBlock(p: nat, level: nat): Block {
    Block(level, Shr(p, level))
  }

  ghost predicate LiveOk(n: nat, live: map<nat, nat>) {
    && (forall p {:trigger LiveBlock(p, live[p])} :: p in live ==>
          First(LiveBlock(p, live[p])) == p && Pages(LiveBlock(p, live[p])) <= PoolPages(n))
    && (forall p, q {:trigger Pages(LiveBlock(p, live[p])), Pages(LiveBlock(q, live[q]))} ::
          p in live && q in live && p != q ==> Pages(LiveBlock(p, live[p])) !! Pages(LiveBlock(q, live[q])))
  }

  ghost function FreePages(n: nat, live: map<nat, nat>): set<nat> {
    set p | p in PoolPages(n) && forall q :: q in live ==> p !in Pages(LiveBlock(q, live[q]))
  }

  lemma LiveAdd(n: nat, live: map<nat, nat>, b: Block)
    requires LiveOk(n, live) && Free(FreePages(n, live), b)
    ensures First(b) !in live && LiveBlock(First(b), b.level) == b
    ensures LiveOk(n, live[First(b) := b.level])
    ensures FreePages(n, live[First(b) := b.level]) == FreePages(n, live) - Pages(b)
  {
    FirstInside(b);
    var p := First(b);
    assert LiveBlock(p, b.level) == b;
    assert p !in live by {
      if p in live { FirstInside(LiveBlock(p, live[p])); }
    }
    var live' := live[p := b.level];
    assert forall q :: q in live' <==> q in live || q == p;
    assert forall q :: q in live ==> live'[q] == live[q];
    assert forall q :: q in live ==> Pages(LiveBlock(q, live[q])) !! Pages(b);
    assert FreePages(n, live') == FreePages(n, live) - Pages(b);
  }

  lemma LiveRemove(n: nat, live: map<nat, nat>, p: nat)
    requires LiveOk(n, live) && p in live
    ensures LiveOk(n, live - {p})
    ensures Pages(LiveBlock(p, live[p])) !! FreePages(n, live)
    ensures FreePages(n, live - {p}) == FreePages(n, live) + Pages(LiveBlock(p, live[p]))
  {
    var b := LiveBlock(p, live[p]);
    var live' := live - {p};
    assert forall q :: q in live' <==> q in live && q != p;
    assert forall q :: q in live' ==> live'[q] == live[q];
    forall x: nat ensures x in FreePages(n, live') <==> x in FreePages(n, live) + Pages(b) {
      if x in Pages(b) {
        assert x in PoolPages(n);
        assert forall q :: q in live' ==> Pages(LiveBlock(q, live[q])) !! Pages(b);
      }
    }
  }

  // ----- one allocation

  /** The block an allocation of level k takes: the leftmost part of the first
      marked block of the lowest level that has one. */
  ghost predicate FirstFit(marked: set<Block>, k: nat, b: Block) {
    && b in marked && k <= b.level
    && (forall c :: c in marked && k <= c.level ==> b.level <= c.level)
    && (forall c :: c in marked && c.level == b.level ==> b.offset <= c.offset)
  }

  ghost predicate AllocStep(marked: set<Block>, live: map<nat, nat>, k: nat, b: Block, live': map<nat, nat>) {
    FirstFit(marked, k, b) && First(b) !in live && live' == live[First(b) := k]
  }
}
