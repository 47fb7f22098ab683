/** The buddy allocator of the kernel heap and of the shared-memory area.  The two
    copies differ only in the pool they manage, so one class models both. */
module BuddyPool {
  import opened Levels
  import opened BuddyBits
  import opened BuddySpec

  newtype Byte = x: int | 0 <= x < 256

  const NOT_ASSIGNED: Byte := 0xFF
  const MAX_REQUEST: nat := 0x4000_0000

  /** `4096 << i` as a 32-bit int, for the shifts that do not overflow. */
  function PageShift(i: nat): nat
    requires i <= 18
  {
    4096 * Pow2(i)
  }

  ghost function OfLevel(marked: set<Block>, i: nat): set<Block> {
    set b | b in marked && b.level == i
  }

  lemma OfLevelAdd(m: set<Block>, b: Block)
    ensures |OfLevel(m + {b}, b.level)| == |OfLevel(m, b.level)| + if b in m then 0 else 1
    ensures forall j: nat :: j != b.level ==> OfLevel(m + {b}, j) == OfLevel(m, j)
  {
    assert OfLevel(m + {b}, b.level) == OfLevel(m, b.level) + {b};
    if b in m { assert m + {b} == m; }
  }

  lemma OfLevelRemove(m: set<Block>, b: Block)
    ensures |OfLevel(m, b.level)| == |OfLevel(m - {b}, b.level)| + if b in m then 1 else 0
    ensures forall j: nat :: j != b.level ==> OfLevel(m - {b}, j) == OfLevel(m, j)
  {
    assert OfLevel(m - {b}, b.level) == OfLevel(m, b.level) - {b};
  }

  lemma WindowStart(w: nat, o: nat)
    requires 64 * w <= o
    ensures 64 * w <= 8 * (o / 8) <= o
  {
    var y := o / 8;
    assert o == 8 * y + o % 8;
    assert 8 * w <= y;
  }

  ghost predicate ByteClear(m: set<Block>, i: nat, y: nat) {
    forall o: nat :: o / 8 == y ==> Block(i, o) !in m
  }

  ghost predicate ClearBelow(m: set<Block>, i: nat, o: nat) {
    forall q: nat :: q < o ==> Block(i, q) !in m
  }

  ghost function InitMarks(n: nat, levels: nat): set<Block> {
    set j: nat | j < levels && Shr(n, j) % 2 == 1 :: Block(j, Shr(n, j) - 1)
  }

  /** The initial marks are the canonical bitmaps of a pool that is wholly free: the
      binary digits of n tile the pages 0 .. n - 1. */
  lemma InitMarksCanonical(n: nat, levels: nat)
    requires LevelCount(n, levels)
    ensures Canonical(InitMarks(n, levels), PoolPages(n))
    ensures forall b :: b in InitMarks(n, levels) <==>
              b.offset == Shr(n, b.level) - 1 && Shr(n, b.level) % 2 == 1
  {
    forall b ensures Maximal(PoolPages(n), b) <==> b.offset == Shr(n, b.level) - 1 && Shr(n, b.level) % 2 == 1 {
      FitsPool(n, b);
      FitsPool(n, Parent(b));
      assert Shr(n, b.level + 1) == Shr(n, b.level) / 2;
    }
    forall b ensures b in InitMarks(n, levels) <==>
              b.offset == Shr(n, b.level) - 1 && Shr(n, b.level) % 2 == 1
    {
      if b.level >= levels { ShrDecreasing(n, levels, b.level); }
    }
  }

  lemma InitCounts(n: nat, levels: nat)
    ensures forall i: nat :: i < levels ==> |OfLevel(InitMarks(n, levels), i)| == Shr(n, i) % 2
  {
    forall i: nat | i < levels ensures |OfLevel(InitMarks(n, levels), i)| == Shr(n, i) % 2 {
      assert OfLevel(InitMarks(n, levels), i) ==
             if Shr(n, i) % 2 == 1 then {Block(i, Shr(n, i) - 1)} else {};
    }
  }

  /** `bitmap_size` rounded up to 512 pages. */
  method MetadataSize(freeMemSize: nat) returns (pages: nat)
    requires freeMemSize / 4096 < 0x8000_0000
    ensures pages == MetaPages(freeMemSize / 4096)
  {
    pages := BitmapSize(freeMemSize);
    pages := (pages + 511) / 512 * 512;
  }

  method CountLevels(n: nat) returns (levels: nat)
    ensures levels == BitLen(n) && LevelCount(n, levels)
  {
    BitLenCounts(n);
    levels := 0;
    while Shr(n, levels) > 0
      invariant levels <= BitLen(n)
      decreases BitLen(n) - levels
    {
      levels := levels + 1;
    }
  }

  /** The bitmap of level i is that of an empty pool. */
  ghost predicate LevelInit(s: seq<bv8>, n: nat, i: nat) {
    && SumBytes(n, i + 1) <= |s|
    && (forall y: nat :: SumBytes(n, i) <= y < SumBytes(n, i + 1) ==> s[y] == InitByte(Shr(n, i), y - SumBytes(n, i)))
  }

  /** Lays out one bitmap per level, clears it and marks the odd last block. */
  method InitBitmaps(n: nat, levels: nat) returns (bits: array<bv8>, base: seq<nat>, count: array<nat>)
    ensures fresh(bits) && fresh(count) && bits as object != count
    ensures bits.Length == SumBytes(n, levels) && |base| == count.Length == levels
    ensures forall i: nat {:trigger base[i]} :: i < levels ==> base[i] == SumBytes(n, i)
    ensures forall i: nat {:trigger count[i]} :: i < levels ==> count[i] == Shr(n, i) % 2
    ensures forall i: nat :: i < levels ==> LevelInit(bits[..], n, i)
  {
    bits := new bv8[SumBytes(n, levels)];
    count := new nat[levels];
    base := [];
    var cur := 0;
    for j := 0 to levels
      invariant bits as object != count && cur == SumBytes(n, j) && |base| == j
      invariant forall i: nat {:trigger base[i]} :: i < j ==> base[i] == SumBytes(n, i)
      invariant forall i: nat {:trigger count[i]} :: i < j ==> count[i] == Shr(n, i) % 2
      invariant forall i: nat :: i < j ==> LevelInit(bits[..], n, i)
    {
      base := base + [cur];
      SumBytesMono(n, j, levels);
      ghost var was := bits[..];
      count[j] := Shr(n, j) % 2;
      InitLevel(bits, cur, Shr(n, j));
      NextLevel(was, bits[..], n, j);
      cur := cur + LevelBytes(n, j);
    }
  }

  lemma NextLevel(s: seq<bv8>, s': seq<bv8>, n: nat, j: nat)
    requires |s| == |s'| && SumBytes(n, j + 1) <= |s|
    requires forall i: nat :: i < j ==> LevelInit(s, n, i)
    requires forall y :: 0 <= y < SumBytes(n, j) ==> s'[y] == s[y]
    requires LevelInit(s', n, j)
    ensures forall i: nat :: i < j + 1 ==> LevelInit(s', n, i)
  {
    forall i: nat | i < j ensures LevelInit(s', n, i) {
      assert LevelInit(s, n, i);
      SumBytesMono(n, i, j);
    }
  }

  /** Clears the bitmap of a level with m blocks and marks its last block when m is odd. */
  method InitLevel(bits: array<bv8>, at: nat, m: nat)
    requires at + (m + 7) / 8 <= bits.Length
    modifies bits
    ensures forall y :: at <= y < at + (m + 7) / 8 ==> bits[y] == InitByte(m, y - at)
    ensures forall y :: 0 <= y < at ==> bits[y] == old(bits[y])
  {
    for i := 0 to m / 8
      invariant forall y :: at <= y < at + i ==> bits[y] == 0
      invariant forall y :: 0 <= y < at ==> bits[y] == old(bits[y])
    {
      bits[at + i] := 0;
    }
    if m % 8 != 0 {
      bits[at + m / 8] := 0;
      var i := m % 8;
      if i % 2 == 1 {
        bits[at + m / 8] := bits[at + m / 8] | Mask(i - 1);
      }
    }
    InitBytes(m);
  }

  class Pool {
    const smallestBlock: nat      // pages in the pool
    const maxLevel: nat
    const startAddr: nat
    const endAddr: nat
    const base: seq<nat>          // where each level's bitmap starts in `bits`
    const bits: array<bv8>        // the bitmaps of all levels, back to back
    const count: array<nat>       // set bits per level
    const blockIndex: array<Byte> // level of the live block starting at each page
    var usedSize: nat
    ghost const bytes: seq<nat>   // bytes of each level's bitmap
    ghost var marked: set<Block>
    ghost var live: map<nat, nat>

    /** `free_mem_init`: carves the metadata off the front of the area and marks, at each
        level, the last block when the level has an odd number of them. */
    constructor (freeMemStart: nat, freeMemEnd: nat)
      requires 0 < freeMemStart <= freeMemEnd
      requires (freeMemEnd - freeMemStart) / 4096 < 0x8000_0000
      requires MetaPages((freeMemEnd - freeMemStart) / 4096) <= (freeMemEnd - freeMemStart) / 4096
      // otherwise the size of the metadata does not fit its int: see ProductExact
      requires 4096 * MetaPages((freeMemEnd - freeMemStart) / 4096) < 0x8000_0000
      ensures Valid() && live == map[] && usedSize == 0
      ensures fresh(bits) && fresh(count) && fresh(blockIndex)
      ensures var t := (freeMemEnd - freeMemStart) / 4096;
              smallestBlock == t - MetaPages(t) && startAddr == freeMemStart + 4096 * MetaPages(t)
      ensures endAddr == freeMemEnd
      // the block index, the bitmap structures and the bitmaps lie between the start of the area and the pool
      ensures freeMemStart + blockIndex.Length + 16 * maxLevel + bits.Length <= startAddr
      // a level has a marked block iff its bit in the number of pages is 1
      ensures marked == InitMarks(smallestBlock, maxLevel)
    {
      var freeMemSize := freeMemEnd - freeMemStart;
      var bitmap := MetadataSize(freeMemSize);
      var n := freeMemSize / 4096 - bitmap;
      var levels := CountLevels(n);
      MetaFits(n, freeMemSize / 4096);
      var index := new Byte[n](_ => NOT_ASSIGNED);
      var bs, at, counts := InitBitmaps(n, levels);
      smallestBlock := n;
      maxLevel := levels;
      ProductExact(bitmap);
      startAddr := freeMemStart + Int32(4096 * bitmap);
      endAddr := freeMemEnd;
      base := at;
      bits := bs;
      count := counts;
      blockIndex := index;
      usedSize := 0;
      bytes := seq(levels, i requires 0 <= i < levels => LevelBytes(n, i));
      marked := InitMarks(n, levels);
      live := map[];
      new;
      InitState(n, levels);
    }

    /** The fields that the constructor fills in make a valid pool without live blocks. */
    lemma InitState(n: nat, levels: nat)
      requires LevelCount(n, levels)
      requires smallestBlock == n && maxLevel == levels && |base| == |bytes| == count.Length == levels
      requires bits as object != count && blockIndex as object != bits && blockIndex as object != count
      requires bits.Length == SumBytes(n, levels)
      requires forall i: nat {:trigger base[i]} :: i < levels ==> base[i] == SumBytes(n, i)
      requires forall i: nat {:trigger bytes[i]} :: i < levels ==> bytes[i] == LevelBytes(n, i)
      requires forall i: nat {:trigger count[i]} :: i < levels ==> count[i] == Shr(n, i) % 2
      requires forall i: nat :: i < levels ==> LevelInit(bits[..], n, i)
      requires blockIndex.Length == n && forall p :: 0 <= p < n ==> blockIndex[p] == NOT_ASSIGNED
      requires marked == InitMarks(n, levels) && live == map[] && usedSize == 0
      requires startAddr > 0 && startAddr + 4096 * n <= endAddr
      ensures Valid()
    {
      InitMarksCanonical(n, levels);
      PoolCount(n);
      assert FreeSet() == PoolPages(n);
      forall i: nat | i < levels ensures base[i] + bytes[i] <= bits.Length {
        SumBytesMono(n, i, levels);
      }
      forall i: nat, j: nat | i < j < levels ensures base[i] + bytes[i] <= base[j] {
        SumBytesMono(n, i, j);
      }
      assert Layout();
      assert BitsMatch(bits[..], marked) by { InitBits(n, levels); }
      assert CountsMatch(count[..], marked) by { InitCounts(n, levels); }
    }

    lemma InitBits(n: nat, levels: nat)
      requires Layout() && LevelCount(n, levels) && maxLevel == levels
      requires forall i: nat {:trigger base[i]} :: i < levels ==> base[i] == SumBytes(n, i)
      requires forall i: nat {:trigger bytes[i]} :: i < levels ==> bytes[i] == LevelBytes(n, i)
      requires forall i: nat :: i < levels ==> LevelInit(bits[..], n, i)
      requires marked == InitMarks(n, levels)
      ensures BitsMatch(bits[..], marked)
    {
      InitMarksCanonical(n, levels);
      forall i: nat, o: nat | i < maxLevel && o < 8 * bytes[i]
        ensures BitIn(bits[..], i, o) <==> Block(i, o) in marked
      {
        assert LevelInit(bits[..], n, i);
        InitByteBit(Shr(n, i), o);
      }
    }

    // ----- the bitmaps

    /** The levels' bitmaps follow one another in `bits`. */
    ghost predicate Layout() {
      && bits as object != count && blockIndex as object != bits && blockIndex as object != count
      && |base| == |bytes| == count.Length == maxLevel
      && (forall i :: 0 <= i < maxLevel ==> base[i] + bytes[i] <= bits.Length)
      && (forall i, j :: 0 <= i < j < maxLevel ==> base[i] + bytes[i] <= base[j])
    }

    /** The bit of block (i, o) in the bytes s. */
    ghost predicate BitIn(s: seq<bv8>, i: nat, o: nat)
      requires Layout() && |s| == bits.Length && i < maxLevel && o < 8 * bytes[i]
    {
      TestBit(s[base[i] + o / 8], o % 8)
    }

    ghost predicate BitsMatch(s: seq<bv8>, m: set<Block>)
      requires Layout() && |s| == bits.Length
    {
      forall i: nat, o: nat {:trigger BitIn(s, i, o)} :: i < maxLevel && o < 8 * bytes[i] ==>
        (BitIn(s, i, o) <==> Block(i, o) in m)
    }

    ghost predicate CountsMatch(s: seq<nat>, m: set<Block>)
      requires |s| == maxLevel
    {
      forall i: nat {:trigger OfLevel(m, i)} :: i < maxLevel ==> s[i] == |OfLevel(m, i)|
    }

    ghost predicate BitsOk()
      reads this, bits, count
    {
      && Layout() && BitsMatch(bits[..], marked) && CountsMatch(count[..], marked)
      && (forall b :: b in marked ==> b.level < maxLevel && b.offset < 8 * bytes[b.level])
    }

    lemma WriteBit(s: seq<bv8>, m: set<Block>, i: nat, o: nat, flag: bool)
      requires Layout() && |s| == bits.Length && BitsMatch(s, m) && i < maxLevel && o < 8 * bytes[i]
      ensures BitsMatch(s[base[i] + o / 8 := WithBit(s[base[i] + o / 8], o % 8, flag)],
                        if flag then m + {Block(i, o)} else m - {Block(i, o)})
    {
      var at := base[i] + o / 8;
      var s' := s[at := WithBit(s[at], o % 8, flag)];
      forall j: nat, q: nat | j < maxLevel && q < 8 * bytes[j]
        ensures BitIn(s', j, q) <==> if j == i && q == o then flag else BitIn(s, j, q)
      {
        if base[j] + q / 8 == at {
          assert j == i;
          WithBitTest(s[at], o % 8, flag, q % 8);
        }
      }
    }

    method SetBitmapFlag(i: nat, o: nat, flag: bool)
      requires BitsOk() && i < maxLevel && o < 8 * bytes[i]
      modifies bits, count, `marked
      ensures BitsOk()
      ensures marked == if flag then old(marked) + {Block(i, o)} else old(marked) - {Block(i, o)}
    {
      WriteBit(bits[..], marked, i, o, flag);
      var isSet := GetBitmapFlag(i, o);
      Recount(i, o, flag, isSet);
      assert bits[..] == old(bits[..]);
      StoreByte(base[i] + o / 8, WithBit(bits[base[i] + o / 8], o % 8, flag));
      marked := if flag then marked + {Block(i, o)} else marked - {Block(i, o)};
    }

    method StoreByte(at: nat, v: bv8)
      requires at < bits.Length
      modifies bits
      ensures bits[..] == old(bits[..])[at := v]
    {
      bits[at] := v;
    }

    /** The count of a level changes only when the bit does. */
    method Recount(i: nat, o: nat, flag: bool, isSet: bool)
      requires Layout() && CountsMatch(count[..], marked) && i < maxLevel
      requires isSet <==> Block(i, o) in marked
      modifies count
      ensures CountsMatch(count[..], if flag then marked + {Block(i, o)} else marked - {Block(i, o)})
    {
      OfLevelAdd(marked, Block(i, o));
      OfLevelRemove(marked, Block(i, o));
      if flag {
        if !isSet {
          count[i] := count[i] + 1;
        }
      } else {
        if isSet {
          count[i] := count[i] - 1;
        }
      }
    }

    method GetBitmapFlag(i: nat, o: nat) returns (r: bool)
      requires BitsOk() && i < maxLevel && o < 8 * bytes[i]
      ensures r <==> Block(i, o) in marked
    {
      assert BitIn(bits[..], i, o) <==> Block(i, o) in marked;
      r := TestBit(bits[base[i] + o / 8], o % 8);
    }

    /** One 64-bit word of a level's bitmap is zero iff its 64 bits are clear. */
    method WordIsClear(i: nat, w: nat) returns (clear: bool, ghost hit: nat)
      requires BitsOk() && i < maxLevel && w + 8 <= bytes[i]
      ensures clear ==> forall o: nat :: 8 * w <= o < 8 * w + 64 ==> Block(i, o) !in marked
      ensures !clear ==> 8 * w <= hit < 8 * w + 64 && Block(i, hit) in marked
    {
      clear := Word(bits[base[i] + w..base[i] + w + 8]) == 0;
      WordClear(bits[..], marked, i, w);
      assert bits[..][base[i] + w..base[i] + w + 8] == bits[base[i] + w..base[i] + w + 8];
      hit := 0;
      if !clear { hit :| 8 * w <= hit < 8 * w + 64 && Block(i, hit) in marked; }
    }

    lemma WordClear(s: seq<bv8>, m: set<Block>, i: nat, w: nat)
      requires Layout() && |s| == bits.Length && BitsMatch(s, m)
      requires i < maxLevel && w + 8 <= bytes[i]
      ensures Word(s[base[i] + w..base[i] + w + 8]) == 0 <==>
              forall o: nat :: 8 * w <= o < 8 * w + 64 ==> Block(i, o) !in m
    {
      var t := s[base[i] + w..base[i] + w + 8];
      ZeroWord(t);
      forall x: nat | x < 8 ensures t[x] == 0 <==> ByteClear(m, i, w + x) {
        ByteIsClear(s, m, i, w + x);
      }
      if Word(t) == 0 {
        forall o: nat | 8 * w <= o < 8 * w + 64 ensures Block(i, o) !in m {
          assert t[o / 8 - w] == 0;
        }
      } else {
        var x: nat :| x < 8 && t[x] != 0;
        var o: nat :| o / 8 == w + x && Block(i, o) in m;
      }
    }

    lemma ByteIsClear(s: seq<bv8>, m: set<Block>, i: nat, y: nat)
      requires Layout() && |s| == bits.Length && BitsMatch(s, m)
      requires i < maxLevel && y < bytes[i]
      ensures s[base[i] + y] == 0 <==> ByteClear(m, i, y)
    {
      var b := s[base[i] + y];
      ZeroByte(b);
      forall o: nat | o / 8 == y ensures TestBit(b, o % 8) <==> Block(i, o) in m {
        assert BitIn(s, i, o) <==> Block(i, o) in m;
      }
      if ByteClear(m, i, y) {
        forall j: nat | j < 8 ensures !TestBit(b, j) {
          var o := 8 * y + j;
          assert o / 8 == y && o % 8 == j;
          assert TestBit(b, o % 8) <==> Block(i, o) in m;
        }
      }
    }

    /** The first marked block of a level, or -1; an empty level is not scanned. */
    method FindFreeBlock(i: nat) returns (r: int)
      requires BitsOk() && i < maxLevel && Shr(smallestBlock, i) <= 8 * bytes[i]
      requires forall o: nat :: Block(i, o) in marked ==> o < Shr(smallestBlock, i)
      ensures -1 <= r
      ensures r == -1 ==> forall o: nat :: Block(i, o) !in marked
      ensures r >= 0 ==> Block(i, r) in marked && forall o: nat :: o < r ==> Block(i, o) !in marked
    {
      if count[i] == 0 {
        assert OfLevel(marked, i) == {};
        assert forall o: nat :: Block(i, o) in marked ==> Block(i, o) in OfLevel(marked, i);
        return -1;
      }
      r := ScanLevel(i, Shr(smallestBlock, i));
    }

    /** The scan that skips 64 clear bits at a time finds what a bit-by-bit scan finds. */
    method ScanLevel(i: nat, maxCount: nat) returns (r: int)
      requires BitsOk() && i < maxLevel && maxCount <= 8 * bytes[i]
      ensures -1 <= r < maxCount
      ensures r == -1 ==> forall o: nat :: o < maxCount ==> Block(i, o) !in marked
      ensures r >= 0 ==> Block(i, r) in marked && forall o: nat :: o < r ==> Block(i, o) !in marked
    {
      var o := 0;
      ghost var w, hit: nat := 0, 0;
      while o < maxCount
        invariant 64 * w <= o <= 64 * w + 64 && o <= maxCount
        invariant ClearBelow(marked, i, o)
        // inside a 64-bit window that was seen nonzero, a set bit is still ahead
        invariant 64 * w < o < 64 * w + 64 <= maxCount ==> o <= hit < 64 * w + 64 && Block(i, hit) in marked
      {
        if o == 64 * w + 64 { w := w + 1; }
        if (maxCount - o) / 64 > 0 {
          WindowStart(w, o);
          var clear;
          ghost var h;
          clear, h := WordIsClear(i, o / 8);
          if clear {
            assert o == 64 * w;
            o := o + 64;
            continue;
          }
          if o == 64 * w { hit := h; }
        }
        var isSet := GetBitmapFlag(i, o);
        if isSet {
          return o;
        }
        o := o + 1;
      }
      return -1;
    }

    // ----- splitting and merging

    ghost predicate Geometry() {
      && LevelCount(smallestBlock, maxLevel) && |bytes| == maxLevel
      && (forall i: nat {:trigger bytes[i]} :: i < maxLevel ==>
            Shr(smallestBlock, i) <= 8 * bytes[i] < Shr(smallestBlock, i) + 8)
    }

    /** The bitmaps are the canonical ones of the free set F. */
    ghost predicate Marks(F: set<nat>)
      reads this, bits, count
    {
      BitsOk() && Geometry() && Canonical(marked, F) && F <= PoolPages(smallestBlock)
    }

    lemma FreeInBounds(F: set<nat>, b: Block)
      requires Layout() && Geometry() && F <= PoolPages(smallestBlock) && Free(F, b)
      ensures b.level < maxLevel && b.offset < Shr(smallestBlock, b.level) <= 8 * bytes[b.level]
    {
      FreeBounded(smallestBlock, F, b);
      if maxLevel <= b.level { ShrDecreasing(smallestBlock, maxLevel, b.level); }
    }

    /** The lowest level from k on that has a marked block, and its first marked block. */
    method SearchLevels(k: nat, ghost F: set<nat>) returns (i: nat, o: int)
      requires Marks(F)
      ensures o == -1 ==> forall b :: b in marked ==> b.level < k
      ensures o != -1 ==> 0 <= o && i < maxLevel && FirstFit(marked, k, Block(i, o))
    {
      i := k;
      while i < maxLevel
        invariant k <= i
        invariant forall b :: b in marked && k <= b.level ==> i <= b.level
      {
        forall q: nat | Block(i, q) in marked ensures q < Shr(smallestBlock, i) {
          FreeInBounds(F, Block(i, q));
        }
        o := FindFreeBlock(i);
        if o != -1 {
          return;
        }
        assert forall b: Block :: b in marked && b.level == i ==> b == Block(i, b.offset);
        i := i + 1;
      }
      o := -1;
    }

    /** Takes a block of level k out of the free set, splitting a larger one if need be. */
    method TakeBlock(k: nat, ghost F: set<nat>) returns (o: int, ghost found: Block)
      requires Marks(F) && k < maxLevel
      modifies bits, count, `marked
      ensures o == -1 ==> marked == old(marked) && Marks(F) && forall q: nat :: !Free(F, Block(k, q))
      ensures o != -1 ==> o >= 0 && Free(F, Block(k, o)) && Marks(F - Pages(Block(k, o)))
      ensures o != -1 ==> FirstFit(old(marked), k, found) && First(found) == First(Block(k, o))
    {
      var i;
      i, o := SearchLevels(k, F);
      found := Block(i, if o == -1 then 0 else o);
      if o == -1 {
        NoneMarked(F, k);
        return;
      }
      TakeMarked(i, o, F);
      o := SplitDown(i, o, k, F);
    }

    method SplitDown(level: nat, offset: nat, k: nat, ghost F: set<nat>) returns (o: nat)
      requires k <= level && F <= PoolPages(smallestBlock) && Free(F, Block(level, offset))
      requires Marks(F - Pages(Block(level, offset)))
      modifies bits, count, `marked
      ensures Free(F, Block(k, o)) && First(Block(k, o)) == First(Block(level, offset))
      ensures Marks(F - Pages(Block(k, o)))
    {
      var i := level;
      o := offset;
      while i > k
        invariant k <= i
        invariant Free(F, Block(i, o)) && First(Block(i, o)) == First(Block(level, offset))
        invariant Marks(F - Pages(Block(i, o)))
      {
        SplitOnce(i, o, F);
        i, o := i - 1, 2 * o;
      }
    }

    method TakeMarked(i: nat, o: nat, ghost F: set<nat>)
      requires Marks(F) && Block(i, o) in marked
      modifies bits, count, `marked
      ensures Marks(F - Pages(Block(i, o)))
    {
      FreeInBounds(F, Block(i, o));
      CanonicalRemove(F, Block(i, o), marked);
      SetBitmapFlag(i, o, false);
    }

    /** Narrows the hole (i, o) to its left half: the left bit stays clear, the right one is set. */
    method SplitOnce(i: nat, o: nat, ghost F: set<nat>)
      requires i > 0 && F <= PoolPages(smallestBlock) && Free(F, Block(i, o))
      requires Marks(F - Pages(Block(i, o)))
      modifies bits, count, `marked
      ensures Free(F, Block(i - 1, 2 * o)) && First(Block(i - 1, 2 * o)) == First(Block(i, o))
      ensures Marks(F - Pages(Block(i - 1, 2 * o)))
    {
      HalvesInBounds(i, o, F);
      MarkRight(i - 1, 2 * o);
    }

    method MarkRight(i: nat, o: nat)
      requires BitsOk() && i < maxLevel && o + 1 < 8 * bytes[i] && Block(i, o) !in marked
      modifies bits, count, `marked
      ensures BitsOk() && marked == old(marked) + {Block(i, o + 1)}
    {
      SetBitmapFlag(i, o, false);
      assert marked == old(marked);
      SetBitmapFlag(i, o + 1, true);
    }

    lemma HalvesInBounds(i: nat, o: nat, F: set<nat>)
      requires i > 0 && F <= PoolPages(smallestBlock) && Free(F, Block(i, o))
      requires Marks(F - Pages(Block(i, o)))
      ensures i - 1 < maxLevel && 2 * o + 1 < 8 * bytes[i - 1] && Block(i - 1, 2 * o) !in marked
      ensures Free(F, Block(i - 1, 2 * o)) && First(Block(i - 1, 2 * o)) == First(Block(i, o))
      ensures Canonical(marked + {Block(i - 1, 2 * o + 1)}, F - Pages(Block(i - 1, 2 * o)))
    {
      CanonicalSplit(F, Block(i, o), marked);
      FreeInBounds(F, Block(i - 1, 2 * o + 1));
    }

    /** When no level from k on is marked, no block of level k is wholly free. */
    lemma NoneMarked(F: set<nat>, k: nat)
      requires Marks(F) && forall b :: b in marked ==> b.level < k
      ensures forall q: nat :: !Free(F, Block(k, q))
    {
      forall q: nat ensures !Free(F, Block(k, q)) {
        if Free(F, Block(k, q)) {
          var c := MaximalAncestor(smallestBlock, F, Block(k, q));
        }
      }
    }

    /** Returns a block to the free set, merging it with its buddy as far as it goes. */
    method GiveBlock(k: nat, offset: nat, ghost F: set<nat>)
      requires Marks(F) && Pages(Block(k, offset)) !! F
      requires Pages(Block(k, offset)) <= PoolPages(smallestBlock)
      modifies bits, count, `marked
      ensures Marks(F + Pages(Block(k, offset)))
    {
      var i, o := k, offset;
      ghost var G, H := F, F + Pages(Block(k, offset));
      FreeInBounds(H, Block(i, o));
      while i < maxLevel
        invariant Marks(G) && Pages(Block(i, o)) !! G && G + Pages(Block(i, o)) == H
        invariant i < maxLevel
        decreases maxLevel - i
      {
        FreeInBounds(H, Block(i, o));
        var merged;
        ghost var G';
        merged, G' := MergeOnce(i, o, G);
        if !merged {
          break;
        }
        G := G';
        i, o := i + 1, o / 2;
        FreeInBounds(H, Block(i, o));
      }
    }

    method ClearPair(i: nat, a: nat, b: nat)
      requires BitsOk() && i < maxLevel && a < 8 * bytes[i] && b < 8 * bytes[i]
      modifies bits, count, `marked
      ensures BitsOk() && marked == old(marked) - {Block(i, a), Block(i, b)}
    {
      SetBitmapFlag(i, a, false);
      SetBitmapFlag(i, b, false);
    }

    /** Marks block (i, o); when its buddy is marked too, unmarks both so that their parent can be. */
    method MergeOnce(i: nat, o: nat, ghost G: set<nat>) returns (merged: bool, ghost G': set<nat>)
      requires Marks(G) && i < maxLevel && o < Shr(smallestBlock, i)
      requires Pages(Block(i, o)) !! G && G + Pages(Block(i, o)) <= PoolPages(smallestBlock)
      modifies bits, count, `marked
      ensures !merged ==> Marks(G + Pages(Block(i, o)))
      ensures merged ==> Marks(G') && Pages(Block(i + 1, o / 2)) !! G'
                         && G' + Pages(Block(i + 1, o / 2)) == G + Pages(Block(i, o))
    {
      ghost var b, m := Block(i, o), marked;
      HoleNotMarked(marked, G, b);
      var buddy := if o % 2 == 0 then o + 1 else o - 1;
      BuddyByte(Shr(smallestBlock, i), bytes[i], o);
      SetBitmapFlag(i, o, true);
      merged := GetBitmapFlag(i, buddy);
      G' := G - Pages(Buddy(b));
      if !merged {
        CanonicalAdd(G, b, m);
      } else {
        CanonicalMerge(G, b, m);
        ClearPair(i, buddy, o);
        assert marked == m - {Buddy(b)};
      }
    }

    // ----- allocation and release

    ghost function FreeSet(): set<nat>
      reads this
    {
      FreePages(smallestBlock, live)
    }

    /** Page p of `block_index` holds the level of the live block that starts there, else 0xFF. */
    ghost predicate IndexOk(s: seq<Byte>)
      reads `live
    {
      && |s| == smallestBlock
      && (forall p: nat {:trigger s[p]} :: p < |s| ==> s[p] as int == if p in live then live[p] else 255)
    }

    ghost predicate Valid()
      reads this, bits, count, blockIndex
    {
      && LiveOk(smallestBlock, live)
      && Marks(FreeSet())
      && IndexOk(blockIndex[..])
      && (forall p :: p in live ==> live[p] <= 18)
      && usedSize == 4096 * (smallestBlock - |FreeSet()|)
      && startAddr > 0 && startAddr + 4096 * smallestBlock <= endAddr
    }

    /** The least block size that holds `size` bytes; 0 when the pool has no such level. */
    method AlignBuddyBlock(size: nat) returns (aligned: nat)
      requires size <= MAX_REQUEST
      ensures LevelOf(size) <= 18
      ensures aligned == if LevelOf(size) < maxLevel then PageShift(LevelOf(size)) else 0
    {
      SupportedLevel(size);
      var i := 0;
      while i < maxLevel
        invariant 0 <= i <= maxLevel && i <= LevelOf(size)
      {
        if size <= PageShift(i) {
          return PageShift(i);
        }
        i := i + 1;
      }
      return 0;
    }

    method BlockListIndex(alignedSize: nat) returns (index: int)
      requires alignedSize <= MAX_REQUEST
      ensures LevelOf(alignedSize) <= 18
      ensures index == if LevelOf(alignedSize) < maxLevel then LevelOf(alignedSize) else -1
    {
      SupportedLevel(alignedSize);
      var i := 0;
      while i < maxLevel
        invariant 0 <= i <= maxLevel && i <= LevelOf(alignedSize)
      {
        if alignedSize <= PageShift(i) {
          return i;
        }
        i := i + 1;
      }
      return -1;
    }

    /** The capacity test never rejects a request that a free block could serve. */
    lemma CapacityTest(F: set<nat>, b: Block)
      requires F <= PoolPages(smallestBlock) && Free(F, b)
      ensures Pow2(b.level) <= |F| <= smallestBlock
    {
      PoolCount(smallestBlock);
      SubsetSize(F, PoolPages(smallestBlock));
      SubsetSize(Pages(b), F);
      PagesCount(b);
    }

    /** A request that either early test turns down has no free block to serve it. */
    lemma EarlyRejection(k: nat)
      requires Valid()
      requires k >= maxLevel || startAddr + usedSize + 4096 * Pow2(k) > endAddr
      ensures forall o: nat :: !Free(FreeSet(), Block(k, o))
    {
      forall o: nat ensures !Free(FreeSet(), Block(k, o)) {
        if Free(FreeSet(), Block(k, o)) {
          FreeInBounds(FreeSet(), Block(k, o));
          CapacityTest(FreeSet(), Block(k, o));
        }
      }
    }

    /** Everything that Valid says, while block b has left the bitmaps but is not live yet. */
    ghost predicate Pending(b: Block)
      reads this, bits, count, blockIndex
    {
      && LiveOk(smallestBlock, live)
      && Free(FreeSet(), b) && Marks(FreeSet() - Pages(b))
      && IndexOk(blockIndex[..])
      && (forall p :: p in live ==> live[p] <= 18)
      && usedSize == 4096 * (smallestBlock - |FreeSet()|)
      && startAddr > 0 && startAddr + 4096 * smallestBlock <= endAddr
    }

    /** Allocation fails iff no aligned run of 2^level free pages exists; otherwise it takes
        the first-fit one and records it. */
    method Alloc(size: nat) returns (addr: nat)
      requires Valid() && size <= MAX_REQUEST
      modifies this, bits, count, blockIndex
      ensures Valid()
      ensures addr == 0 <==> forall o: nat :: !Free(old(FreeSet()), Block(LevelOf(size), o))
      ensures addr == 0 ==> live == old(live)
      ensures addr != 0 ==> exists b ::
        AllocStep(old(marked), old(live), LevelOf(size), b, live) && addr == startAddr + 4096 * First(b)
    {
      var alignedSize := AlignBuddyBlock(size);
      if alignedSize == 0 {
        EarlyRejection(LevelOf(size));
        return 0;
      }
      if startAddr + usedSize + alignedSize > endAddr {
        EarlyRejection(LevelOf(size));
        return 0;
      }
      addr := AllocLevel(alignedSize, LevelOf(size));
    }

    /** The part of `az_alloc` after its early tests, for a block of level k. */
    method AllocLevel(alignedSize: nat, ghost k: nat) returns (addr: nat)
      requires Valid() && k <= 18 && k < maxLevel && alignedSize == PageShift(k)
      modifies this, bits, count, blockIndex
      ensures Valid()
      ensures addr == 0 <==> forall o: nat :: !Free(old(FreeSet()), Block(k, o))
      ensures addr == 0 ==> live == old(live)
      ensures addr != 0 ==> exists b ::
        AllocStep(old(marked), old(live), k, b, live) && addr == startAddr + 4096 * First(b)
    {
      AlignedLevel(k);
      var index := BlockListIndex(alignedSize);
      ghost var F, found := FreeSet(), Block(0, 0);
      var offset;
      offset, found := TakeBlock(index, F);
      if offset == -1 {
        return 0;
      }
      addr := Record(index, offset);
      assert AllocStep(old(marked), old(live), k, found, live);
    }

    /** Enters the block that was taken into `block_index` and `used_size`. */
    method Record(k: nat, o: nat) returns (addr: nat)
      requires Pending(Block(k, o)) && k <= 18
      modifies `live, `usedSize, blockIndex
      ensures Valid()
      ensures First(Block(k, o)) !in old(live) && live == old(live)[First(Block(k, o)) := k]
      ensures addr == startAddr + 4096 * First(Block(k, o))
    {
      ghost var b, F := Block(k, o), FreeSet();
      var relAddress := PageShift(k) * o;
      BlockAddress(k, o);
      var arrayOffset := relAddress / 4096;
      LiveAdd(smallestBlock, live, b);
      FirstInside(b);
      TakenSize(F, b);
      SetIndex(arrayOffset, k);
      usedSize := usedSize + PageShift(k);
      addr := relAddress + startAddr;
    }

    method SetIndex(p: nat, k: nat)
      requires IndexOk(blockIndex[..]) && p < blockIndex.Length && k <= 18
      modifies `live, blockIndex
      ensures live == old(live)[p := k] && IndexOk(blockIndex[..])
    {
      blockIndex[p] := k as Byte;
      live := live[p := k];
      assert blockIndex[..] == old(blockIndex[..])[p := k as Byte];
    }

    /** Frees the live block that starts in the addressed page; refuses any other address. */
    method Release(addr: nat) returns (ok: bool)
      requires Valid()
      requires addr == 0 || startAddr <= addr < startAddr + 4096 * smallestBlock
      modifies this, bits, count, blockIndex
      ensures Valid()
      ensures ok <==> addr != 0 && (addr - startAddr) / 4096 in old(live)
      ensures live == if ok then old(live) - {(addr - startAddr) / 4096} else old(live)
    {
      if addr == 0 {
        return false;
      }
      var relAddress := addr - startAddr;
      var arrayOffset := relAddress / 4096;
      assert blockIndex[..][arrayOffset] == blockIndex[arrayOffset];
      if blockIndex[arrayOffset] == NOT_ASSIGNED {
        return false;
      }
      ReleaseBlock(relAddress, arrayOffset, blockIndex[arrayOffset] as nat);
      ok := true;
    }

    method ReleaseBlock(relAddress: nat, p: nat, level: nat)
      requires Valid() && p == relAddress / 4096 && p in live && live[p] == level && p < blockIndex.Length
      modifies this, bits, count, blockIndex
      ensures Valid() && live == old(live) - {p}
    {
      ghost var F := FreeSet();
      Unrecord(p, level);
      BitmapOffset(relAddress, level);
      GiveBlock(level, relAddress / PageShift(level), F);
    }

    /** Clears the `block_index` entry of a live block; its pages are not marked yet. */
    method Unrecord(p: nat, level: nat)
      requires Valid() && p in live && live[p] == level && p < blockIndex.Length
      modifies `live, `usedSize, blockIndex
      ensures Marks(old(FreeSet()))
      ensures live == old(live) - {p} && LiveOk(smallestBlock, live) && IndexOk(blockIndex[..])
      ensures Pages(LiveBlock(p, level)) !! old(FreeSet())
      ensures Pages(LiveBlock(p, level)) <= PoolPages(smallestBlock)
      ensures FreeSet() == old(FreeSet()) + Pages(LiveBlock(p, level))
      ensures usedSize == 4096 * (smallestBlock - |FreeSet()|)
    {
      ghost var F, b := FreeSet(), LiveBlock(p, level);
      LiveRemove(smallestBlock, live, p);
      ReturnedSize(smallestBlock, F, b);
      ClearIndex(p);
      usedSize := usedSize - PageShift(level);
    }

    method ClearIndex(p: nat)
      requires IndexOk(blockIndex[..]) && p < blockIndex.Length
      modifies `live, blockIndex
      ensures live == old(live) - {p} && IndexOk(blockIndex[..])
    {
      blockIndex[p] := NOT_ASSIGNED;
      live := live - {p};
      assert blockIndex[..] == old(blockIndex[..])[p := NOT_ASSIGNED];
    }
  }

  lemma ReturnedSize(n: nat, F: set<nat>, b: Block)
    requires Pages(b) !! F && F + Pages(b) <= PoolPages(n)
    ensures |F + Pages(b)| == |F| + Pow2(b.level) <= n
  {
    PagesCount(b);
    PoolCount(n);
    SubsetSize(F + Pages(b), PoolPages(n));
  }

  /** The offset computed from any address in the first page of a block is the block's. */
  lemma BitmapOffset(relAddress: nat, level: nat)
    requires level <= 18
    ensures relAddress / PageShift(level) == Shr(relAddress / 4096, level)
  {
    var p, w := relAddress / 4096, Pow2(level);
    var o := Shr(p, level);
    ShrRange(p, level, o);
    assert o * w <= p && p + 1 <= (o + 1) * w;
    assert 4096 * p <= relAddress < 4096 * (p + 1);
    MulAssoc(o, w);
    MulAssoc(o + 1, w);
    DivUnique(relAddress, PageShift(level), o);
  }

  lemma MulAssoc(o: nat, w: nat)
    ensures o * (4096 * w) == 4096 * (o * w)
  {
  }

  lemma TakenSize(F: set<nat>, b: Block)
    requires Free(F, b)
    ensures |F - Pages(b)| == |F| - Pow2(b.level)
  {
    PagesCount(b);
    assert F == (F - Pages(b)) + Pages(b);
  }

  lemma PageOfAddress(rel: nat, p: nat)
    requires rel == 4096 * p
    ensures rel / 4096 == p
  {
  }

  /** The relative address of block (k, o) is that of its first page. */
  lemma BlockAddress(k: nat, o: nat)
    requires k <= 18
    ensures PageShift(k) * o == 4096 * First(Block(k, o))
    ensures PageShift(k) * o / 4096 == First(Block(k, o))
  {
    ShlIsMul(o, k);
    Regroup(Pow2(k), o);
    PageOfAddress(PageShift(k) * o, First(Block(k, o)));
  }

  lemma Regroup(n: nat, o: nat)
    ensures 4096 * n * o == 4096 * (o * n)
  {
  }

  /** Requests of at most 2^30 bytes never need the shifts that overflow an int. */
  lemma SupportedLevel(size: nat)
    requires size <= MAX_REQUEST
    ensures LevelOf(size) <= 18
  {
    Pow2Values();
    assert 4096 * Pow2(18) == MAX_REQUEST;
  }

  lemma AlignedLevel(k: nat)
    requires k <= 18
    ensures PageShift(k) <= MAX_REQUEST && LevelOf(PageShift(k)) == k
  {
    Pow2Values();
    Pow2Mono(k, 18);
    forall j: nat | j < k ensures PageShift(k) > 4096 * Pow2(j) {
      Pow2Mono(j, k - 1);
    }
    LevelOfUnique(PageShift(k), k);
  }

  lemma {:induction false} PoolCount(n: nat)
    ensures |PoolPages(n)| == n
  {
    if n > 0 {
      PoolCount(n - 1);
      assert PoolPages(n) == PoolPages(n - 1) + {n - 1};
    } else {
      assert PoolPages(0) == {};
    }
  }

  lemma {:induction false} SubsetSize(s: set<nat>, t: set<nat>)
    requires s <= t
    ensures |s| <= |t|
    decreases s
  {
    if s != {} {
      var x :| x in s;
      SubsetSize(s - {x}, t - {x});
    }
  }

  /** The buddy of a block of the level has a bit in the level's bitmap, even past its last block. */
  lemma BuddyByte(blocks: nat, bytes: nat, o: nat)
    requires o < blocks <= 8 * bytes
    ensures o % 2 == 0 ==> o + 1 < 8 * bytes
  {
  }
}
