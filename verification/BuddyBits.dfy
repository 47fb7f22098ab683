/** Bytes and words of the level bitmaps, and how much room the bitmaps take. */
module BuddyBits {
  import opened Levels

  const DWORD: nat := 0x1_0000_0000

  /** `0x01 << j` in a byte. */
  function Mask(j: nat): bv8
    requires j < 8
  {
    if j == 0 then 1 else if j == 1 then 2 else if j == 2 then 4 else if j == 3 then 8
    else if j == 4 then 16 else if j == 5 then 32 else if j == 6 then 64 else 128
  }

  lemma MaskIsShift(j: nat)
    requires j < 8
    ensures Mask(j) == 1 << j
  {
    if j < 4 {
      if j == 0 {} else if j == 1 {} else if j == 2 {} else { assert j == 3; }
    } else {
      if j == 4 {} else if j == 5 {} else if j == 6 {} else { assert j == 7; }
    }
  }

  predicate TestBit(b: bv8, j: nat)
    requires j < 8
  {
    b & Mask(j) != 0
  }

  /** `b |= 1 << j` or `b &= ~(1 << j)`. */
  function WithBit(b: bv8, j: nat, flag: bool): bv8
    requires j < 8
  {
    if flag then b | Mask(j) else b & !Mask(j)
  }

  lemma WithBitTest(b: bv8, j: nat, flag: bool, k: nat)
    requires j < 8 && k < 8
    ensures TestBit(WithBit(b, j, flag), k) <==> if k == j then flag else TestBit(b, k)
  {
  }

  lemma SameBits(a: bv8, b: bv8)
    requires forall j: nat :: j < 8 ==> (TestBit(a, j) <==> TestBit(b, j))
    ensures a == b
  {
    assert TestBit(a, 0) == TestBit(b, 0) && TestBit(a, 1) == TestBit(b, 1);
    assert TestBit(a, 2) == TestBit(b, 2) && TestBit(a, 3) == TestBit(b, 3);
    assert TestBit(a, 4) == TestBit(b, 4) && TestBit(a, 5) == TestBit(b, 5);
    assert TestBit(a, 6) == TestBit(b, 6) && TestBit(a, 7) == TestBit(b, 7);
  }

  lemma ZeroByte(b: bv8)
    ensures b == 0 <==> forall j: nat :: j < 8 ==> !TestBit(b, j)
  {
    if b != 0 {
      assert TestBit(b, 0) || TestBit(b, 1) || TestBit(b, 2) || TestBit(b, 3)
        || TestBit(b, 4) || TestBit(b, 5) || TestBit(b, 6) || TestBit(b, 7);
    }
  }

  /** The little-endian 64-bit word stored in eight bytes. */
  function Word(s: seq<bv8>): bv64
    requires |s| == 8
  {
    (s[0] as bv64) | ((s[1] as bv64) << 8) | ((s[2] as bv64) << 16) | ((s[3] as bv64) << 24)
    | ((s[4] as bv64) << 32) | ((s[5] as bv64) << 40) | ((s[6] as bv64) << 48) | ((s[7] as bv64) << 56)
  }

  lemma ZeroWord(s: seq<bv8>)
    requires |s| == 8
    ensures Word(s) == 0 <==> forall i :: 0 <= i < 8 ==> s[i] == 0
  {
    ZeroWordBytes(s[0], s[1], s[2], s[3], s[4], s[5], s[6], s[7]);
  }

  lemma ZeroWordBytes(a: bv8, b: bv8, c: bv8, d: bv8, e: bv8, f: bv8, g: bv8, h: bv8)
    ensures (a as bv64) | ((b as bv64) << 8) | ((c as bv64) << 16) | ((d as bv64) << 24)
            | ((e as bv64) << 32) | ((f as bv64) << 40) | ((g as bv64) << 48) | ((h as bv64) << 56) == 0
            <==> a == 0 && b == 0 && c == 0 && d == 0 && e == 0 && f == 0 && g == 0 && h == 0
  {
  }

  // ----- sizes

  /** Bytes of the bitmap of one level of a pool of n pages. */
  function LevelBytes(n: nat, level: nat): nat {
    (Shr(n, level) + 7) / 8
  }

  /** Bytes of the bitmaps of the levels below `level`. */
  function SumBytes(n: nat, level: nat): nat {
    if level == 0 then 0 else SumBytes(n, level - 1) + LevelBytes(n, level - 1)
  }

  /** `levels` is the number of levels of a pool of n pages. */
  ghost predicate LevelCount(n: nat, levels: nat) {
    Shr(n, levels) == 0 && forall i: nat :: i < levels ==> Shr(n, i) > 0
  }

  /** The number of levels of a pool of n pages. */
  function BitLen(n: nat): nat {
    if n == 0 then 0 else 1 + BitLen(n / 2)
  }

  lemma {:induction false} BitLenCounts(n: nat)
    ensures LevelCount(n, BitLen(n))
  {
    if n > 0 {
      BitLenCounts(n / 2);
      forall i: nat | i < BitLen(n) ensures Shr(n, i) > 0 {
        if i > 0 { ShrHalf(n, i); }
      }
      ShrHalf(n, BitLen(n));
    }
  }

  lemma {:induction false} SumBytesMono(n: nat, i: nat, j: nat)
    requires i < j
    ensures SumBytes(n, i) + LevelBytes(n, i) <= SumBytes(n, j)
    decreases j
  {
    if i + 1 < j { SumBytesMono(n, i, j - 1); }
  }

  /** A pool that is not larger needs no more levels and no more bytes. */
  lemma {:induction false} SumBytesPool(n: nat, t: nat, i: nat, j: nat)
    requires n <= t && i <= j
    ensures SumBytes(n, i) <= SumBytes(t, j)
    decreases j
  {
    if j > 0 {
      if i == j {
        SumBytesPool(n, t, i - 1, j - 1);
        ShrMono(n, t, i - 1);
      } else {
        SumBytesPool(n, t, i, j - 1);
      }
    }
  }

  lemma LevelCountPool(n: nat, i: nat, t: nat, j: nat)
    requires n <= t && LevelCount(n, i) && LevelCount(t, j)
    ensures i <= j
  {
    if j < i { ShrMono(n, t, j); }
  }

  /** All level bitmaps together take at most a quarter of a byte per page, plus one per level. */
  lemma {:induction false} SumBytesBound(t: nat, level: nat)
    ensures 8 * SumBytes(t, level) + 2 * Shr(t, level) <= 2 * t + 7 * level
  {
    if level > 0 { SumBytesBound(t, level - 1); }
  }

  lemma {:induction false} LevelsBound(t: nat, level: nat)
    requires Shr(t, level) > 0
    ensures Pow2(level) <= t
  {
    var q := Shr(t, level);
    ShrRange(t, level, q);
    MulLe(1, q, Pow2(level));
  }

  lemma {:induction false} LevelsAtMost31(t: nat, levels: nat)
    requires t < 0x8000_0000 && LevelCount(t, levels)
    ensures levels <= 31
  {
    if levels > 31 {
      LevelsBound(t, 31);
      Pow2Values();
    }
  }

  /** Bytes of metadata for t pages: the block index, the bitmap structures, the bitmaps. */
  function MetaBytes(t: nat): nat {
    t + 16 * BitLen(t) + SumBytes(t, BitLen(t))
  }

  /** Pages set aside for the metadata, in units of 512 pages. */
  function MetaPages(t: nat): nat {
    ((MetaBytes(t) + 4096 - 1) / 4096 + 511) / 512 * 512
  }

  /** The metadata of the pool that remains fits in the pages set aside for the whole area. */
  lemma MetaFits(n: nat, t: nat)
    requires n <= t
    ensures MetaBytes(n) <= 4096 * MetaPages(t)
  {
    BitLenCounts(n);
    BitLenCounts(t);
    LevelCountPool(n, BitLen(n), t, BitLen(t));
    SumBytesPool(n, t, BitLen(n), BitLen(t));
  }

  /** The pages set aside are the least multiple of 512 pages that holds the metadata. */
  lemma MetaLeast(t: nat)
    ensures MetaPages(t) % 512 == 0 && MetaBytes(t) <= 4096 * MetaPages(t)
    ensures forall m: nat :: m % 512 == 0 && MetaBytes(t) <= 4096 * m ==> MetaPages(t) <= m
  {
    forall m: nat | m % 512 == 0 && MetaBytes(t) <= 4096 * m ensures MetaPages(t) <= m {
      RoundLeast(MetaBytes(t), m / 512);
    }
  }

  lemma RoundLeast(x: nat, q: nat)
    requires x <= 4096 * (512 * q)
    ensures ((x + 4095) / 4096 + 511) / 512 <= q
  {
    assert (x + 4095) / 4096 <= 512 * q;
  }

  lemma MetaBytesMono(n: nat, t: nat)
    requires n <= t
    ensures MetaBytes(n) <= MetaBytes(t)
  {
    BitLenCounts(n);
    BitLenCounts(t);
    LevelCountPool(n, BitLen(n), t, BitLen(t));
    SumBytesPool(n, t, BitLen(n), BitLen(t));
  }

  lemma RoundMono(x: nat, y: nat)
    requires x <= y
    ensures ((x + 4095) / 4096 + 511) / 512 * 512 <= ((y + 4095) / 4096 + 511) / 512 * 512
  {
    assert (x + 4095) / 4096 <= (y + 4095) / 4096;
  }

  /** A larger area never takes fewer pages of metadata. */
  lemma MetaMono(n: nat, t: nat)
    requires n <= t
    ensures MetaPages(n) <= MetaPages(t)
  {
    MetaBytesMono(n, t);
    RoundMono(MetaBytes(n), MetaBytes(t));
  }

  /** What a product of type `int` holds: the low 32 bits, as a signed number. */
  function Int32(x: nat): (r: int) {
    if x % DWORD < 0x8000_0000 then x % DWORD else x % DWORD - DWORD
  }

  /** The size of the metadata in bytes, an `int` product, is right iff it is below 2^31. */
  lemma ProductExact(pages: nat)
    requires 4096 * pages < DWORD
    ensures Int32(4096 * pages) == 4096 * pages <==> 4096 * pages < 0x8000_0000
    ensures 4096 * pages >= 0x8000_0000 ==> Int32(4096 * pages) < 0
  {
  }

  /** It is not for any area of 7 TiB or more. */
  lemma ProductOverflows(t: nat)
    requires 0x7000_0000 <= t
    ensures 4096 * MetaPages(t) >= 0x8000_0000
  {
    var n: nat := 0x7000_0000;
    MetaMono(n, t);
    assert BitLen(n) >= 2;
    SumBytesMono(n, 1, BitLen(n));
    assert SumBytes(n, 1) == LevelBytes(n, 0);
    assert LevelBytes(n, 0) == 0xE00_0000 && LevelBytes(n, 1) == 0x700_0000;
  }

  /** Addition of two 32-bit unsigned numbers. */
  function Add32(a: nat, b: nat): (r: nat)
    ensures a + b < DWORD ==> r == a + b
  {
    (a + b) % DWORD
  }

  /** `bitmap_size`: the sums are 32-bit and never wrap for fewer than 2^31 pages. */
  method BitmapSize(freeMemSize: nat) returns (pages: nat)
    requires freeMemSize / 4096 < 0x8000_0000
    ensures pages == (MetaBytes(freeMemSize / 4096) + 4096 - 1) / 4096
  {
    var blocks := freeMemSize / 4096;
    var bitmapSize := 0;
    var i := 0;
    BitLenCounts(blocks);
    LevelsAtMost31(blocks, BitLen(blocks));
    while Shr(blocks, i) > 0
      invariant i <= BitLen(blocks)
      invariant bitmapSize == 16 * i + SumBytes(blocks, i)
      decreases BitLen(blocks) - i
    {
      SumBytesBound(blocks, i + 1);
      bitmapSize := Add32(bitmapSize, 16);
      bitmapSize := Add32(bitmapSize, (Shr(blocks, i) + 7) / 8);
      i := i + 1;
    }
    SumBytesBound(blocks, i);
    pages := Add32(Add32(blocks, bitmapSize), 4096 - 1) / 4096;
  }

  // ----- the bitmaps of an empty pool

  /** Byte x of the bitmap of a level with m blocks: only an odd last block is marked. */
  function InitByte(m: nat, x: nat): bv8 {
    if m % 2 == 1 && x == m / 8 then Mask(m % 8 - 1) else 0
  }

  lemma InitBytes(m: nat)
    ensures forall x: nat :: x != m / 8 ==> InitByte(m, x) == 0
    ensures m % 8 != 0 ==> InitByte(m, m / 8) == if m % 8 % 2 == 1 then 0 | Mask(m % 8 - 1) else 0
  {
    var h, q, r := m / 2, m / 8, m % 8;
    assert r == 2 * (h - 4 * q) + m % 2;
  }

  lemma InitByteBit(m: nat, o: nat)
    ensures TestBit(InitByte(m, o / 8), o % 8) <==> m % 2 == 1 && o == m - 1
  {
    var k := o % 8;
    assert !TestBit(0, k);
    if m % 2 == 1 {
      OddLast(m, o);
      MaskBit(m % 8 - 1, k);
    }
  }

  lemma MaskBit(j: nat, k: nat)
    requires j < 8 && k < 8
    ensures TestBit(Mask(j), k) <==> j == k
  {
  }

  lemma OddLast(m: nat, o: nat)
    requires m % 2 == 1
    ensures m % 8 > 0
    ensures o == m - 1 <==> o / 8 == m / 8 && o % 8 == m % 8 - 1
  {
    var h, q, r := m / 2, m / 8, m % 8;
    assert r == 2 * (h - 4 * q) + 1;
    if o == m - 1 {
      DivUnique(o, 8, q);
    }
  }

  // ----- request sizes

  /** The least level whose blocks hold `size` bytes, searching from `k`. */
  function LevelFrom(size: nat, k: nat): (r: nat)
    ensures k <= r && size <= 4096 * Pow2(r)
    ensures forall j: nat :: k <= j < r ==> size > 4096 * Pow2(j)
    decreases if size <= 4096 * Pow2(k) then 0 else size - 4096 * Pow2(k)
  {
    if size <= 4096 * Pow2(k) then k else LevelFrom(size, k + 1)
  }

  function LevelOf(size: nat): nat {
    LevelFrom(size, 0)
  }

  lemma LevelOfUnique(size: nat, r: nat)
    requires size <= 4096 * Pow2(r)
    requires forall j: nat :: j < r ==> size > 4096 * Pow2(j)
    ensures LevelOf(size) == r
  {
  }
}
