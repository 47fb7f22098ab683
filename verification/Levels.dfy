/** Powers of two and repeated halving, the arithmetic behind block levels.
    `Shr(x, i)` is what `x >> i` computes for a non-negative `x`; the block of
    level `i` that holds page `p` is the one with offset `Shr(p, i)`. */
module Levels {

  function Pow2(k: nat): (r: nat)
    ensures r > 0
  {
    if k == 0 then 1 else 2 * Pow2(k - 1)
  }

  function Shr(x: nat, i: nat): nat {
    if i == 0 then x else Shr(x, i - 1) / 2
  }

  /** The first page of block (i, o), as `o << i`. */
  function Shl(o: nat, i: nat): nat {
    if i == 0 then o else 2 * Shl(o, i - 1)
  }

  lemma {:induction false} ShlIsMul(o: nat, i: nat)
    ensures Shl(o, i) == o * Pow2(i)
  {
    if i > 0 { ShlIsMul(o, i - 1); }
  }

  lemma {:induction false} ShlDouble(o: nat, i: nat)
    requires i > 0
    ensures Shl(o, i) == Shl(2 * o, i - 1)
  {
    if i > 1 { ShlDouble(o, i - 1); }
  }

  lemma {:induction false} ShrHalf(p: nat, i: nat)
    requires i > 0
    ensures Shr(p, i) == Shr(p / 2, i - 1)
  {
    if i > 1 { ShrHalf(p, i - 1); }
  }

  lemma {:induction false} ShrShl(p: nat, i: nat, o: nat)
    ensures Shr(p, i) == o <==> Shl(o, i) <= p < Shl(o + 1, i)
  {
    if i > 0 {
      ShrHalf(p, i);
      ShrShl(p / 2, i - 1, o);
    }
  }

  /** The pages p with Shr(p, i) == o are exactly the run [o * 2^i, (o + 1) * 2^i). */
  lemma ShrRange(p: nat, i: nat, o: nat)
    ensures Shr(p, i) == o <==> o * Pow2(i) <= p < (o + 1) * Pow2(i)
  {
    ShrShl(p, i, o);
    ShlIsMul(o, i);
    ShlIsMul(o + 1, i);
  }

  lemma MulLe(a: int, b: int, w: int)
    requires a <= b && w >= 0
    ensures a * w <= b * w
  {
  }

  lemma DivUnique(p: nat, w: nat, q: nat)
    requires w > 0 && q * w <= p < (q + 1) * w
    ensures p / w == q
  {
    var d, r := p / w, p % w;
    assert p == d * w + r && 0 <= r < w;
    if d < q {
      MulLe(d + 1, q, w);
    } else if q < d {
      MulLe(q + 1, d, w);
    }
  }

  lemma ShrFirst(i: nat, o: nat)
    ensures Shr(o * Pow2(i), i) == o
  {
    ShrRange(o * Pow2(i), i, o);
    assert o * Pow2(i) < (o + 1) * Pow2(i);
  }

  lemma {:induction false} ShrZero(i: nat)
    ensures Shr(0, i) == 0
  {
    if i > 0 { ShrZero(i - 1); }
  }

  lemma {:induction false} ShrMono(x: nat, y: nat, i: nat)
    requires x <= y
    ensures Shr(x, i) <= Shr(y, i)
  {
    if i > 0 { ShrMono(x, y, i - 1); }
  }

  lemma {:induction false} ShrAdd(x: nat, i: nat, j: nat)
    ensures Shr(Shr(x, i), j) == Shr(x, i + j)
  {
    if j > 0 { ShrAdd(x, i, j - 1); }
  }

  lemma {:induction false} ShrDecreasing(x: nat, i: nat, j: nat)
    requires i <= j
    ensures Shr(x, j) <= Shr(x, i)
    decreases j
  {
    if i < j { ShrDecreasing(x, i, j - 1); }
  }

  lemma {:induction false} Pow2Mono(i: nat, j: nat)
    requires i <= j
    ensures Pow2(i) <= Pow2(j)
    decreases j
  {
    if i < j { Pow2Mono(i, j - 1); }
  }

  lemma {:induction false} Pow2Add(i: nat, j: nat)
    ensures Pow2(i + j) == Pow2(i) * Pow2(j)
  {
    if j > 0 {
      Pow2Add(i, j - 1);
      assert Pow2(i + j) == 2 * Pow2(i + j - 1);
    }
  }

  lemma Pow2Values()
    ensures Pow2(18) == 0x40000 && Pow2(31) == 0x8000_0000
  {
    assert Pow2(4) == 16;
    Pow2Add(4, 4);
    Pow2Add(8, 8);
    Pow2Add(16, 2);
    assert Pow2(2) == 4;
    Pow2Add(16, 8);
    Pow2Add(24, 4);
    assert Pow2(3) == 8;
    Pow2Add(28, 3);
  }

  /** Numbers less than m apart with the same remainder are equal. */
  lemma ModDistinct(i: nat, left: nat, m: nat)
    requires left <= i < left + m && i % m == left % m
    ensures i == left
  {
    var a, b := i / m, left / m;
    assert i - left == m * (a - b);
    if a > b {
      MulLe(1, a - b, m);
    } else if a < b {
      MulLe(1, b - a, m);
    }
  }
}
