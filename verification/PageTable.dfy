/** The four-level page table as a finite map from virtual pages to entries. */
module PageTable {

  /** A table entry: the frame number in its upper bits and the twelve attribute bits. */
  datatype Entry = Entry(frame: nat, attr: bv12)

  const ZERO: Entry := Entry(0, 0)
  const FLAGS_P: bv12 := 0x001
  const FLAGS_RW: bv12 := 0x002
  const FLAGS_US: bv12 := 0x004
  const FLAGS_PCD: bv12 := 0x010
  const FLAGS_PS: bv12 := 0x080

  /** The attributes of an entry that names a table. */
  const FLAGS_TABLE: bv12 := 0x007

  /** set_page_entry_data: `base | flags`, with base split into its frame and its low bits. */
  function MakeEntry(frame: nat, low: bv12, flags: bv12): Entry {
    Entry(frame, low | flags)
  }

  lemma MadeIsNotZero(frame: nat, low: bv12, flags: bv12)
    requires flags & FLAGS_P != 0
    ensures MakeEntry(frame, low, flags) != ZERO
  {
    assert (low | flags) & FLAGS_P != 0;
  }

  /** An entry of the third level that maps 2 MiB by itself. */
  predicate Large(e: Entry) {
    e.attr & FLAGS_PS != 0
  }

  /** Present, writable, and open to user code. */
  predicate Usable(e: Entry) {
    e.attr & FLAGS_P != 0 && e.attr & FLAGS_RW != 0 && e.attr & FLAGS_US != 0
  }

  predicate Uncached(e: Entry) {
    e.attr & FLAGS_PCD != 0
  }

  lemma TableFlags(frame: nat)
    ensures MakeEntry(frame, 0, FLAGS_TABLE) != ZERO && !Large(MakeEntry(frame, 0, FLAGS_TABLE))
    ensures Usable(MakeEntry(frame, 0, FLAGS_TABLE))
    ensures FLAGS_TABLE == FLAGS_P | FLAGS_RW | FLAGS_US
  {
  }

  lemma LargeFlags(frame: nat, low: bv12, flags: bv12)
    ensures Large(MakeEntry(frame, low, flags | FLAGS_PS)) && MakeEntry(frame, low, flags | FLAGS_PS) != ZERO
  {
    assert (low | (flags | FLAGS_PS)) & FLAGS_PS != 0;
  }

  /** The entry that page i of a large page would have by itself. */
  function Part(e: Entry, i: nat): Entry {
    e.(frame := e.frame + i)
  }

  // ----- virtual addresses

  /** The table indices of an address, from the top level down: bits 39-47, 30-38, 21-29, 12-20. */
  function Path(va: nat): (p: seq<nat>)
    ensures |p| == 4 && forall i :: 0 <= i < 4 ==> p[i] < 512
  {
    [va / 0x80_0000_0000 % 512, va / 0x4000_0000 % 512, va / 0x20_0000 % 512, va / 0x1000 % 512]
  }

  /** Masking and shifting, as the kernel computes them, selects those bits. */
  lemma MaskedIndices(va: bv64)
    ensures (va & 0xff80_0000_0000) >> 39 == (va >> 39) & 0x1ff
    ensures (va & 0x007f_c000_0000) >> 30 == (va >> 30) & 0x1ff
    ensures (va & 0x0000_3fe0_0000) >> 21 == (va >> 21) & 0x1ff
    ensures (va & 0x0000_001f_f000) >> 12 == (va >> 12) & 0x1ff
  {
  }

  /** Addresses with the same bits 12-47 lie in the same page, and only those. */
  lemma SamePath(v: nat, w: nat)
    ensures Path(v) == Path(w) <==> v / 0x1000 % 0x10_0000_0000 == w / 0x1000 % 0x10_0000_0000
  {
    PathNumber(v);
    PathNumber(w);
    var p, q := Path(v), Path(w);
    if v / 0x1000 % 0x10_0000_0000 == w / 0x1000 % 0x10_0000_0000 {
      DigitsUnique(p[0], p[1], p[2], p[3], q[0], q[1], q[2], q[3]);
      assert p == [p[0], p[1], p[2], p[3]] && q == [q[0], q[1], q[2], q[3]];
    }
  }

  lemma DigitsUnique(a: nat, b: nat, c: nat, d: nat, e: nat, f: nat, g: nat, h: nat)
    requires b < 512 && c < 512 && d < 512 && f < 512 && g < 512 && h < 512
    requires ((a * 512 + b) * 512 + c) * 512 + d == ((e * 512 + f) * 512 + g) * 512 + h
    ensures a == e && b == f && c == g && d == h
  {
  }

  lemma Quotients(v: nat)
    ensures v / 0x20_0000 == v / 0x1000 / 512
    ensures v / 0x4000_0000 == v / 0x20_0000 / 512
    ensures v / 0x80_0000_0000 == v / 0x4000_0000 / 512
  {
  }

  lemma LowDigits(n: nat, d: nat, r: nat)
    requires n == d * 0x10_0000_0000 + r && r < 0x10_0000_0000
    ensures n % 0x10_0000_0000 == r
  {
  }

  lemma PathNumber(v: nat)
    ensures var p := Path(v);
            v / 0x1000 % 0x10_0000_0000 == ((p[0] * 512 + p[1]) * 512 + p[2]) * 512 + p[3]
  {
    Quotients(v);
    var n, a, b, c := v / 0x1000, v / 0x20_0000, v / 0x4000_0000, v / 0x80_0000_0000;
    var p, q, r, t := c % 512, b % 512, a % 512, n % 512;
    var d := c / 512;
    assert n == a * 512 + t && a == b * 512 + r && b == c * 512 + q && c == d * 512 + p;
    LowDigits(n, d, ((p * 512 + q) * 512 + r) * 512 + t);
  }

  // ----- the tables in memory

  type Memory = map<nat, seq<Entry>>

  /** The walk get_pa does from the table in `frame` down the path, and the hardware does too where
      large pages are aligned to 2 MiB. */
  function Walk(mem: Memory, frame: nat, path: seq<nat>): Entry
    decreases path
  {
    if path == [] || frame !in mem || path[0] >= |mem[frame]| then ZERO
    else
      var e := mem[frame][path[0]];
      if |path| == 1 || e == ZERO then e
      else if |path| == 2 && Large(e) then Part(e, path[1])
      else Walk(mem, e.frame, path[1..])
  }

  /** Whether the processor lets user code write: every entry on the way down must allow it. */
  function Access(mem: Memory, frame: nat, path: seq<nat>): bool
    decreases path
  {
    path != [] && frame in mem && path[0] < |mem[frame]|
    && var e := mem[frame][path[0]];
       Usable(e) && (|path| == 1 || (|path| == 2 && Large(e)) || Access(mem, e.frame, path[1..]))
  }

  /** What get_pa computes from the tables: addresses above the high-half limit by their offset,
      others by the walk; 0 for address 0 and for pages that are not mapped. */
  function Translate(mem: Memory, root: nat, sharedMemory: nat, memoryStart: nat, va: nat): nat {
    if va == 0 then 0
    else if va > 0xFFFF_8000_0000_0000 then
      if va < 0xFFFF_8000_C000_0000 then va - 0xFFFF_8000_0000_0000 + sharedMemory
      else va - 0xFFFF_8000_C000_0000 + memoryStart
    else
      var e := Walk(mem, root, Path(va));
      if e == ZERO then 0 else 4096 * e.frame + va % 4096
  }

  // ----- the tables form a tree

  function EmptyTable(): (t: seq<Entry>)
    ensures |t| == 512 && forall i :: 0 <= i < 512 ==> t[i] == ZERO
  {
    seq(512, i => ZERO)
  }

  /** The entry of table p at index i names the table p + [i], if there is one; otherwise it is zero
      or, on the third level, maps a large page. */
  ghost predicate Link(mem: Memory, node: map<seq<nat>, nat>, p: seq<nat>, i: nat)
    requires p in node && node[p] in mem && i < |mem[node[p]]|
  {
    var e := mem[node[p]][i];
    if |p| == 2 && Large(e) then p + [i] !in node
    else (e == ZERO <==> p + [i] !in node) && (e != ZERO ==> node[p + [i]] == e.frame && !Large(e) && Usable(e))
  }

  ghost predicate TableOk(mem: Memory, node: map<seq<nat>, nat>, p: seq<nat>)
    requires p in node
  {
    && |p| <= 3 && node[p] in mem && |mem[node[p]]| == 512
    && (|p| > 0 ==> p[..|p| - 1] in node && p[|p| - 1] < 512)
  }

  ghost predicate Unshared(node: map<seq<nat>, nat>) {
    forall p, q {:trigger node[p], node[q]} :: p in node && q in node && p != q ==> node[p] != node[q]
  }

  /** `node` gives the frame of the table at each path: the tables form a tree, no table has two
      parents, and every entry above the lowest level is linked as it should be. */
  ghost predicate TreeOk(mem: Memory, root: nat, node: map<seq<nat>, nat>) {
    && [] in node && node[[]] == root
    && (forall p {:trigger TableOk(mem, node, p)} :: p in node ==> TableOk(mem, node, p))
    && Unshared(node)
    && (forall p, i: nat {:trigger Link(mem, node, p, i)} :: p in node && |p| < 3 && i < 512 && TableOk(mem, node, p) ==>
          Link(mem, node, p, i))
  }

  /** The third-level entry on a path, zero when there is no such table. */
  ghost function Pde(mem: Memory, node: map<seq<nat>, nat>, path: seq<nat>): Entry {
    if |path| >= 3 && path[..2] in node && node[path[..2]] in mem && path[2] < |mem[node[path[..2]]]|
    then mem[node[path[..2]]][path[2]] else ZERO
  }

  /** The entry that maps the page with the given path; zero when the page is not mapped. */
  ghost function Pte(mem: Memory, node: map<seq<nat>, nat>, path: seq<nat>): Entry {
    if |path| != 4 then ZERO
    else if path[..3] in node && node[path[..3]] in mem && path[3] < |mem[node[path[..3]]]| then
      mem[node[path[..3]]][path[3]]
    else if path[..3] !in node && path[3] < 512 && Large(Pde(mem, node, path)) then Part(Pde(mem, node, path), path[3])
    else ZERO
  }

  predicate IsPath(path: seq<nat>) {
    |path| == 4 && forall i :: 0 <= i < 4 ==> path[i] < 512
  }

  /** The walk through memory finds exactly the entry of the finite map. */
  lemma {:induction false} WalkFrom(mem: Memory, root: nat, node: map<seq<nat>, nat>, path: seq<nat>, k: nat)
    requires TreeOk(mem, root, node) && IsPath(path) && k <= 3 && path[..k] in node
    ensures Walk(mem, node[path[..k]], path[k..]) == Pte(mem, node, path)
    decreases 3 - k
  {
    assert TableOk(mem, node, path[..k]);
    assert path[k..][0] == path[k];
    if k < 3 {
      assert Link(mem, node, path[..k], path[k]);
      assert path[..k] + [path[k]] == path[..k + 1];
      assert path[k..][1..] == path[k + 1..];
      if path[..k + 1] in node {
        WalkFrom(mem, root, node, path, k + 1);
      } else {
        WalkEnds(mem, root, node, path, k);
      }
    }
  }

  /** User code may write a page iff its own entry allows it: the tables above never stand in the way. */
  lemma {:induction false} AccessFrom(mem: Memory, root: nat, node: map<seq<nat>, nat>, path: seq<nat>, k: nat)
    requires TreeOk(mem, root, node) && IsPath(path) && k <= 3 && path[..k] in node
    ensures Access(mem, node[path[..k]], path[k..]) <==> Usable(Pte(mem, node, path))
    decreases 3 - k
  {
    assert TableOk(mem, node, path[..k]);
    assert path[k..][0] == path[k] && !Usable(ZERO);
    if k < 3 {
      assert Link(mem, node, path[..k], path[k]);
      assert path[..k] + [path[k]] == path[..k + 1];
      assert path[k..][1..] == path[k + 1..];
      if path[..k + 1] in node {
        AccessFrom(mem, root, node, path, k + 1);
      } else {
        NoTableBelow(mem, root, node, path, k + 1);
      }
    }
  }

  lemma WalkEnds(mem: Memory, root: nat, node: map<seq<nat>, nat>, path: seq<nat>, k: nat)
    requires TreeOk(mem, root, node) && IsPath(path) && k < 3 && path[..k] in node && path[..k + 1] !in node
    requires TableOk(mem, node, path[..k]) && Link(mem, node, path[..k], path[k])
    ensures Walk(mem, node[path[..k]], path[k..]) == Pte(mem, node, path)
  {
    assert path[..k] + [path[k]] == path[..k + 1];
    assert path[k..][0] == path[k];
    NoTableBelow(mem, root, node, path, k + 1);
    if k == 2 { assert path[2..][1] == path[3]; }
  }

  /** Below a missing table there are none. */
  lemma {:induction false} NoTableBelow(mem: Memory, root: nat, node: map<seq<nat>, nat>, path: seq<nat>, k: nat)
    requires TreeOk(mem, root, node) && k <= 3 <= |path| && path[..k] !in node
    ensures path[..3] !in node && (k <= 2 ==> path[..2] !in node)
    decreases 3 - k
  {
    if k < 3 {
      assert path[..k + 1][..k] == path[..k];
      assert path[..k + 1] in node ==> TableOk(mem, node, path[..k + 1]);
      NoTableBelow(mem, root, node, path, k + 1);
    }
  }

  // ----- growing the tree

  /** Memory after a zeroed page becomes the table at p + [i]. */
  ghost function WithTable(mem: Memory, node: map<seq<nat>, nat>, p: seq<nat>, i: nat, frame: nat, e: Entry): Memory
    requires p in node && node[p] in mem && i < |mem[node[p]]|
  {
    mem[frame := EmptyTable()][node[p] := mem[node[p]][i := e]]
  }

  lemma AddTable(mem: Memory, root: nat, node: map<seq<nat>, nat>, p: seq<nat>, i: nat, frame: nat, e: Entry)
    requires TreeOk(mem, root, node) && p in node && |p| < 3 && i < 512 && TableOk(mem, node, p)
    requires mem[node[p]][i] == ZERO && e != ZERO && !Large(e) && Usable(e) && e.frame == frame && frame !in node.Values
    ensures TreeOk(WithTable(mem, node, p, i, frame, e), root, node[p + [i] := frame])
  {
    var mem', node' := WithTable(mem, node, p, i, frame, e), node[p + [i] := frame];
    var c := p + [i];
    assert Link(mem, node, p, i);
    assert c !in node && c != p && c[..|c| - 1] == p;
    assert node[p] != frame;
    forall q | q in node' ensures TableOk(mem', node', q) {
      if q != c { assert TableOk(mem, node, q); }
    }
    forall q, j: nat | q in node' && |q| < 3 && j < 512 && TableOk(mem', node', q) ensures Link(mem', node', q, j) {
      AddTableLink(mem, root, node, p, i, frame, e, q, j);
    }
  }

  lemma AddTableLink(mem: Memory, root: nat, node: map<seq<nat>, nat>, p: seq<nat>, i: nat, frame: nat, e: Entry,
                     q: seq<nat>, j: nat)
    requires TreeOk(mem, root, node) && p in node && |p| < 3 && i < 512 && TableOk(mem, node, p)
    requires mem[node[p]][i] == ZERO && e != ZERO && !Large(e) && Usable(e) && e.frame == frame && frame !in node.Values
    requires p + [i] !in node && (q in node || q == p + [i]) && |q| < 3 && j < 512
    requires TableOk(WithTable(mem, node, p, i, frame, e), node[p + [i] := frame], q)
    ensures Link(WithTable(mem, node, p, i, frame, e), node[p + [i] := frame], q, j)
  {
    var c := p + [i];
    assert (q + [j])[..|q|] == q && (q + [j])[|q|] == j;
    assert c[..|p|] == p && c[|p|] == i;
    if q == c {
      assert q + [j] in node ==> TableOk(mem, node, q + [j]);
      assert q + [j] != c;
    } else {
      assert TableOk(mem, node, q) && Link(mem, node, q, j);
      assert q + [j] == c <==> q == p && j == i;
    }
  }

  /** A new table maps nothing yet, so no translation changes. */
  lemma AddTableView(mem: Memory, root: nat, node: map<seq<nat>, nat>, p: seq<nat>, i: nat, frame: nat, e: Entry,
                     path: seq<nat>)
    requires TreeOk(mem, root, node) && p in node && |p| < 3 && i < 512 && TableOk(mem, node, p)
    requires mem[node[p]][i] == ZERO && !Large(e) && frame !in node.Values
    ensures Pte(WithTable(mem, node, p, i, frame, e), node[p + [i] := frame], path) == Pte(mem, node, path)
  {
    if |path| == 4 {
      var mem', node' := WithTable(mem, node, p, i, frame, e), node[p + [i] := frame];
      assert Link(mem, node, p, i) && (p + [i])[..|p|] == p;
      if path[..3] in node { assert TableOk(mem, node, path[..3]); }
      AddTablePde(mem, root, node, p, i, frame, e, path);
      if path[..3] == p + [i] {
        assert path[..2] == p && path[2] == i;
        assert node'[path[..3]] == frame && mem'[frame] == EmptyTable();
      }
    }
  }

  lemma AddTablePde(mem: Memory, root: nat, node: map<seq<nat>, nat>, p: seq<nat>, i: nat, frame: nat, e: Entry,
                    path: seq<nat>)
    requires TreeOk(mem, root, node) && p in node && |p| < 3 && i < 512 && TableOk(mem, node, p) && |path| == 4
    requires mem[node[p]][i] == ZERO && !Large(e) && frame !in node.Values && p + [i] !in node
    ensures var x, y := Pde(mem, node, path), Pde(WithTable(mem, node, p, i, frame, e), node[p + [i] := frame], path);
            y == x || (!Large(x) && !Large(y))
  {
    if path[..2] in node {
      assert TableOk(mem, node, path[..2]);
      assert path[..2] != p ==> node[path[..2]] != node[p];
    }
  }

  // ----- writing a page's entry

  ghost function WithPte(mem: Memory, node: map<seq<nat>, nat>, path: seq<nat>, e: Entry): Memory
    requires |path| == 4 && path[..3] in node && node[path[..3]] in mem && path[3] < |mem[node[path[..3]]]|
  {
    mem[node[path[..3]] := mem[node[path[..3]]][path[3] := e]]
  }

  lemma WriteTree(mem: Memory, root: nat, node: map<seq<nat>, nat>, path: seq<nat>, e: Entry)
    requires TreeOk(mem, root, node) && |path| == 4 && path[..3] in node && path[3] < 512
    requires TableOk(mem, node, path[..3])
    ensures TreeOk(WithPte(mem, node, path, e), root, node)
  {
    var mem' := WithPte(mem, node, path, e);
    forall q | q in node ensures TableOk(mem', node, q) { assert TableOk(mem, node, q); }
    forall q, j: nat | q in node && |q| < 3 && j < 512 && TableOk(mem', node, q) ensures Link(mem', node, q, j) {
      assert TableOk(mem, node, q) && Link(mem, node, q, j);
      assert node[q] != node[path[..3]];
    }
  }

  /** Exactly the entry of the written page changes. */
  lemma WriteView(mem: Memory, root: nat, node: map<seq<nat>, nat>, path: seq<nat>, e: Entry, other: seq<nat>)
    requires TreeOk(mem, root, node) && |path| == 4 && |other| == 4 && path[..3] in node && path[3] < 512
    requires TableOk(mem, node, path[..3])
    ensures Pte(WithPte(mem, node, path, e), node, other) == if other == path then e else Pte(mem, node, other)
  {
    assert path == path[..3] + [path[3]] && other == other[..3] + [other[3]];
    if other[..3] in node && other[..3] != path[..3] {
      assert node[other[..3]] != node[path[..3]];
    }
  }

  /** Writing memory that holds no table changes nothing. */
  lemma DataTree(mem: Memory, root: nat, node: map<seq<nat>, nat>, frame: nat, data: seq<Entry>)
    requires TreeOk(mem, root, node) && frame !in node.Values
    ensures TreeOk(mem[frame := data], root, node)
    ensures forall path :: Pte(mem[frame := data], node, path) == Pte(mem, node, path)
  {
    var mem' := mem[frame := data];
    assert forall q :: q in node ==> node[q] != frame;
    forall q | q in node ensures TableOk(mem', node, q) { assert TableOk(mem, node, q); }
    forall q, j: nat | q in node && |q| < 3 && j < 512 && TableOk(mem', node, q) ensures Link(mem', node, q, j) {
      assert TableOk(mem, node, q) && Link(mem, node, q, j);
    }
  }

  // ----- writing a third-level entry

  /** Memory after the third-level entry on the path is set to e. */
  ghost function WithPde(mem: Memory, node: map<seq<nat>, nat>, path: seq<nat>, e: Entry): Memory
    requires |path| == 4 && path[..2] in node && node[path[..2]] in mem && path[2] < |mem[node[path[..2]]]|
  {
    mem[node[path[..2]] := mem[node[path[..2]]][path[2] := e]]
  }

  /** Setting it to a large page or to zero drops the table it may have named. */
  lemma PdeTree(mem: Memory, root: nat, node: map<seq<nat>, nat>, path: seq<nat>, e: Entry)
    requires TreeOk(mem, root, node) && IsPath(path) && path[..2] in node && TableOk(mem, node, path[..2])
    requires e == ZERO || Large(e)
    ensures TreeOk(WithPde(mem, node, path, e), root, node - {path[..3]})
  {
    var mem', node' := WithPde(mem, node, path, e), node - {path[..3]};
    assert |path[..3]| == 3;
    forall q | q in node' ensures TableOk(mem', node', q) {
      assert TableOk(mem, node, q);
      assert |q| > 0 ==> |q[..|q| - 1]| < 3 && q[..|q| - 1] in node';
    }
    forall q, j: nat | q in node' && |q| < 3 && j < 512 && TableOk(mem', node', q) ensures Link(mem', node', q, j) {
      PdeLink(mem, root, node, path, e, q, j);
    }
  }

  lemma PdeLink(mem: Memory, root: nat, node: map<seq<nat>, nat>, path: seq<nat>, e: Entry, q: seq<nat>, j: nat)
    requires TreeOk(mem, root, node) && IsPath(path) && path[..2] in node && TableOk(mem, node, path[..2])
    requires (e == ZERO || Large(e)) && q in node - {path[..3]} && |q| < 3 && j < 512
    requires TableOk(WithPde(mem, node, path, e), node - {path[..3]}, q)
    ensures Link(WithPde(mem, node, path, e), node - {path[..3]}, q, j)
  {
    assert TableOk(mem, node, q) && Link(mem, node, q, j);
    assert path[..3] == path[..2] + [path[2]] && |path[..2]| == 2;
    if q == path[..2] {
      assert (q + [j])[2] == j && path[..3][2] == path[2];
      assert q + [j] == path[..3] <==> j == path[2];
      assert !Large(ZERO);
    } else {
      assert node[q] != node[path[..2]];
      assert (q + [j])[..|q|] == q && |q + [j]| == |q| + 1;
      assert |q| == 2 ==> path[..3][..2] == path[..2];
      assert q + [j] != path[..3];
    }
  }

  /** It changes the mapping of the 512 pages below it, and of no others. */
  lemma PdeView(mem: Memory, root: nat, node: map<seq<nat>, nat>, path: seq<nat>, e: Entry, other: seq<nat>)
    requires TreeOk(mem, root, node) && IsPath(path) && IsPath(other) && path[..2] in node && TableOk(mem, node, path[..2])
    requires e == ZERO || Large(e)
    ensures Pte(WithPde(mem, node, path, e), node - {path[..3]}, other) ==
            if other[..3] != path[..3] then Pte(mem, node, other) else if e == ZERO then ZERO else Part(e, other[3])
  {
    assert path[..3] == path[..2] + [path[2]] && other[..3] == other[..2] + [other[2]];
    if other[..3] in node {
      assert TableOk(mem, node, other[..3]);
      assert other[..3] != path[..2] && node[other[..3]] != node[path[..2]];
    }
    if other[..2] in node {
      assert TableOk(mem, node, other[..2]);
      assert other[..2] != path[..2] ==> node[other[..2]] != node[path[..2]];
    }
    assert !Large(ZERO) && |path[..2]| != |path[..3]| && |other[..2]| != |path[..3]|;
    assert other[..3] == path[..3] ==> other[..2] == path[..2] && other[2] == path[2];
  }

  // ----- the kernel's page table

  /** Memory of the table pages, the frame of the top-level table, and the frames the page
      allocator will hand out next. */
  class PageMap {
    const root: nat
    const memoryStart: nat     // physical addresses where the kernel's own memory
    const sharedMemory: nat    // and the shared memory begin
    var mem: Memory
    var spare: seq<nat>
    ghost var node: map<seq<nat>, nat>

    ghost predicate Valid()
      reads this
    {
      && TreeOk(mem, root, node)
      // pages from the allocator are not tables already, and are handed out once
      && (forall i :: 0 <= i < |spare| ==> spare[i] !in node.Values)
      && (forall i, j :: 0 <= i < j < |spare| ==> spare[i] != spare[j])
    }

    /** The entry that translates the page of path p. */
    ghost function View(p: seq<nat>): Entry
      reads this
    {
      Pte(mem, node, p)
    }

    /** The page of path lies in a 2 MiB page. */
    ghost predicate InLarge(path: seq<nat>)
      reads this
    {
      Large(Pde(mem, node, path))
    }

    /** A page table whose top level is a zeroed page. */
    constructor (root: nat, spare: seq<nat>, memoryStart: nat, sharedMemory: nat)
      requires root !in spare && forall i, j :: 0 <= i < j < |spare| ==> spare[i] != spare[j]
      ensures Valid() && this.root == root && this.spare == spare
      ensures this.memoryStart == memoryStart && this.sharedMemory == sharedMemory
      ensures forall p :: |p| == 4 ==> View(p) == ZERO
      ensures node.Values == {root}
    {
      this.root := root;
      this.spare := spare;
      this.memoryStart := memoryStart;
      this.sharedMemory := sharedMemory;
      mem := map[root := EmptyTable()];
      node := map[[] := root];
      new;
      assert TableOk(mem, node, []);
      forall i: nat | i < 512 ensures Link(mem, node, [], i) {
        assert [] + [i] != [];
      }
    }

    /** One level of the walk: the table below table p at index i, made from a zeroed page when
        the entry is empty.  Fails only when the allocator has no page. */
    method EnsureTable(frame: nat, i: nat, ghost p: seq<nat>) returns (ok: bool, child: nat)
      requires Valid() && p in node && |p| < 3 && node[p] == frame && i < 512
      requires frame in mem && |mem[frame]| == 512 && (|p| == 2 ==> !Large(mem[frame][i]))
      modifies this
      ensures Valid() && (forall q :: |q| == 4 ==> View(q) == old(View(q)))
      ensures forall f :: f in node.Values ==> f in old(node.Values) || f in old(spare)
      ensures forall q :: |q| == 4 ==> InLarge(q) == old(InLarge(q))
      ensures p + [i] in old(node) ==> ok && mem == old(mem) && node == old(node)
      ensures ok ==> p + [i] in node && node[p + [i]] == child && child in mem && |mem[child]| == 512
      ensures forall q :: q in old(node) ==> q in node && node[q] == old(node)[q]
      ensures !ok ==> old(spare) == [] && mem == old(mem) && node == old(node) && p + [i] !in node
      ensures spare == old(spare) || (old(spare) != [] && spare == old(spare)[1..])
    {
      assert TableOk(mem, node, p) && Link(mem, node, p, i);
      if mem[frame][i] == ZERO {
        if spare == [] {
          return false, 0;
        }
        NewTable(frame, i, p);
      }
      assert TableOk(mem, node, p + [i]) && TableOk(mem, node, p) && Link(mem, node, p, i);
      return true, mem[frame][i].frame;
    }

    /** A zeroed page from the allocator becomes the table below table p at index i. */
    method NewTable(frame: nat, i: nat, ghost p: seq<nat>)
      requires Valid() && p in node && |p| < 3 && node[p] == frame && i < 512 && spare != []
      requires frame in mem && |mem[frame]| == 512 && mem[frame][i] == ZERO
      modifies this
      ensures Valid() && (forall q :: |q| == 4 ==> View(q) == old(View(q)))
      ensures forall f :: f in node.Values ==> f in old(node.Values) || f in old(spare)
      ensures forall q :: |q| == 4 ==> InLarge(q) == old(InLarge(q))
      ensures spare == old(spare)[1..] && node == old(node)[p + [i] := old(spare)[0]]
      ensures p + [i] !in old(node) && frame in mem && |mem[frame]| == 512 && mem[frame][i].frame == old(spare)[0]
    {
      assert TableOk(mem, node, p) && Link(mem, node, p, i);
      var page := spare[0];
      ghost var mem0, node0 := mem, node;
      var e := MakeEntry(page, 0, FLAGS_TABLE);
      TableFlags(page);
      AddTable(mem, root, node, p, i, page, e);
      assert page != frame;
      spare := spare[1..];
      mem := mem[page := EmptyTable()];
      mem := mem[frame := mem[frame][i := e]];
      node := node[p + [i] := page];
      assert mem == WithTable(mem0, node0, p, i, page, e);
      forall q | |q| == 4 ensures View(q) == Pte(mem0, node0, q) && InLarge(q) == Large(Pde(mem0, node0, q)) {
        AddTableView(mem0, root, node0, p, i, page, e, q);
        AddTablePde(mem0, root, node0, p, i, page, e, q);
      }
      assert node.Values <= node0.Values + {page};
    }

    /** The two upper levels of the walk, as lk_map and get_pa both do it. */
    method WalkUpper(path: seq<nat>) returns (ok: bool, pd: nat)
      requires Valid() && IsPath(path)
      modifies this
      ensures Valid() && (forall q :: |q| == 4 ==> View(q) == old(View(q)))
      ensures forall f :: f in node.Values ==> f in old(node.Values) || f in old(spare)
      ensures forall q :: |q| == 4 ==> InLarge(q) == old(InLarge(q))
      ensures path[..2] in old(node) ==> ok && mem == old(mem) && node == old(node)
      ensures ok ==> path[..2] in node && node[path[..2]] == pd && pd in mem && |mem[pd]| == 512
      ensures |spare| >= |old(spare)| - 2
      ensures !ok ==> spare == [] && path[..2] !in node && path[..3] !in node
      ensures exists n :: 0 <= n <= |old(spare)| && spare == old(spare)[n..]
    {
      assert path[..0] == [] && path[..1] == [] + [path[0]] && path[..2] == path[..1] + [path[1]];
      assert path[..2] in node ==> TableOk(mem, node, path[..2]) && path[..2][..1] == path[..1];
      ghost var s0 := spare;
      assert s0 == s0[0..];
      assert TableOk(mem, node, []);
      var pdpt;
      ok, pdpt := EnsureTable(root, path[0], []);
      if !ok {
        NoTableBelow(mem, root, node, path, 1);
        return false, 0;
      }
      ghost var s1 := spare;
      ok, pd := EnsureTable(pdpt, path[1], path[..1]);
      Dropped(s0, s1, spare);
      if !ok {
        NoTableBelow(mem, root, node, path, 2);
      }
    }

    lemma Dropped(s: seq<nat>, t: seq<nat>, u: seq<nat>)
      requires exists n :: 0 <= n <= |s| && t == s[n..]
      requires u == t || (t != [] && u == t[1..])
      ensures exists n :: 0 <= n <= |s| && u == s[n..]
    {
      var n :| 0 <= n <= |s| && t == s[n..];
      if u != t { assert u == s[n + 1..]; }
    }

    /** The third level of the walk: a large page, or the table of 4 KiB pages. */
    method WalkTables(path: seq<nat>) returns (ok: bool, large: bool, table: nat)
      requires Valid() && IsPath(path)
      modifies this
      ensures Valid() && (forall q :: |q| == 4 ==> View(q) == old(View(q)))
      ensures forall f :: f in node.Values ==> f in old(node.Values) || f in old(spare)
      ensures large == old(InLarge(path))
      ensures large ==> node == old(node) && table == old(Pde(mem, node, path)).frame
      ensures large ==> ok && View(path) != ZERO && View(path).frame == table + path[3]
      ensures ok && !large ==> path[..3] in node && node[path[..3]] == table && table in mem && |mem[table]| == 512
      ensures !ok ==> spare == [] && View(path) == ZERO
      ensures |spare| >= |old(spare)| - 3
      ensures exists n :: 0 <= n <= |old(spare)| && spare == old(spare)[n..]
    {
      assert path[..3] == path[..2] + [path[2]] && !Large(ZERO);
      ghost var s0 := spare;
      var pd;
      ok, pd := WalkUpper(path);
      if !ok {
        return false, false, 0;
      }
      assert TableOk(mem, node, path[..2]) && Link(mem, node, path[..2], path[2]);
      if Large(mem[pd][path[2]]) {
        assert !Large(ZERO) && Large(View(path));
        return true, true, mem[pd][path[2]].frame;
      }
      ghost var s1 := spare;
      ok, table := EnsureTable(pd, path[2], path[..2]);
      Dropped(s0, s1, spare);
      large := false;
    }

    /** lk_map for a 4 KiB page.  On success exactly the page of `va` gets the new entry; on failure,
        which takes an exhausted allocator, no translation changes.  Inside a large page the entry
        lands in that page's own memory: the call reports success and translates nothing differently. */
    method Map(va: nat, frame: nat, low: bv12, cache: nat) returns (ok: bool)
      requires Valid() && (InLarge(Path(va)) ==> Pde(mem, node, Path(va)).frame !in node.Values)
      modifies this
      ensures Valid()
      ensures !ok ==> spare == [] && !old(InLarge(Path(va)))
      ensures ok && !old(InLarge(Path(va))) ==> Usable(View(Path(va))) && View(Path(va)).frame == frame
      ensures ok && !old(InLarge(Path(va))) && low == 0 ==> (Uncached(View(Path(va))) <==> cache != 0)
      ensures forall q :: |q| == 4 ==>
        View(q) == if ok && q == Path(va) && !old(InLarge(q)) then MakeEntry(frame, low, MapFlags(cache)) else old(View(q))
    {
      var path := Path(va);
      var large, table;
      ok, large, table := WalkTables(path);
      if ok {
        if large {
          WriteData(table, path[3], MakeEntry(frame, low, MapFlags(cache)));
        } else {
          MapFlagsAre(frame, low, cache);
          SetPte(path, table, MakeEntry(frame, low, MapFlags(cache)));
        }
      }
    }

    /** An entry written to memory that holds no table translates nothing. */
    method WriteData(frame: nat, i: nat, e: Entry)
      requires Valid() && frame !in node.Values
      modifies `mem
      ensures Valid() && (forall q :: |q| == 4 ==> View(q) == old(View(q)))
    {
      if frame in mem && i < |mem[frame]| {
        DataTree(mem, root, node, frame, mem[frame][i := e]);
        mem := mem[frame := mem[frame][i := e]];
      }
    }

    /** The walk to the table of third-level entries; an empty entry is given a table even when it
        will hold a large page. */
    method WalkEntry(path: seq<nat>) returns (ok: bool, pd: nat)
      requires Valid() && IsPath(path)
      modifies this
      ensures Valid() && (forall q :: |q| == 4 ==> View(q) == old(View(q)))
      ensures forall f :: f in node.Values ==> f in old(node.Values) || f in old(spare)
      ensures ok ==> path[..2] in node && node[path[..2]] == pd
      ensures !ok ==> |old(spare)| < 3
      ensures !ok ==> spare == []
    {
      ok, pd := WalkUpper(path);
      if ok && !Large(mem[pd][path[2]]) {
        var table;
        ok, table := EnsureTable(pd, path[2], path[..2]);
      }
    }

    /** lk_map for a 2 MiB page: the 512 pages below the third-level entry are mapped to consecutive
        frames, whatever was mapped there, and no other page changes. */
    method MapLarge(va: nat, frame: nat, low: bv12, cache: nat) returns (ok: bool)
      requires Valid()
      modifies this
      ensures Valid()
      ensures !ok ==> spare == [] && |old(spare)| < 3
      ensures ok ==> forall q :: IsPath(q) && q[..3] == Path(va)[..3] ==> InLarge(q) && Pde(mem, node, q).frame == frame
      ensures ok ==> forall q :: IsPath(q) && q[..3] == Path(va)[..3] ==>
                Usable(View(q)) && (low == 0 ==> (Uncached(View(q)) <==> cache != 0))
      ensures forall f :: f in node.Values ==> f in old(node.Values) || f in old(spare)
      ensures forall q :: IsPath(q) ==>
        View(q) == if ok && q[..3] == Path(va)[..3] then Part(MakeEntry(frame, low, MapFlags(cache) | FLAGS_PS), q[3])
                   else old(View(q))
    {
      var path := Path(va);
      var pd;
      ok, pd := WalkEntry(path);
      if !ok {
        return;
      }
      LargeFlags(frame, low, MapFlags(cache));
      MapFlagsAre(frame, low, cache);
      SetPde(path, pd, MakeEntry(frame, low, MapFlags(cache) | FLAGS_PS));
    }

    method SetPde(path: seq<nat>, pd: nat, e: Entry)
      requires Valid() && IsPath(path) && path[..2] in node && node[path[..2]] == pd && (e == ZERO || Large(e))
      modifies `mem, `node
      ensures Valid()
      ensures node.Values <= old(node.Values) && path[..2] in node
      ensures forall q :: IsPath(q) && q[..3] == path[..3] ==> Pde(mem, node, q) == e
      ensures forall q :: IsPath(q) ==>
        View(q) == if q[..3] != path[..3] then old(View(q)) else if e == ZERO then ZERO else Part(e, q[3])
    {
      assert TableOk(mem, node, path[..2]);
      PdeTree(mem, root, node, path, e);
      forall q | IsPath(q)
        ensures Pte(WithPde(mem, node, path, e), node - {path[..3]}, q) ==
                if q[..3] != path[..3] then Pte(mem, node, q) else if e == ZERO then ZERO else Part(e, q[3])
      {
        PdeView(mem, root, node, path, e, q);
      }
      mem := mem[pd := mem[pd][path[2] := e]];
      assert forall p :: p in node - {path[..3]} ==> (node - {path[..3]})[p] == node[p];
      node := node - {path[..3]};
      assert |path[..2]| != |path[..3]|;
      forall q | IsPath(q) && q[..3] == path[..3] ensures q[..2] == path[..2] && q[2] == path[2] {
        assert q[..3][..2] == q[..2] && q[..3][2] == q[2];
      }
    }

    method SetPte(path: seq<nat>, table: nat, e: Entry)
      requires Valid() && |path| == 4 && path[..3] in node && node[path[..3]] == table && path[3] < 512
      modifies `mem
      ensures Valid()
      ensures forall q :: |q| == 4 ==> View(q) == if q == path then e else old(View(q))
    {
      assert TableOk(mem, node, path[..3]);
      WriteTree(mem, root, node, path, e);
      forall q | |q| == 4
        ensures Pte(WithPte(mem, node, path, e), node, q) == if q == path then e else Pte(mem, node, q)
      {
        WriteView(mem, root, node, path, e, q);
      }
      mem := mem[table := mem[table][path[3] := e]];
    }

    /** lk_unmap: the entry of a 4 KiB page becomes zero, a large page loses all its 512 pages, and
        every other translation stays. */
    method Unmap(va: nat)
      requires Valid() && (Path(va)[..3] in node || InLarge(Path(va)))
      modifies `mem, `node
      ensures Valid()
      ensures forall q :: IsPath(q) ==>
        View(q) == if q == Path(va) || (old(InLarge(Path(va))) && q[..3] == Path(va)[..3]) then ZERO else old(View(q))
    {
      var path := Path(va);
      TablesOnPath(path);
      var pdpt := mem[root][path[0]].frame;
      var pd := mem[pdpt][path[1]].frame;
      if Large(mem[pd][path[2]]) {
        SetPde(path, pd, MakeEntry(0, 0, 0));
      } else {
        TableAbove(path, 2);
        SetPte(path, mem[pd][path[2]].frame, MakeEntry(0, 0, 0));
      }
    }

    /** Each table on the way to an existing third-level table names the next one. */
    lemma TablesOnPath(path: seq<nat>)
      requires Valid() && IsPath(path) && (path[..3] in node || InLarge(path))
      ensures root in mem && path[0] < |mem[root]| && path[..2] in node
      ensures var pdpt := mem[root][path[0]].frame;
              && pdpt in mem && path[1] < |mem[pdpt]|
              && var pd := mem[pdpt][path[1]].frame;
                 pd in mem && path[2] < |mem[pd]| && pd == node[path[..2]]
    {
      assert !Large(ZERO);
      if path[..3] in node {
        TableAbove(path, 2);
      }
      assert TableOk(mem, node, path[..2]);
      TableAbove(path, 1);
      TableAbove(path, 0);
      assert path[..0] == [];
    }

    lemma TableAbove(path: seq<nat>, k: nat)
      requires Valid() && k < 3 <= |path| && path[..k + 1] in node && path[k] < 512
      ensures path[..k] in node && node[path[..k]] in mem && |mem[node[path[..k]]]| == 512
      ensures mem[node[path[..k]]][path[k]].frame == node[path[..k + 1]]
    {
      assert path[..k + 1][..k] == path[..k] && path[..k] + [path[k]] == path[..k + 1];
      assert TableOk(mem, node, path[..k + 1]) && TableOk(mem, node, path[..k]);
      assert Link(mem, node, path[..k], path[k]);
    }

    /** What the processor's own four-level walk finds is the view. */
    lemma WalkIsView(path: seq<nat>)
      requires Valid() && |path| == 4 && forall i :: 0 <= i < 4 ==> path[i] < 512
      ensures Walk(mem, root, path) == View(path)
    {
      assert path[..0] == [] && path[0..] == path;
      WalkFrom(mem, root, node, path, 0);
    }

    /** What the processor allows user code is what the page's entry allows. */
    lemma AccessIsView(path: seq<nat>)
      requires Valid() && IsPath(path)
      ensures Access(mem, root, path) <==> Usable(View(path))
    {
      assert path[..0] == [] && path[0..] == path;
      AccessFrom(mem, root, node, path, 0);
    }

    /** get_pa: the translation by the tables as it leaves them. An unmapped page below the high-half
        limit is given a fresh frame first; the result is 0 when the allocator is exhausted. */
    method GetPa(va: nat) returns (pa: nat)
      requires Valid()
      modifies this
      ensures Valid()
      ensures pa == Translate(mem, root, sharedMemory, memoryStart, va)
      ensures va == 0 || va > 0xFFFF_8000_0000_0000 ==> unchanged(this)
      ensures forall p :: p >= memoryStart && va == KernelVa(p, memoryStart) ==> pa == p
      ensures 0xFFFF_8000_0000_0000 < va < 0xFFFF_8000_C000_0000 ==> pa - sharedMemory == va - 0xFFFF_8000_0000_0000
      ensures forall q :: |q| == 4 && q != Path(va) ==> View(q) == old(View(q))
      ensures old(View(Path(va))) != ZERO ==> View(Path(va)) == old(View(Path(va)))
      ensures |spare| >= |old(spare)| - 4
      ensures old(View(Path(va))) == ZERO && View(Path(va)) != ZERO ==>
                View(Path(va)).frame in old(spare) && Usable(View(Path(va))) && !Uncached(View(Path(va)))
      ensures 0 < va <= 0xFFFF_8000_0000_0000 ==>
                if View(Path(va)) != ZERO then pa == 4096 * View(Path(va)).frame + va % 4096
                else pa == 0 && spare == []
    {
      if va == 0 {
        return 0;
      }
      if va > 0xFFFF_8000_0000_0000 {
        if va < 0xFFFF_8000_C000_0000 {
          return va - 0xFFFF_8000_0000_0000 + sharedMemory;
        } else {
          return va - 0xFFFF_8000_C000_0000 + memoryStart;
        }
      }
      pa := WalkPa(va);
      WalkIsView(Path(va));
    }

    /** The offset in a large page is that of its 4 KiB page and the offset in it. */
    lemma LargeOffset(va: nat)
      ensures va % 0x20_0000 == 4096 * Path(va)[3] + va % 4096
    {
      assert va == 4096 * (va / 4096) + va % 4096;
      assert va / 4096 == 512 * (va / 4096 / 512) + va / 4096 % 512;
    }

    /** The part of get_pa that walks the tables. */
    method WalkPa(va: nat) returns (pa: nat)
      requires Valid()
      modifies this
      ensures Valid()
      ensures forall q :: |q| == 4 && q != Path(va) ==> View(q) == old(View(q))
      ensures old(View(Path(va))) != ZERO ==> View(Path(va)) == old(View(Path(va)))
      ensures |spare| >= |old(spare)| - 4
      ensures old(View(Path(va))) == ZERO && View(Path(va)) != ZERO ==>
                View(Path(va)).frame in old(spare) && Usable(View(Path(va))) && !Uncached(View(Path(va)))
      ensures if View(Path(va)) != ZERO then pa == 4096 * View(Path(va)).frame + va % 4096
              else pa == 0 && spare == []
    {
      var path := Path(va);
      var ok, large, table := WalkTables(path);
      if !ok {
        return 0;
      }
      if large {
        LargeOffset(va);
        return 4096 * table + va % 0x20_0000;
      }
      assert TableOk(mem, node, path[..3]);
      if mem[table][path[3]] == ZERO {
        if spare == [] {
          return 0;
        }
        var page := spare[0];
        MadeIsNotZero(page, 0, FLAGS_TABLE);
        TableFlags(page);
        assert page in old(spare);
        spare := spare[1..];
        SetPte(path, table, MakeEntry(page, 0, FLAGS_TABLE));
      }
      return 4096 * mem[table][path[3]].frame + va % 4096;
    }

    lemma LargeIsMapped(path: seq<nat>)
      requires Valid() && IsPath(path)
      ensures InLarge(path) ==> View(path) != ZERO
    {
      assert !Large(ZERO);
      if InLarge(path) {
        assert TableOk(mem, node, path[..2]) && Link(mem, node, path[..2], path[2]);
        assert path[..3] == path[..2] + [path[2]];
      }
    }

    /** Mapping a page and translating any address v of it gives the mapped frame plus the offset, or
        the frame it had before where the page is part of a large one. */
    method MapThenGetPa(va: nat, frame: nat, low: bv12, cache: nat, v: nat) returns (ok: bool, pa: nat)
      requires Valid() && (InLarge(Path(va)) ==> Pde(mem, node, Path(va)).frame !in node.Values)
      requires 0 < v <= 0xFFFF_8000_0000_0000 && Path(v) == Path(va)
      modifies this
      ensures Valid() && (!ok ==> spare == [] && !old(InLarge(Path(va))))
      ensures ok ==> pa == 4096 * (if old(InLarge(Path(va))) then old(View(Path(va))).frame else frame) + v % 4096
      ensures forall q :: |q| == 4 && q != Path(va) ==> View(q) == old(View(q))
    {
      LargeIsMapped(Path(va));
      ok := Map(va, frame, low, cache);
      pa := 0;
      if ok {
        MapFlagsPresent(cache);
        MadeIsNotZero(frame, low, MapFlags(cache));
        pa := GetPa(v);
      }
    }

    /** Mapping a large page and translating any address v of it gives the mapped frame plus the
        offset of v in the large page. */
    method MapLargeThenGetPa(va: nat, frame: nat, low: bv12, cache: nat, v: nat) returns (ok: bool, pa: nat)
      requires Valid() && 0 < v <= 0xFFFF_8000_0000_0000 && Path(v)[..3] == Path(va)[..3]
      modifies this
      ensures Valid() && (!ok ==> spare == [])
      ensures ok ==> pa == 4096 * frame + v % 0x20_0000
      ensures forall q :: IsPath(q) && q[..3] != Path(va)[..3] ==> View(q) == old(View(q))
    {
      ok := MapLarge(va, frame, low, cache);
      pa := 0;
      if ok {
        LargeFlags(frame, low, MapFlags(cache));
        LargeOffset(v);
        assert !Large(ZERO) && Large(View(Path(v)));
        pa := GetPa(v);
      }
    }
  }

  /** A 4 KiB page inside a large one is not mapped: from an empty page table, map the large page of
      `va` and then any page v of it. Both calls succeed, and v still translates as in the large page. */
  method SmallInLarge(root: nat, spare: seq<nat>, va: nat, frame: nat, low: bv12, cache: nat, v: nat, other: nat)
    returns (ok: bool, pa: nat)
    requires |spare| >= 3 && root !in spare && forall i, j :: 0 <= i < j < |spare| ==> spare[i] != spare[j]
    requires frame != root && frame !in spare
    requires 0 < v <= 0xFFFF_8000_0000_0000 && Path(v)[..3] == Path(va)[..3]
    ensures ok && pa == 4096 * frame + v % 0x20_0000
  {
    var tables := new PageMap(root, spare, 0, 0);
    ok := tables.MapLarge(va, frame, low, cache);
    tables.LargeOffset(v);
    ok, pa := tables.MapThenGetPa(v, other, low, cache, v);
  }

  /** The attributes lk_map gives a page. */
  function MapFlags(cache: nat): bv12 {
    (if cache == 0 then FLAGS_P | FLAGS_RW else FLAGS_P | FLAGS_RW | FLAGS_PCD) | FLAGS_US
  }

  lemma MapFlagsPresent(cache: nat)
    ensures MapFlags(cache) & FLAGS_P != 0
  {
  }

  /** What the flags mean: a mapped page is usable, and uncached iff asked to be. */
  lemma MapFlagsAre(frame: nat, low: bv12, cache: nat)
    ensures Usable(MakeEntry(frame, low, MapFlags(cache)))
    ensures Usable(MakeEntry(frame, low, MapFlags(cache) | FLAGS_PS))
    ensures low == 0 ==> (Uncached(MakeEntry(frame, low, MapFlags(cache))) <==> cache != 0)
    ensures low == 0 ==> (Uncached(MakeEntry(frame, low, MapFlags(cache) | FLAGS_PS)) <==> cache != 0)
  {
    assert MapFlags(cache) == if cache == 0 then 0x007 else 0x017;
  }

  /** `va` of page.h: where the kernel sees a physical address of its own memory. */
  function KernelVa(p: nat, memoryStart: nat): nat
    requires p >= memoryStart
  {
    p + 0xFFFF_8000_C000_0000 - memoryStart
  }

  /** Translating the kernel's own view of a physical address gives that address back, and shared
      memory is translated by its offset. */
  lemma HighHalfRoundTrip(mem: Memory, root: nat, sharedMemory: nat, memoryStart: nat, p: nat, o: nat)
    requires p >= memoryStart && 0 < o < 0xC000_0000
    ensures Translate(mem, root, sharedMemory, memoryStart, KernelVa(p, memoryStart)) == p
    ensures Translate(mem, root, sharedMemory, memoryStart, 0xFFFF_8000_0000_0000 + o) == sharedMemory + o
  {
  }
}
