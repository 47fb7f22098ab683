/** Splitting a virtual buffer into physically contiguous runs for scatter/gather. */
module Iovec {
  import opened PageTable

  datatype Run = Run(base: int, len: nat)

  /** The physical addresses of the bytes of a run, and of a list of runs, in order. */
  function Bytes(r: Run): (b: seq<int>)
    ensures |b| == r.len && forall i :: 0 <= i < r.len ==> b[i] == r.base + i
  {
    seq(r.len, i => r.base + i)
  }

  function AllBytes(runs: seq<Run>): seq<int> {
    if runs == [] then [] else AllBytes(runs[..|runs| - 1]) + Bytes(runs[|runs| - 1])
  }

  function TotalLength(runs: seq<Run>): nat {
    if runs == [] then 0 else TotalLength(runs[..|runs| - 1]) + runs[|runs| - 1].len
  }

  lemma {:induction false} LengthsAddUp(runs: seq<Run>)
    ensures TotalLength(runs) == |AllBytes(runs)|
  {
    if runs != [] { LengthsAddUp(runs[..|runs| - 1]); }
  }

  /** Within a buffer, the translation works page by page: the bytes of one page are consecutive in
      one frame. */
  ghost predicate PageWise(pa: nat -> int, buf: nat, count: nat) {
    forall v: nat, i: nat {:trigger SameFrame(pa, v, i)} :: buf <= v && v + i < buf + count ==> SameFrame(pa, v, i)
  }

  ghost predicate SameFrame(pa: nat -> int, v: nat, i: nat) {
    v % 4096 + i < 4096 ==> pa(v + i) == pa(v) + i
  }

  /** The translation get_pa makes by tables that map every page of the buffer below the high-half
      limit, unless the buffer runs across that limit, where one page is translated in two ways. */
  lemma TablesArePageWise(mem: Memory, root: nat, shared: nat, start: nat, buf: nat, count: nat)
    requires MappedBuffer(mem, root, buf, count)
    ensures PageWise((v: nat) => Translate(mem, root, shared, start, v), buf, count)
  {
    var pa := (v: nat) => Translate(mem, root, shared, start, v);
    forall v: nat, i: nat | buf <= v && v + i < buf + count ensures SameFrame(pa, v, i) {
      if v % 4096 + i < 4096 { TranslatePage(mem, root, shared, start, buf, count, v, i); }
    }
  }

  ghost predicate MappedBuffer(mem: Memory, root: nat, buf: nat, count: nat) {
    && InOneHalf(buf, count)
    && forall v: nat {:trigger Path(v)} :: buf <= v < buf + count && v <= 0xFFFF_8000_0000_0000 ==>
         v > 0 && Walk(mem, root, Path(v)) != ZERO
  }

  lemma TranslatePage(mem: Memory, root: nat, shared: nat, start: nat, buf: nat, count: nat, v: nat, i: nat)
    requires MappedBuffer(mem, root, buf, count) && buf <= v && v + i < buf + count && v % 4096 + i < 4096
    ensures Translate(mem, root, shared, start, v + i) == Translate(mem, root, shared, start, v) + i
  {
    if v <= 0xFFFF_8000_0000_0000 {
      PageOf(v, i);
      SamePath(v + i, v);
      assert Path(v + i) == Path(v);
    } else {
      HighPage(v, i);
    }
  }

  lemma PageOf(v: nat, i: nat)
    requires v % 4096 + i < 4096
    ensures (v + i) / 4096 == v / 4096 && (v + i) % 4096 == v % 4096 + i
  {
  }

  /** The kernel's own memory starts on a page boundary. */
  lemma HighPage(v: nat, i: nat)
    requires v % 4096 + i < 4096
    ensures v < 0xFFFF_8000_C000_0000 <==> v + i < 0xFFFF_8000_C000_0000
  {
    PageOf(v, i);
  }

  /** The physical addresses of the first n bytes from buf. */
  function Target(pa: nat -> int, buf: nat, n: nat): (t: seq<int>)
    ensures |t| == n && forall i :: 0 <= i < n ==> t[i] == pa(buf + i)
  {
    seq(n, i requires i >= 0 => pa(buf + i))
  }

  /** No run continues where the run before it ends: no two neighbours could be joined. */
  ghost predicate Maximal(runs: seq<Run>) {
    forall i {:trigger Gap(runs, i)} :: 0 <= i < |runs| - 1 ==> Gap(runs, i)
  }

  ghost predicate Gap(runs: seq<Run>, i: nat)
    requires i < |runs| - 1
  {
    runs[i].base + runs[i].len != runs[i + 1].base
  }

  /** Appending k more bytes of one page to the bytes covered so far. */
  lemma CoverPage(runs: seq<Run>, cur: Run, pa: nat -> int, buf: nat, n: nat, k: nat)
    requires PageWise(pa, buf, n + k)
    requires AllBytes(runs) + Bytes(cur) == Target(pa, buf, n)
    requires k > 0 ==> (buf + n) % 4096 + k <= 4096
    requires cur.base + cur.len == pa(buf + n)
    ensures AllBytes(runs) + Bytes(Run(cur.base, cur.len + k)) == Target(pa, buf, n + k)
  {
    var more := Bytes(Run(cur.base + cur.len, k));
    assert Bytes(Run(cur.base, cur.len + k)) == Bytes(cur) + more;
    PageTarget(pa, buf, n, k);
    assert AllBytes(runs) + (Bytes(cur) + more) == AllBytes(runs) + Bytes(cur) + more;
  }

  lemma PageTarget(pa: nat -> int, buf: nat, n: nat, k: nat)
    requires PageWise(pa, buf, n + k)
    requires k > 0 ==> (buf + n) % 4096 + k <= 4096
    ensures Target(pa, buf, n + k) == Target(pa, buf, n) + Bytes(Run(pa(buf + n), k))
  {
    var whole, more := Target(pa, buf, n + k), Bytes(Run(pa(buf + n), k));
    forall i | n <= i < n + k ensures whole[i] == more[i - n] {
      assert SameFrame(pa, buf + n, i - n);
    }
    assert whole == Target(pa, buf, n) + more;
  }

  lemma EmitRun(runs: seq<Run>, cur: Run)
    ensures AllBytes(runs + [cur]) == AllBytes(runs) + Bytes(cur)
  {
    assert (runs + [cur])[..|runs|] == runs;
  }

  /** How often consecutive addresses are not consecutive bytes. */
  function Breaks(t: seq<int>): nat {
    if |t| < 2 then 0
    else Breaks(t[..|t| - 1]) + (if t[|t| - 1] == t[|t| - 2] + 1 then 0 else 1)
  }

  lemma {:induction false} BreaksAppend(s: seq<int>, r: Run)
    requires s != []
    ensures Breaks(s + Bytes(r)) == Breaks(s) + (if r.len > 0 && r.base != s[|s| - 1] + 1 then 1 else 0)
    decreases r.len
  {
    if r.len == 0 {
      assert s + Bytes(r) == s;
    } else {
      var shorter := Run(r.base, r.len - 1);
      BreaksAppend(s, shorter);
      var t := s + Bytes(r);
      assert t[..|t| - 1] == s + Bytes(shorter);
    }
  }

  lemma {:induction false} BreaksRun(r: Run)
    ensures Breaks(Bytes(r)) == 0
    decreases r.len
  {
    if r.len > 1 {
      BreaksRun(Run(r.base, r.len - 1));
      assert Bytes(r)[..r.len - 1] == Bytes(Run(r.base, r.len - 1));
    }
  }

  /** Every list of runs has at least one run more than the addresses have breaks. */
  lemma {:induction false} BreaksBound(runs: seq<Run>)
    ensures AllBytes(runs) != [] ==> Breaks(AllBytes(runs)) + 1 <= |runs|
  {
    if runs != [] {
      var front, last := runs[..|runs| - 1], runs[|runs| - 1];
      BreaksBound(front);
      if AllBytes(front) == [] {
        assert AllBytes(runs) == Bytes(last);
        BreaksRun(last);
      } else {
        BreaksAppend(AllBytes(front), last);
      }
    }
  }

  ghost predicate NonEmpty(runs: seq<Run>) {
    forall i :: 0 <= i < |runs| ==> runs[i].len > 0
  }

  lemma LastByte(runs: seq<Run>)
    requires runs != [] && NonEmpty(runs)
    ensures AllBytes(runs) != []
    ensures AllBytes(runs)[|AllBytes(runs)| - 1] == runs[|runs| - 1].base + runs[|runs| - 1].len - 1
  {
    assert runs[|runs| - 1].len > 0;
  }

  /** A maximal list of non-empty runs has exactly one run more than there are breaks. */
  lemma {:induction false} BreaksExact(runs: seq<Run>)
    requires runs != [] && NonEmpty(runs) && Maximal(runs)
    ensures AllBytes(runs) != [] && Breaks(AllBytes(runs)) + 1 == |runs|
  {
    var n := |runs| - 1;
    var front, last := runs[..n], runs[n];
    LastByte(runs);
    if n == 0 {
      assert AllBytes(runs) == Bytes(last);
      BreaksRun(last);
    } else {
      assert Gap(runs, n - 1);
      assert Maximal(front) by {
        forall i | 0 <= i < |front| - 1 ensures Gap(front, i) {
          assert Gap(runs, i);
        }
      }
      BreaksExact(front);
      LastByte(front);
      BreaksAppend(AllBytes(front), last);
    }
  }

  /** No list of runs describes the same bytes with fewer entries. */
  lemma FewestRuns(runs: seq<Run>, other: seq<Run>)
    requires NonEmpty(runs) && Maximal(runs)
    requires AllBytes(runs) == AllBytes(other)
    ensures |runs| <= |other|
  {
    if runs != [] {
      BreaksExact(runs);
      BreaksBound(other);
    }
  }

  /** Pages touched by count bytes at offset off of a page. */
  function PagesOf(off: nat, count: nat): nat {
    if (count + off) % 4096 == 0 then (count + off) / 4096 else (count + off) / 4096 + 1
  }

  /** Bytes covered after i pages. */
  function Covered(off: nat, count: nat, i: nat): nat
    requires off < 4096
  {
    if i == 0 then 0 else if 4096 * i - off < count then 4096 * i - off else count
  }

  lemma NextPage(buf: nat, off: nat, count: nat, i: nat, scan: nat)
    requires off == buf % 4096 && i < PagesOf(off, count) && scan == buf + Covered(off, count, i)
    ensures scan % 4096 == (if i == 0 then off else 0)
    ensures scan <= buf + count && (i > 0 ==> scan < buf + count)
    ensures Covered(off, count, i + 1) == scan - buf + Min(if i == 0 then 4096 - off else 4096, buf + count - scan)
  {
  }

  lemma AllPages(off: nat, count: nat)
    requires off < 4096
    ensures Covered(off, count, PagesOf(off, count)) == count
  {
  }

  function Min(x: nat, y: nat): nat { if x < y then x else y }

  /** The loop state of get_iovec after i pages: finished runs and the run being grown. */
  ghost predicate Scanned(pa: nat -> int, buf: nat, off: nat, count: nat, i: nat,
                          runs: seq<Run>, cur: Run, prev: int)
    requires off < 4096
  {
    var n := Covered(off, count, i);
    && AllBytes(runs) + Bytes(cur) == Target(pa, buf, n)
    && NonEmpty(runs)
    && Maximal(runs + [cur])
    && (0 < i ==> |runs| < i)
    && (i == 0 ==> runs == [] && cur == Run(pa(buf), 0) && prev + 4096 == pa(buf) - off)
    && (0 < i && n < count ==> cur.base + cur.len == prev + 4096)
    && (0 < i && 0 < count ==> cur.len > 0)
  }

  /** The emission decision of one page: a new run starts where the frame does not follow the previous one. */
  ghost predicate Decided(runs: seq<Run>, cur: Run, prev: int, page: int, addr: int, runs': seq<Run>, cur': Run) {
    if page == prev + 4096 then runs' == runs && cur' == cur
    else runs' == runs + [cur] && cur' == Run(addr, 0)
  }

  lemma EmitStep(runs: seq<Run>, cur: Run, runs': seq<Run>, cur': Run, prev: int, page: int, addr: int)
    requires Decided(runs, cur, prev, page, addr, runs', cur')
    requires page == prev + 4096 ==> cur.base + cur.len == addr
    requires page != prev + 4096 ==> cur.len > 0 && cur.base + cur.len != addr
    requires NonEmpty(runs) && Maximal(runs + [cur])
    ensures AllBytes(runs') + Bytes(cur') == AllBytes(runs) + Bytes(cur)
    ensures NonEmpty(runs') && Maximal(runs' + [cur']) && |runs'| <= |runs| + 1
    ensures cur'.base + cur'.len == addr
  {
    if page != prev + 4096 {
      EmitRun(runs, cur);
      assert AllBytes(runs') + Bytes(cur') == AllBytes(runs');
      MaximalAppend(runs, cur, cur');
    }
  }

  /** One page of the scan: emit the finished run where the frames are not adjacent, then grow. */
  lemma ScanStep(pa: nat -> int, buf: nat, off: nat, count: nat, i: nat, runs: seq<Run>, cur: Run, prev: int,
                 o: nat, runs': seq<Run>, cur': Run, len: nat)
    requires PageWise(pa, buf, count) && off == buf % 4096 && i < PagesOf(off, count)
    requires o == (if i == 0 then off else 0)
    requires Scanned(pa, buf, off, count, i, runs, cur, prev)
    requires var v := buf + Covered(off, count, i); Decided(runs, cur, prev, pa(v) - o, pa(v), runs', cur')
    requires var n := Covered(off, count, i); n + len == Covered(off, count, i + 1)
    ensures Scanned(pa, buf, off, count, i + 1, runs', Run(cur'.base, cur'.len + len),
                    pa(buf + Covered(off, count, i)) - o)
  {
    NextPage(buf, off, count, i, buf + Covered(off, count, i));
    var n := Covered(off, count, i);
    EmitStep(runs, cur, runs', cur', prev, pa(buf + n) - o, pa(buf + n));
    CoverPage(runs', cur', pa, buf, n, len);
    GrowLast(runs', cur', len);
  }

  lemma MaximalAppend(runs: seq<Run>, cur: Run, next: Run)
    requires Maximal(runs + [cur]) && cur.base + cur.len != next.base
    ensures Maximal(runs + [cur] + [next])
  {
    var all := runs + [cur] + [next];
    forall i | 0 <= i < |all| - 1 ensures Gap(all, i) {
      if i < |runs| { assert Gap(runs + [cur], i); }
    }
  }

  lemma GrowLast(runs: seq<Run>, cur: Run, k: nat)
    requires Maximal(runs + [cur])
    ensures Maximal(runs + [Run(cur.base, cur.len + k)])
  {
    var all := runs + [Run(cur.base, cur.len + k)];
    forall i | 0 <= i < |all| - 1 ensures Gap(all, i) {
      assert Gap(runs + [cur], i);
    }
  }

  /** The descriptors from index start on are the given runs. */
  ghost predicate Holds(iov: array<Run>, start: nat, runs: seq<Run>)
    reads iov
  {
    start + |runs| <= iov.Length && forall k :: 0 <= k < |runs| ==> iov[start + k] == runs[k]
  }

  lemma HeldSlice(iov: array<Run>, start: nat, runs: seq<Run>)
    requires Holds(iov, start, runs)
    ensures iov[start..start + |runs|] == runs
  {
  }

  /** Store one descriptor after those written so far. */
  method Emit(iov: array<Run>, ghost start: nat, ghost runs: seq<Run>, cnt: nat, run: Run) returns (next: nat)
    requires Holds(iov, start, runs) && cnt == start + |runs| < iov.Length
    modifies iov
    ensures next == cnt + 1 && Holds(iov, start, runs + [run])
    ensures forall k :: 0 <= k < start ==> iov[k] == old(iov[k])
  {
    iov[cnt] := run;
    next := cnt + 1;
  }

  /** Start a new run at addr when page does not follow the previous page. */
  method Boundary(iov: array<Run>, ghost start: nat, ghost runs: seq<Run>, cnt: nat, readAddr: int, readLen: nat,
                  prev: int, page: int, addr: int)
    returns (next: nat, readAddr': int, readLen': nat, ghost runs': seq<Run>)
    requires Holds(iov, start, runs) && cnt == start + |runs| && (page != prev + 4096 ==> cnt < iov.Length)
    modifies iov
    ensures Holds(iov, start, runs') && next == start + |runs'|
    ensures forall k :: 0 <= k < start ==> iov[k] == old(iov[k])
    ensures Decided(runs, Run(readAddr, readLen), prev, page, addr, runs', Run(readAddr', readLen'))
  {
    next, readAddr', readLen', runs' := cnt, readAddr, readLen, runs;
    if page != prev + 4096 {
      next := Emit(iov, start, runs, cnt, Run(readAddr, readLen));
      runs' := runs + [Run(readAddr, readLen)];
      readLen' := 0;
      readAddr' := addr;
    }
  }

  /** The loop over the pages: writes the finished runs and returns the last one. */
  method ScanPages(buf: nat, off: nat, count: nat, pa: nat -> int, iov: array<Run>, iovcnt: nat)
    returns (cnt: nat, readAddr: int, readLen: nat, ghost runs: seq<Run>)
    requires PageWise(pa, buf, count) && off == buf % 4096
    requires iovcnt < iov.Length && iovcnt + PagesOf(off, count) <= iov.Length
    modifies iov
    ensures Holds(iov, iovcnt, runs) && cnt == iovcnt + |runs| < iov.Length
    ensures forall k :: 0 <= k < iovcnt ==> iov[k] == old(iov[k])
    ensures AllBytes(runs) + Bytes(Run(readAddr, readLen)) == Target(pa, buf, count)
    ensures NonEmpty(runs) && Maximal(runs + [Run(readAddr, readLen)])
    ensures count > 0 ==> readLen > 0
  {
    cnt, runs := iovcnt, [];
    var nrPages := PagesOf(off, count);
    var scan, scanLen := buf, count;
    var page := pa(buf) - off;
    var prev := page - 4096;
    readAddr, readLen := page + off, 0;
    for i := 0 to nrPages
      invariant Holds(iov, iovcnt, runs) && cnt == iovcnt + |runs|
      invariant forall k :: 0 <= k < iovcnt ==> iov[k] == old(iov[k])
      invariant scan == buf + Covered(off, count, i) && scan + scanLen == buf + count
      invariant Scanned(pa, buf, off, count, i, runs, Run(readAddr, readLen), prev)
    {
      ghost var runs0, cur0, prev0 := runs, Run(readAddr, readLen), prev;
      NextPage(buf, off, count, i, scan);
      var offset := scan % 4096;
      page := pa(scan) - offset;
      cnt, readAddr, readLen, runs :=
        Boundary(iov, iovcnt, runs, cnt, readAddr, readLen, prev, page, pa(scan));
      var pageLen := 4096 - offset;
      if pageLen > scanLen { pageLen := scanLen; }
      ScanStep(pa, buf, off, count, i, runs0, cur0, prev0, offset, runs, Run(readAddr, readLen), pageLen);
      readLen := readLen + pageLen;
      scan := scan + pageLen;
      scanLen := scanLen - pageLen;
      prev := page;
    }
    AllPages(off, count);
  }

  method GetIovec(buf: nat, count: nat, pa: nat -> int, iov: array<Run>, iovcnt: nat)
    returns (ret: int, cnt: nat)
    requires PageWise(pa, buf, count)
    requires buf != 0 ==> iovcnt < iov.Length && iovcnt + PagesOf(buf % 4096, count) <= iov.Length
    modifies iov
    ensures buf == 0 ==> ret == -1 && cnt == iovcnt && unchanged(iov)
    ensures buf != 0 ==> ret == 0 && iovcnt < cnt <= iov.Length
    ensures buf != 0 ==> forall k :: 0 <= k < iovcnt ==> iov[k] == old(iov[k])
    ensures buf != 0 ==> AllBytes(iov[iovcnt..cnt]) == Target(pa, buf, count)
    ensures buf != 0 ==> TotalLength(iov[iovcnt..cnt]) == count
    ensures buf != 0 ==> Maximal(iov[iovcnt..cnt])
    ensures buf != 0 && count > 0 ==> NonEmpty(iov[iovcnt..cnt])
  {
    cnt := iovcnt;
    if buf == 0 { return -1, cnt; }
    var off := buf % 4096;
    var readAddr, readLen;
    ghost var runs;
    cnt, readAddr, readLen, runs := ScanPages(buf, off, count, pa, iov, iovcnt);
    EmitRun(runs, Run(readAddr, readLen));
    cnt := Emit(iov, iovcnt, runs, cnt, Run(readAddr, readLen));
    LengthsAddUp(runs + [Run(readAddr, readLen)]);
    HeldSlice(iov, iovcnt, runs + [Run(readAddr, readLen)]);
    ret := 0;
  }

  // ----- with the translation of the page tables

  /** The address get_iovec translates for page i of the buffer. */
  function ScanAddress(buf: nat, i: nat): nat {
    if i == 0 then buf else buf - buf % 4096 + 4096 * i
  }

  lemma ScanWithin(buf: nat, count: nat, i: nat)
    requires count > 0 && i < PagesOf(buf % 4096, count)
    ensures buf <= ScanAddress(buf, i) < buf + count
  {
  }

  /** Every address of the buffer lies in one of those pages. */
  lemma PageInScan(buf: nat, count: nat, v: nat) returns (i: nat)
    requires buf <= v < buf + count
    ensures i < PagesOf(buf % 4096, count) && Path(ScanAddress(buf, i)) == Path(v)
  {
    i := v / 4096 - buf / 4096;
    SamePath(ScanAddress(buf, i), v);
  }

  /** The buffer does not run across the high-half limit. */
  ghost predicate InOneHalf(buf: nat, count: nat) {
    !(buf <= 0xFFFF_8000_0000_0000 && 0xFFFF_8000_0000_0001 < buf + count)
  }

  /** The page tables map the first n pages of a buffer below the high-half limit. */
  ghost predicate Mapped(tables: PageMap, buf: nat, n: nat)
    reads tables
  {
    forall j: nat {:trigger ScanAddress(buf, j)} :: j < n && buf <= 0xFFFF_8000_0000_0000 ==>
      tables.View(Path(ScanAddress(buf, j))) != ZERO
  }

  lemma MappedPages(tables: PageMap, buf: nat, count: nat)
    requires tables.Valid() && buf > 0 && count > 0 && InOneHalf(buf, count)
    ensures Mapped(tables, buf, PagesOf(buf % 4096, count)) <==> MappedBuffer(tables.mem, tables.root, buf, count)
  {
    var n := PagesOf(buf % 4096, count);
    if Mapped(tables, buf, n) {
      forall v: nat | buf <= v < buf + count && v <= 0xFFFF_8000_0000_0000
        ensures Walk(tables.mem, tables.root, Path(v)) != ZERO
      {
        var j := PageInScan(buf, count, v);
        tables.WalkIsView(Path(v));
      }
    }
    if MappedBuffer(tables.mem, tables.root, buf, count) {
      forall j: nat | j < n && buf <= 0xFFFF_8000_0000_0000 ensures tables.View(Path(ScanAddress(buf, j))) != ZERO {
        ScanWithin(buf, count, j);
        tables.WalkIsView(Path(ScanAddress(buf, j)));
      }
    }
  }

  /** Mapped pages keep their mapping. */
  twostate predicate Keeps(tables: PageMap)
    reads tables
  {
    forall q {:trigger tables.View(q)} :: |q| == 4 && old(tables.View(q)) != ZERO ==> tables.View(q) == old(tables.View(q))
  }

  method MapPage(tables: PageMap, va: nat)
    requires tables.Valid() && va > 0
    modifies tables
    ensures tables.Valid() && Keeps(tables) && |tables.spare| >= |old(tables.spare)| - 4
    ensures va <= 0xFFFF_8000_0000_0000 ==> tables.View(Path(va)) != ZERO || tables.spare == []
  {
    var pa := tables.GetPa(va);
  }

  /** The calls of get_pa that get_iovec makes, page by page: with enough pages in the allocator, or a
      buffer that is mapped already, they leave every page of the buffer mapped, and mapped pages as
      they were. */
  method MapPages(tables: PageMap, buf: nat, count: nat)
    requires tables.Valid() && buf > 0 && count > 0 && InOneHalf(buf, count)
    requires |tables.spare| > 4 * PagesOf(buf % 4096, count) || Mapped(tables, buf, PagesOf(buf % 4096, count))
    modifies tables
    ensures tables.Valid() && Keeps(tables) && Mapped(tables, buf, PagesOf(buf % 4096, count))
  {
    var n := PagesOf(buf % 4096, count);
    var i := 0;
    while i < n
      invariant i <= n && tables.Valid() && Keeps(tables)
      invariant |tables.spare| >= |old(tables.spare)| - 4 * i
      invariant Mapped(tables, buf, i)
    {
      ScanWithin(buf, count, i);
      label before:
      MapPage(tables, ScanAddress(buf, i));
      assert Keeps@before(tables);
      i := i + 1;
    }
  }

  /** get_iovec with get_pa: the runs list, in order, what get_pa gives for each byte of the buffer,
      by the tables as the calls leave them. */
  method GetIovecOf(tables: PageMap, buf: nat, count: nat, iov: array<Run>, iovcnt: nat) returns (ret: int, cnt: nat)
    requires tables.Valid() && buf != 0 && InOneHalf(buf, count)
    requires |tables.spare| > 4 * PagesOf(buf % 4096, count) || Mapped(tables, buf, PagesOf(buf % 4096, count))
    requires iovcnt < iov.Length && iovcnt + PagesOf(buf % 4096, count) <= iov.Length
    modifies tables, iov
    ensures tables.Valid() && ret == 0 && iovcnt < cnt <= iov.Length
    ensures |AllBytes(iov[iovcnt..cnt])| == count
    ensures forall i :: 0 <= i < count ==>
              AllBytes(iov[iovcnt..cnt])[i]
              == Translate(tables.mem, tables.root, tables.sharedMemory, tables.memoryStart, buf + i)
    ensures Maximal(iov[iovcnt..cnt])
    ensures MappedBuffer(tables.mem, tables.root, buf, count) && Keeps(tables)
  {
    if count > 0 {
      MapPages(tables, buf, count);
      MappedPages(tables, buf, count);
    } else {
      MapPage(tables, buf);
    }
    var mem, root, shared, start := tables.mem, tables.root, tables.sharedMemory, tables.memoryStart;
    TablesArePageWise(mem, root, shared, start, buf, count);
    ret, cnt := GetIovec(buf, count, (v: nat) => Translate(mem, root, shared, start, v), iov, iovcnt);
  }
}
