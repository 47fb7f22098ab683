/** Who owns each block of the shared-memory allocator, over every run of the calls. */
module ShmRuns {
  import opened Levels
  import opened BuddyBits
  import opened Options
  import opened Paths
  import opened ShmSpec

  datatype Call =
    | GetCall(key: int, size: nat, flg: bv32, pid: int, page: Option<nat>)
    | AttachCall(shmid: int, pid: int)
    | DetachCall(addr: nat, pid: int)
    | RemoveCall(shmid: int, pid: int)
    | SetCall(shmid: int, mode: Option<bv32>, pid: int)

  function Apply(s: State, c: Call): State
    requires |s.table| == |s.attached|
  {
    match c
    case GetCall(key, size, flg, pid, page) => Get(s, key, size, flg, pid, page)
    case AttachCall(shmid, pid) => Attach(s, shmid, pid)
    case DetachCall(addr, pid) => Detach(s, addr, pid)
    case RemoveCall(shmid, pid) => Remove(s, shmid, pid)
    case SetCall(shmid, mode, pid) => SetMode(s, shmid, mode, pid)
  }

  /** The allocator never hands out a page that starts a live block. */
  predicate Legal(s: State, c: Call) {
    c.GetCall? && c.page.Some? ==> c.page.value !in s.live
  }

  ghost predicate Step(s: State, c: Call, s': State) {
    |s.table| == |s.attached| && Legal(s, c) && s' == Apply(s, c)
  }

  ghost predicate Run(states: seq<State>, calls: seq<Call>) {
    Path(Step, states, calls) && Initial(states[0])
  }

  lemma StepKeepsInv(s: State, c: Call)
    requires Inv(s) && Legal(s, c)
    ensures Inv(Apply(s, c))
  {
    match c
    case GetCall(key, size, flg, pid, page) => InvGet(s, key, size, flg, pid, page);
    case AttachCall(shmid, pid) => InvAttach(s, shmid, pid);
    case DetachCall(addr, pid) => InvDetach(s, addr, pid);
    case RemoveCall(shmid, pid) => InvRemove(s, shmid, pid);
    case SetCall(shmid, mode, pid) => InvSetMode(s, shmid, mode, pid);
  }

  /** Ownership over every run: live blocks and regions in use correspond one to one, so no
      block leaks and none is freed twice; keys in use are distinct. */
  lemma {:induction false} RunKeepsInv(states: seq<State>, calls: seq<Call>, i: nat)
    requires Run(states, calls) && i < |states|
    ensures Inv(states[i])
  {
    if i == 0 {
      InitialInv(states[0]);
    } else {
      RunKeepsInv(states, calls, i - 1);
      PathStep(Step, states, calls, i);
      StepKeepsInv(states[i - 1], calls[i - 1]);
    }
  }

  // ----- attachments

  ghost predicate UnlinkedAttached(s: State) {
    forall i :: 0 <= i < |s.table| && Unlinked(s.table[i]) ==> s.table[i].nattch > 0
  }

  /** The call that makes the 16-bit attach count of an unlinked region wrap to zero. */
  predicate WrapsUnlinked(s: State, c: Call) {
    c.AttachCall? && 0 <= c.shmid < |s.table| && Unlinked(s.table[c.shmid])
    && s.table[c.shmid].nattch == 65536 - 1
  }

  lemma EmptyNotUnlinked()
    ensures !Unlinked(EMPTY) && !InUse(EMPTY)
  {
  }

  lemma UnlinkedIsUsed(s: State, i: nat)
    requires Inv(s) && i < |s.table|
    ensures Unlinked(s.table[i]) ==> InUse(s.table[i]) && s.table[i].data != 0
    ensures InUse(s.table[i]) ==> s.table[i].flags.inUse && s.table[i].data != 0
  {
    assert EntryOk(s, i);
    if s.table[i].flags.inUse {
      var p :| p in s.live && Owns(s, i, p);
    }
  }

  /** A region waiting for its last detach is attached, in every state, up to the one
      call that wraps the count: the call breaks this iff it is that one. */
  lemma UnlinkedStep(s: State, c: Call)
    requires Inv(s) && Legal(s, c) && UnlinkedAttached(s)
    ensures UnlinkedAttached(Apply(s, c)) <==> !WrapsUnlinked(s, c)
  {
    EmptyNotUnlinked();
    if c.AttachCall? && 0 <= c.shmid < |s.table| {
      UnlinkedIsUsed(s, c.shmid);
      var t := Apply(s, c).table;
      if WrapsUnlinked(s, c) {
        assert Unlinked(t[c.shmid]) && t[c.shmid].nattch == 0;
      } else {
        forall i | 0 <= i < |t| && Unlinked(t[i]) ensures t[i].nattch > 0 { assert EntryOk(s, i); }
      }
    }
  }

  /** Over every run without such a call, an unlinked region is always attached. */
  lemma {:induction false} RunUnlinked(states: seq<State>, calls: seq<Call>, i: nat)
    requires Run(states, calls) && i < |states|
    requires forall j :: 0 <= j < i ==> !WrapsUnlinked(states[j], calls[j])
    ensures UnlinkedAttached(states[i])
  {
    EmptyNotUnlinked();
    if i > 0 {
      RunUnlinked(states, calls, i - 1);
      RunKeepsInv(states, calls, i - 1);
      PathStep(Step, states, calls, i);
      UnlinkedStep(states[i - 1], calls[i - 1]);
    }
  }

  /** Call c frees the segment of region i. */
  ghost predicate Frees(s: State, c: Call, i: nat)
    requires |s.table| == |s.attached|
  {
    && i < |s.table| && s.table[i].flags.inUse
    && i < |Apply(s, c).table| && Apply(s, c).table[i].flags == AVAILABLE
  }

  /** Attachments of region i that outlive call c. */
  function Remaining(s: State, c: Call, i: nat): int
    requires i < |s.attached|
  {
    (s.attached[i] as int) - if c.DetachCall? then 1 else 0
  }

  /** Only a detach and a remove free a segment, and then no attachment remains, counted
      modulo 2^16. */
  lemma FreedUnattached(s: State, c: Call, i: nat)
    requires Inv(s) && Legal(s, c) && Frees(s, c, i)
    ensures c.DetachCall? || c.RemoveCall?
    ensures Remaining(s, c, i) >= 0 && Remaining(s, c, i) % 65536 == 0
    ensures Apply(s, c).live == s.live - {PageOf(s, i)} && PageOf(s, i) in s.live
  {
    assert EntryOk(s, i);
    DestroyFrees(s, i);
    match c
    case GetCall(key, size, flg, pid, page) => GetFreesNone(s, key, size, flg, pid, page, i);
    case AttachCall(shmid, pid) =>
    case DetachCall(addr, pid) => DetachFrees(s, addr, pid, i);
    case RemoveCall(shmid, pid) => RemoveFrees(s, shmid, pid, i);
    case SetCall(shmid, mode, pid) =>
  }

  lemma GetFreesNone(s: State, key: int, size: nat, flg: bv32, pid: int, page: Option<nat>, i: nat)
    requires Inv(s) && i < |s.table| && s.table[i].flags.inUse
    ensures Get(s, key, size, flg, pid, page).table[i].flags.inUse
  {
  }

  lemma DetachFrees(s: State, addr: nat, pid: int, i: nat)
    requires Inv(s) && i < |s.table| && s.table[i].flags.inUse
    requires Detach(s, addr, pid).table[i].flags == AVAILABLE
    ensures s.table[i].nattch == 1 && Detach(s, addr, pid) == Destroy(s, i)
  {
  }

  lemma RemoveFrees(s: State, shmid: int, pid: int, i: nat)
    requires Inv(s) && i < |s.table| && s.table[i].flags.inUse
    requires Remove(s, shmid, pid).table[i].flags == AVAILABLE
    ensures s.table[i].nattch == 0 && Remove(s, shmid, pid) == Destroy(s, i)
  {
    assert EntryOk(s, i);
  }

  /** The attach count of every region is the number of its attachments. */
  ghost predicate ExactCounts(s: State)
    requires |s.table| == |s.attached|
  {
    forall i :: 0 <= i < |s.table| ==> s.table[i].nattch == s.attached[i]
  }

  /** The attach that makes a 16-bit count wrap to zero. */
  predicate Wraps(s: State, c: Call) {
    c.AttachCall? && 0 <= c.shmid < |s.table| && InUse(s.table[c.shmid]) && s.table[c.shmid].nattch == 65535
  }

  /** Exact counts stay exact iff the call is not an attach at 65535, of a linked region or not. */
  lemma CountStep(s: State, c: Call)
    requires Inv(s) && Legal(s, c) && ExactCounts(s)
    ensures |Apply(s, c).table| == |Apply(s, c).attached|
    ensures ExactCounts(Apply(s, c)) <==> !Wraps(s, c)
  {
    StepKeepsInv(s, c);
    if c.AttachCall? && 0 <= c.shmid < |s.table| {
      UnlinkedIsUsed(s, c.shmid);
      CountAttach(s, c.shmid, c.pid);
    } else if c.GetCall? {
      CountGet(s, c);
    }
  }

  lemma CountAttach(s: State, shmid: nat, pid: int)
    requires Inv(s) && ExactCounts(s) && shmid < |s.table|
    requires InUse(s.table[shmid]) ==> s.table[shmid].data != 0
    ensures var t := Attach(s, shmid, pid);
            ExactCounts(t) <==> !(InUse(s.table[shmid]) && s.table[shmid].nattch == 65535)
  {
    assert EntryOk(s, shmid);
    var t := Attach(s, shmid, pid);
    if InUse(s.table[shmid]) {
      assert t.table[shmid].nattch == (s.table[shmid].nattch + 1) % 65536 && t.attached[shmid] == s.attached[shmid] + 1;
    }
  }

  lemma CountGet(s: State, c: Call)
    requires Inv(s) && Legal(s, c) && ExactCounts(s) && c.GetCall?
    ensures |Apply(s, c).table| == |Apply(s, c).attached| && ExactCounts(Apply(s, c))
  {
    var i := FindAvailable(s.table, 0);
    if i < |s.table| { assert EntryOk(s, i); }
  }

  /** With exact counts, nothing is attached any more when a segment is freed. */
  lemma FreedExact(s: State, c: Call, i: nat)
    requires Inv(s) && Legal(s, c) && ExactCounts(s) && Frees(s, c, i)
    ensures Remaining(s, c, i) == 0
  {
    FreedUnattached(s, c, i);
    assert EntryOk(s, i);
    if c.DetachCall? { DetachFrees(s, c.addr, c.pid, i); } else { RemoveFrees(s, c.shmid, c.pid, i); }
  }

  lemma {:induction false} RunCounts(states: seq<State>, calls: seq<Call>, i: nat)
    requires Run(states, calls) && i < |states|
    requires forall j :: 0 <= j < i ==> !Wraps(states[j], calls[j])
    ensures |states[i].table| == |states[i].attached| && ExactCounts(states[i])
  {
    if i > 0 {
      RunCounts(states, calls, i - 1);
      RunKeepsInv(states, calls, i - 1);
      PathStep(Step, states, calls, i);
      CountStep(states[i - 1], calls[i - 1]);
    }
  }

  /** Over every run without an attach at 65535, a segment is freed only when nothing is attached. */
  lemma RunFreesUnattached(states: seq<State>, calls: seq<Call>, i: nat, k: nat)
    requires Run(states, calls) && i < |calls|
    requires forall j :: 0 <= j < i ==> !Wraps(states[j], calls[j])
    requires |states[i].table| == |states[i].attached| && Frees(states[i], calls[i], k)
    ensures k < |states[i].attached| && Remaining(states[i], calls[i], k) == 0
  {
    RunCounts(states, calls, i);
    RunKeepsInv(states, calls, i);
    PathStep(Step, states, calls, i + 1);
    FreedExact(states[i], calls[i], k);
  }

  // ----- 2^16 attachments too many

  function AttachMany(s: State, k: nat, n: nat): (t: State)
    requires |s.table| == |s.attached|
    ensures |t.table| == |t.attached| == |s.table|
  {
    if n == 0 then s else Attach(AttachMany(s, k, n - 1), k, 0)
  }

  lemma {:induction false} AttachManyCount(s: State, k: nat, n: nat)
    requires Inv(s) && k < |s.table| && s.table[k].flags == INUSE
    ensures var t := AttachMany(s, k, n);
            Inv(t) && |t.table| == |s.table| && t.start == s.start && t.live == s.live && t.table[k].flags == INUSE
            && t.table[k].data == s.table[k].data && t.attached[k] == s.attached[k] + n
  {
    if n > 0 {
      AttachManyCount(s, k, n - 1);
      InvAttach(AttachMany(s, k, n - 1), k, 0);
      UnlinkedIsUsed(AttachMany(s, k, n - 1), k);
    }
  }

  /** The bound is needed: after 2^16 + 1 attaches and a remove, the first detach frees the
      segment under 2^16 attachments. */
  lemma WrapFreesAttached(s: State)
    requires Inv(s) && |s.table| > 0 && s.table[0].flags == INUSE && s.attached[0] == 0
    ensures var c := Remove(AttachMany(s, 0, 65536 + 1), 0, 0);
            && Inv(c) && |c.table| > 0
            && Frees(c, DetachCall(s.table[0].data, 0), 0)
            && Remaining(c, DetachCall(s.table[0].data, 0), 0) == 65536
  {
    AttachManyCount(s, 0, 65536 + 1);
    WrapDetach(AttachMany(s, 0, 65536 + 1), s.table[0].data);
  }

  lemma WrapDetach(b: State, data: nat)
    requires Inv(b) && |b.table| > 0 && b.table[0].flags == INUSE && b.table[0].data == data
    requires b.attached[0] == 65536 + 1
    ensures var c := Remove(b, 0, 0);
            Inv(c) && |c.table| > 0 && Frees(c, DetachCall(data, 0), 0)
            && Remaining(c, DetachCall(data, 0), 0) == 65536
  {
    assert EntryOk(b, 0);
    assert b.table[0].nattch == 1;
    InvRemove(b, 0, 0);
    var c := Remove(b, 0, 0);
    assert c.table[0] == b.table[0].(flags := UNLINKED, lpid := 0);
    assert FindData(c.table, data, 0) == 0;
  }

  /** Such a state is one call away from the initial one. */
  lemma WrapStart(s: State, p: nat)
    requires Initial(s) && |s.table| > 0
    ensures var a := Get(s, 7, 100, IPC_CREAT, 0, Some(p));
            Inv(a) && |a.table| > 0 && a.table[0].flags == INUSE && a.attached[0] == 0
  {
    InitialInv(s);
    InvGet(s, 7, 100, IPC_CREAT, 0, Some(p));
    assert IPC_CREAT & IPC_CREAT != 0;
    assert FindKey(s.table, 7, 0) == |s.table|;
    assert FindAvailable(s.table, 0) == 0;
  }

  // ----- growing a segment

  /** The segment of every region in use fits its block, and no smaller block would do. */
  ghost predicate Fits(s: State) {
    forall i: nat, p :: i < |s.table| && p in s.live && Owns(s, i, p) ==> s.live[p] == LevelOf(s.table[i].segsz)
  }

  /** The size reported for a segment is its block size, unless the segment fills the block:
      then it is twice that. */
  lemma ReportedSize(size: nat)
    ensures ReportedBlock(size) == 4096 * Pow2(LevelOf(size)) * if size == 4096 * Pow2(LevelOf(size)) then 2 else 1
  {
    var k := LevelOf(size);
    if size == 4096 * Pow2(k) {
      LevelOfUnique(size + 1, k + 1) by {
        forall j: nat | j < k + 1 ensures size + 1 > 4096 * Pow2(j) { Pow2Mono(j, k); }
      }
    } else {
      LevelOfUnique(size + 1, k);
    }
  }

  /** A segment that grows stays within its block, exactly when it does not fill it already. */
  lemma GrowthFits(segsz: nat, size: nat)
    requires segsz < size <= ReportedBlock(segsz)
    ensures LevelOf(size) == LevelOf(segsz) <==> segsz != 4096 * Pow2(LevelOf(segsz))
    ensures size <= 4096 * Pow2(LevelOf(segsz)) <==> segsz != 4096 * Pow2(LevelOf(segsz))
  {
    ReportedSize(segsz);
    if segsz != 4096 * Pow2(LevelOf(segsz)) {
      LevelOfUnique(size, LevelOf(segsz));
    }
  }

  /** The call that grows a segment which already fills its block. */
  predicate GrowsFilled(s: State, c: Call) {
    c.GetCall? && c.key != IPC_PRIVATE && c.flg & IPC_CREAT != 0
    && var i := FindKey(s.table, c.key, 0);
       i < |s.table| && s.table[i].segsz < c.size <= ReportedBlock(s.table[i].segsz)
       && s.table[i].segsz == 4096 * Pow2(LevelOf(s.table[i].segsz))
  }

  /** Segments fit their blocks after a call exactly when it is not that call. */
  lemma FitsStep(s: State, c: Call)
    requires Inv(s) && Legal(s, c) && Fits(s)
    ensures Fits(Apply(s, c)) <==> !GrowsFilled(s, c)
  {
    match c
    case GetCall(key, size, flg, pid, page) => FitsGet(s, c);
    case AttachCall(shmid, pid) => FitsFrame(s, Attach(s, shmid, pid));
    case DetachCall(addr, pid) => FitsDetach(s, addr, pid);
    case RemoveCall(shmid, pid) => FitsRemove(s, shmid, pid);
    case SetCall(shmid, mode, pid) => FitsFrame(s, SetMode(s, shmid, mode, pid));
  }

  ghost predicate SameSegments(s: State, s': State) {
    && s'.start == s.start && s'.live == s.live && |s'.table| == |s.table|
    && (forall i :: 0 <= i < |s.table| ==> SameSegment(s.table[i], s'.table[i]))
  }

  ghost predicate SameSegment(r: Region, r': Region) {
    r'.data == r.data && r'.segsz == r.segsz && (r'.flags.inUse ==> r.flags.inUse)
  }

  /** Calls that touch neither blocks nor segment sizes keep the fit. */
  lemma FitsFrame(s: State, s': State)
    requires Fits(s) && SameSegments(s, s')
    ensures Fits(s')
  {
    forall j: nat, p | j < |s'.table| && p in s'.live && Owns(s', j, p)
      ensures s'.live[p] == LevelOf(s'.table[j].segsz)
    {
      assert SameSegment(s.table[j], s'.table[j]);
      assert Owns(s, j, p);
    }
  }

  lemma FitsDetach(s: State, addr: nat, pid: int)
    requires Inv(s) && Fits(s)
    ensures Fits(Detach(s, addr, pid))
  {
    var i := FindData(s.table, addr, 0);
    if i < |s.table| && InUse(s.table[i]) && s.table[i].nattch == 1 && Unlinked(s.table[i]) {
      FitsDestroy(s, i);
    } else {
      FitsFrame(s, Detach(s, addr, pid));
    }
  }

  lemma FitsRemove(s: State, shmid: int, pid: int)
    requires Inv(s) && Fits(s)
    ensures Fits(Remove(s, shmid, pid))
  {
    if 0 <= shmid < |s.table| && InUse(s.table[shmid]) {
      UnlinkedIsUsed(s, shmid);
      if s.table[shmid].nattch == 0 {
        FitsDestroy(s, shmid);
      } else {
        FitsFrame(s, Remove(s, shmid, pid));
      }
    }
  }

  lemma FitsDestroy(s: State, i: nat)
    requires Inv(s) && Fits(s) && i < |s.table| && InUse(s.table[i])
    ensures Fits(Destroy(s, i))
  {
    UnlinkedIsUsed(s, i);
    DestroyFrees(s, i);
    var s' := Destroy(s, i);
    forall j: nat, p | j < |s'.table| && p in s'.live && Owns(s', j, p)
      ensures s'.live[p] == LevelOf(s'.table[j].segsz)
    {
      assert Owns(s, j, p);
    }
  }

  lemma FitsGet(s: State, c: Call)
    requires Inv(s) && Legal(s, c) && Fits(s) && c.GetCall?
    ensures Fits(Apply(s, c)) <==> !GrowsFilled(s, c)
  {
    if c.key != IPC_PRIVATE {
      var i := FindKey(s.table, c.key, 0);
      if i < |s.table| {
        FitsFound(s, c, i);
      } else if c.flg & IPC_CREAT != 0 {
        FitsCreate(s, c);
      }
    }
  }

  lemma FitsFound(s: State, c: Call, i: nat)
    requires Inv(s) && Fits(s) && c.GetCall? && c.key != IPC_PRIVATE
    requires i < |s.table| && i == FindKey(s.table, c.key, 0)
    ensures Fits(Apply(s, c)) <==> !GrowsFilled(s, c)
  {
    var r := s.table[i];
    assert EntryOk(s, i);
    if r.segsz < c.size && c.flg & IPC_CREAT != 0 && c.size <= ReportedBlock(r.segsz) {
      FitsGrown(s, c, i);
    } else {
      FitsUngrown(s, c, i);
    }
  }

  lemma FitsUngrown(s: State, c: Call, i: nat)
    requires Inv(s) && Fits(s) && c.GetCall? && c.key != IPC_PRIVATE
    requires i < |s.table| && i == FindKey(s.table, c.key, 0) && EntryOk(s, i)
    requires !(s.table[i].segsz < c.size && c.flg & IPC_CREAT != 0 && c.size <= ReportedBlock(s.table[i].segsz))
    ensures Fits(Apply(s, c)) && !GrowsFilled(s, c)
  {
    FitsFrame(s, Apply(s, c));
  }

  lemma FitsGrown(s: State, c: Call, i: nat)
    requires Inv(s) && Fits(s) && c.GetCall? && c.key != IPC_PRIVATE
    requires i < |s.table| && i == FindKey(s.table, c.key, 0) && EntryOk(s, i)
    requires s.table[i].segsz < c.size && c.flg & IPC_CREAT != 0 && c.size <= ReportedBlock(s.table[i].segsz)
    ensures Fits(Apply(s, c)) <==> !GrowsFilled(s, c)
  {
    var s' := Apply(s, c);
    FitsResize(s, i, s'.table[i]);
    assert s' == s.(table := s.table[i := s'.table[i]]);
    GrowthFits(s.table[i].segsz, c.size);
  }

  /** Giving the segment of entry i another size keeps the fit iff the level stays the same. */
  lemma FitsResize(s: State, i: nat, r: Region)
    requires Inv(s) && Fits(s) && i < |s.table| && s.table[i].flags.inUse
    requires r.data == s.table[i].data && r.flags.inUse
    ensures Fits(s.(table := s.table[i := r])) <==> LevelOf(r.segsz) == LevelOf(s.table[i].segsz)
  {
    assert EntryOk(s, i);
    var q :| q in s.live && Owns(s, i, q);
    var s' := s.(table := s.table[i := r]);
    assert Owns(s', i, q);
    if LevelOf(r.segsz) == LevelOf(s.table[i].segsz) { FitsSameLevel(s, s', i); }
  }

  lemma FitsSameLevel(s: State, s': State, i: nat)
    requires Fits(s) && i < |s.table| && s.table[i].flags.inUse && s'.live == s.live && s'.start == s.start
    requires |s'.table| == |s.table| && s'.table[i].data == s.table[i].data
    requires LevelOf(s'.table[i].segsz) == LevelOf(s.table[i].segsz)
    requires forall j :: 0 <= j < |s.table| && j != i ==> s'.table[j] == s.table[j]
    ensures Fits(s')
  {
    forall j: nat, p | j < |s'.table| && p in s'.live && Owns(s', j, p)
      ensures s'.live[p] == LevelOf(s'.table[j].segsz)
    {
      assert Owns(s, j, p);
    }
  }

  lemma FitsCreate(s: State, c: Call)
    requires Inv(s) && Legal(s, c) && Fits(s) && c.GetCall?
    ensures Fits(Create(s, c.key, c.size, c.flg, c.pid, c.page))
  {
    var i, s' := FindAvailable(s.table, 0), Create(s, c.key, c.size, c.flg, c.pid, c.page);
    if i < |s.table| {
      assert EntryOk(s, i);
      if c.page.Some? {
        FitsNew(s, s', i, c.page.value, c.size);
      } else {
        FitsFrame(s, s');
      }
    }
  }

  lemma FitsNew(s: State, s': State, i: nat, q: nat, size: nat)
    requires Inv(s) && Fits(s) && i < |s.table| == |s'.table| && q !in s.live && s'.start == s.start
    requires s'.live == s.live[q := LevelOf(size)]
    requires s'.table[i].data == s.start + 4096 * q && s'.table[i].segsz == size
    requires forall j :: 0 <= j < |s.table| && j != i ==> s'.table[j] == s.table[j]
    ensures Fits(s')
  {
    forall j: nat, p | j < |s'.table| && p in s'.live && Owns(s', j, p)
      ensures s'.live[p] == LevelOf(s'.table[j].segsz)
    {
      FitsNewAt(s, s', i, q, size, j, p);
    }
  }

  lemma FitsNewAt(s: State, s': State, i: nat, q: nat, size: nat, j: nat, p: nat)
    requires Inv(s) && Fits(s) && i < |s.table| == |s'.table| && q !in s.live && s'.start == s.start
    requires s'.live == s.live[q := LevelOf(size)]
    requires s'.table[i].data == s.start + 4096 * q && s'.table[i].segsz == size
    requires j < |s.table| && (j != i ==> s'.table[j] == s.table[j]) && p in s'.live && Owns(s', j, p)
    ensures s'.live[p] == LevelOf(s'.table[j].segsz)
  {
    if j != i {
      OwnedIsLive(s, j, p);
    } else {
      assert p == q;
    }
  }

  lemma OwnedIsLive(s: State, j: nat, p: nat)
    requires Inv(s) && j < |s.table| && s.table[j].flags.inUse && s.table[j].data == s.start + 4096 * p
    ensures p in s.live && Owns(s, j, p)
  {
    assert EntryOk(s, j);
    var x :| x in s.live && Owns(s, j, x);
  }

  /** Over every run in which no filled segment grows, every segment fits its block. */
  lemma {:induction false} RunFits(states: seq<State>, calls: seq<Call>, i: nat)
    requires Run(states, calls) && i < |states|
    requires forall j :: 0 <= j < i ==> !GrowsFilled(states[j], calls[j])
    ensures Fits(states[i])
  {
    if i > 0 {
      RunFits(states, calls, i - 1);
      RunKeepsInv(states, calls, i - 1);
      PathStep(Step, states, calls, i);
      FitsStep(states[i - 1], calls[i - 1]);
    }
  }

  /** It does happen: the same key asked for twice, first with one page and then with two, leaves a
      segment of two pages in a block of one. */
  lemma GrowthReached(s: State, p: nat) returns (states: seq<State>, calls: seq<Call>)
    requires Initial(s) && |s.table| > 0
    ensures Run(states, calls) && states[0] == s && |calls| == 2 && Inv(states[2]) && !Fits(states[2])
    ensures Owns(states[2], 0, p) && states[2].table[0].segsz == 8192 && states[2].live == map[p := 0]
  {
    var first, second := GetCall(7, 4096, IPC_CREAT, 0, Some(p)), GetCall(7, 8192, IPC_CREAT, 0, None);
    assert IPC_CREAT & IPC_CREAT != 0;
    InitialInv(s);
    StepKeepsInv(s, first);
    var a := FirstGet(s, p);
    StepKeepsInv(a, second);
    GrownState(a, p);
    states, calls := [s, a, Apply(a, second)], [first, second];
    assert StepAt(Step, states, calls, 0) && StepAt(Step, states, calls, 1);
    assert Owns(states[2], 0, p) && LevelOf(8192) == 1 by { LevelOne(); }
  }

  lemma LevelOne()
    ensures LevelOf(4096) == 0 && LevelOf(8192) == 1 && LevelOf(4097) == 1
  {
    assert Pow2(0) == 1 && Pow2(1) == 2;
    LevelOfUnique(4096, 0);
    LevelOfUnique(8192, 1);
    LevelOfUnique(4097, 1);
  }

  lemma FirstGet(s: State, p: nat) returns (a: State)
    requires Initial(s) && |s.table| > 0
    ensures a == Apply(s, GetCall(7, 4096, IPC_CREAT, 0, Some(p)))
    ensures |a.table| == |s.table| && a.table[0].key == 7 && a.table[0].segsz == 4096 && a.table[0].flags == INUSE
    ensures a.table[0].data == a.start + 4096 * p && a.live == map[p := 0]
  {
    LevelOne();
    assert IPC_CREAT & IPC_CREAT != 0;
    assert FindKey(s.table, 7, 0) == |s.table| && FindAvailable(s.table, 0) == 0;
    a := Apply(s, GetCall(7, 4096, IPC_CREAT, 0, Some(p)));
  }

  lemma GrownState(a: State, p: nat)
    requires |a.table| == |a.attached| && |a.table| > 0
    requires a.table[0].key == 7 && a.table[0].segsz == 4096 && a.table[0].data == a.start + 4096 * p
    ensures var b := Apply(a, GetCall(7, 8192, IPC_CREAT, 0, None));
            && |b.table| == |a.table| && b.table[0].segsz == 8192 && b.table[0].flags == INUSE
            && b.table[0].data == b.start + 4096 * p && b.live == a.live
  {
    LevelOne();
    assert Pow2(1) == 2;
    assert IPC_CREAT & IPC_CREAT != 0;
    assert FindKey(a.table, 7, 0) == 0 && ReportedBlock(4096) == 8192;
  }
}
