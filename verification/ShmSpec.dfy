/** System V shared memory as a state machine: a table of regions on top of the live
    blocks of the shared-memory allocator. */
module ShmSpec {
  import opened Levels
  import opened BuddyBits
  import opened Options

  const IPC_PRIVATE: int := 0
  const IPC_MODE: bv32 := 0x1ff
  const IPC_CREAT: bv32 := 0x400

  /** The two bits of `sr_flags`. */
  datatype Flags = Flags(inUse: bool, unlinked: bool)

  const AVAILABLE: Flags := Flags(false, false)
  const INUSE: Flags := Flags(true, false)
  const UNLINKED: Flags := Flags(true, true)

  datatype Region = Region(segsz: nat, lpid: int, cpid: int, nattch: nat, mode: bv32,
                           flags: Flags, key: int, data: nat)

  const EMPTY: Region := Region(0, 0, 0, 0, 0, AVAILABLE, 0, 0)

  /** The table, the live blocks (first page to level) of the allocator whose pool starts at
      `start`, and the true number of outstanding attachments of each region. */
  datatype State = State(start: nat, table: seq<Region>, live: map<nat, nat>, attached: seq<nat>)

  predicate InUse(r: Region) {
    r.flags.inUse
  }

  predicate Unlinked(r: Region) {
    r.flags.unlinked
  }

  // ----- lookups; |t| stands for "none"

  function FindKey(t: seq<Region>, key: int, i: nat): (r: nat)
    requires i <= |t|
    ensures i <= r <= |t| && (r < |t| ==> t[r].key == key)
    ensures forall j :: i <= j < r ==> t[j].key != key
    decreases |t| - i
  {
    if i == |t| || t[i].key == key then i else FindKey(t, key, i + 1)
  }

  function FindAvailable(t: seq<Region>, i: nat): (r: nat)
    requires i <= |t|
    ensures i <= r <= |t| && (r < |t| ==> t[r].flags == AVAILABLE)
    ensures forall j :: i <= j < r ==> t[j].flags != AVAILABLE
    decreases |t| - i
  {
    if i == |t| || t[i].flags == AVAILABLE then i else FindAvailable(t, i + 1)
  }

  function FindData(t: seq<Region>, addr: nat, i: nat): (r: nat)
    requires i <= |t|
    ensures i <= r <= |t| && (r < |t| ==> t[r].data == addr)
    ensures forall j :: i <= j < r ==> t[j].data != addr
    decreases |t| - i
  {
    if i == |t| || t[i].data == addr then i else FindData(t, addr, i + 1)
  }

  // ----- the invariant

  /** Entry i is all zeroes when available; in use it has a key and owns a live block. */
  ghost predicate EntryOk(s: State, i: nat)
    requires i < |s.table| == |s.attached|
  {
    var r := s.table[i];
    && r.nattch == s.attached[i] % 65536
    && (r.flags.unlinked ==> r.flags.inUse)
    && (!r.flags.inUse ==> r == EMPTY && s.attached[i] == 0)
    && (r.flags.inUse ==> r.key != IPC_PRIVATE && exists p :: p in s.live && Owns(s, i, p))
  }

  ghost predicate Owns(s: State, i: nat, p: nat)
    requires i < |s.table|
  {
    s.table[i].flags.inUse && s.table[i].data == s.start + 4096 * p
  }

  /** Two regions in use have different keys and different blocks. */
  ghost predicate Apart(r: Region, q: Region) {
    r.flags.inUse && q.flags.inUse ==> r.key != q.key && r.data != q.data
  }

  ghost predicate Distinct(t: seq<Region>) {
    forall i, j {:trigger Apart(t[i], t[j])} :: 0 <= i < j < |t| ==> Apart(t[i], t[j])
  }

  ghost predicate Inv(s: State) {
    && s.start > 0 && |s.attached| == |s.table|
    && (forall i: nat :: i < |s.table| ==> EntryOk(s, i))
    && Distinct(s.table)
    // no leak: every live block belongs to a region
    && (forall p :: p in s.live ==> exists i: nat :: i < |s.table| && Owns(s, i, p))
  }

  ghost predicate Initial(s: State) {
    s.start > 0 && |s.table| == |s.attached| && s.live == map[]
    && forall i :: 0 <= i < |s.table| ==> s.table[i] == EMPTY && s.attached[i] == 0
  }

  lemma InitialInv(s: State)
    requires Initial(s)
    ensures Inv(s)
  {
    forall i: nat | i < |s.table| ensures EntryOk(s, i) {}
  }

  // ----- the calls, as functions of the state

  function PageOf(s: State, i: nat): nat
    requires i < |s.table|
  {
    if s.table[i].data < s.start then 0 else (s.table[i].data - s.start) / 4096
  }

  /** `shm_destroy`: frees the block, if any, and zeroes the entry. */
  function Destroy(s: State, i: nat): State
    requires i < |s.table| == |s.attached|
  {
    s.(table := s.table[i := EMPTY], attached := s.attached[i := 0],
       live := if s.table[i].data != 0 then s.live - {PageOf(s, i)} else s.live)
  }

  /** `shmat`: succeeds on a region in use; the 16-bit count wraps. */
  function Attach(s: State, shmid: int, pid: int): State
    requires |s.table| == |s.attached|
  {
    if 0 <= shmid < |s.table| && InUse(s.table[shmid]) && s.table[shmid].data != 0 then
      var r := s.table[shmid];
      s.(table := s.table[shmid := r.(nattch := (r.nattch + 1) % 65536, lpid := pid)],
         attached := s.attached[shmid := s.attached[shmid] + 1])
    else s
  }

  /** `shmdt`: looks the region up by address; the last detach of an unlinked region destroys it. */
  function Detach(s: State, addr: nat, pid: int): State
    requires |s.table| == |s.attached|
  {
    var i := FindData(s.table, addr, 0);
    if i == |s.table| || !InUse(s.table[i]) || s.table[i].nattch == 0 then s
    else if s.table[i].nattch == 1 && Unlinked(s.table[i]) then Destroy(s, i)
    else
      s.(table := s.table[i := s.table[i].(nattch := s.table[i].nattch - 1, lpid := pid)],
         attached := s.attached[i := if s.attached[i] > 0 then s.attached[i] - 1 else 0])
  }

  /** `shmctl(IPC_RMID)`: destroys an unattached region, marks an attached one. */
  function Remove(s: State, shmid: int, pid: int): State
    requires |s.table| == |s.attached|
  {
    if 0 <= shmid < |s.table| && InUse(s.table[shmid]) then
      var r := s.table[shmid];
      if r.nattch > 0 then s.(table := s.table[shmid := r.(flags := r.flags.(unlinked := true), lpid := pid)])
      else Destroy(s, shmid)
    else s
  }

  /** `shmctl(IPC_SET)` and `shmctl(IPC_STAT)`: they touch the mode and the last process id. */
  function SetMode(s: State, shmid: int, mode: Option<bv32>, pid: int): State {
    if 0 <= shmid < |s.table| && InUse(s.table[shmid]) then
      var r := s.table[shmid];
      s.(table := s.table[shmid := r.(mode := if mode.Some? then mode.value else r.mode, lpid := pid)])
    else s
  }

  /** The block size `shm_get_buddy_block_size` reports: the least one larger than `size`. */
  function ReportedBlock(size: nat): nat {
    4096 * Pow2(LevelOf(size + 1))
  }

  /** `shm_create`: `page` is the allocator's answer. */
  function Create(s: State, key: int, size: nat, flg: bv32, pid: int, page: Option<nat>): State
    requires |s.table| == |s.attached|
  {
    var i := FindAvailable(s.table, 0);
    if i == |s.table| then s
    else match page {
      case None => s.(table := s.table[i := EMPTY], attached := s.attached[i := 0])
      case Some(p) =>
        s.(table := s.table[i := s.table[i].(key := key, flags := INUSE, mode := flg & IPC_MODE,
                                             data := s.start + 4096 * p, segsz := size, cpid := pid)],
           live := s.live[p := LevelOf(size)])
    }
  }

  /** `shmget`: finds the region of a key, growing it or making one when asked to. */
  function Get(s: State, key: int, size: nat, flg: bv32, pid: int, page: Option<nat>): State
    requires |s.table| == |s.attached|
  {
    if key == IPC_PRIVATE then s
    else
      var i := FindKey(s.table, key, 0);
      if i == |s.table| then
        if flg & IPC_CREAT != 0 then Create(s, key, size, flg, pid, page) else s
      else
        var r := s.table[i];
        if r.segsz < size && (flg & IPC_CREAT == 0 || size > ReportedBlock(r.segsz)) then s
        else s.(table := s.table[i := r.(flags := INUSE, segsz := if r.segsz < size then size else r.segsz)])
  }

  // ----- every call keeps the invariant

  /** Changing an entry in use without touching its key and its block. */
  lemma InvUpdate(s: State, i: nat, r: Region, n: nat)
    requires Inv(s) && i < |s.table| && s.table[i].flags.inUse
    requires r.flags.inUse
    requires r.key == s.table[i].key && r.data == s.table[i].data && r.nattch == n % 65536
    ensures Inv(s.(table := s.table[i := r], attached := s.attached[i := n]))
  {
    var s' := s.(table := s.table[i := r], attached := s.attached[i := n]);
    forall j: nat, p: nat | j < |s.table| ensures Owns(s', j, p) <==> Owns(s, j, p) {}
    forall j: nat | j < |s.table| ensures EntryOk(s', j) {
      assert EntryOk(s, j);
      if s.table[j].flags.inUse {
        var p :| p in s.live && Owns(s, j, p);
        assert Owns(s', j, p);
      }
    }
    forall j, k | 0 <= j < k < |s'.table| ensures Apart(s'.table[j], s'.table[k]) {
      assert Apart(s.table[j], s.table[k]);
    }
    forall p | p in s'.live ensures exists j: nat :: j < |s'.table| && Owns(s', j, p) {
      var j: nat :| j < |s.table| && Owns(s, j, p);
      assert Owns(s', j, p);
    }
  }

  lemma PageOfData(s: State, i: nat, p: nat)
    requires i < |s.table| && s.table[i].data == s.start + 4096 * p
    ensures PageOf(s, i) == p
  {
  }

  lemma DestroyFrees(s: State, i: nat)
    requires Inv(s) && i < |s.table| && s.table[i].flags.inUse
    ensures PageOf(s, i) in s.live && Owns(s, i, PageOf(s, i))
    ensures Destroy(s, i).live == s.live - {PageOf(s, i)}
  {
    assert EntryOk(s, i);
    var q :| q in s.live && Owns(s, i, q);
    assert PageOf(s, i) == q;
  }

  /** Zeroing an entry and freeing its block leaves no leak and no dangling region. */
  lemma InvDestroy(s: State, i: nat)
    requires Inv(s) && i < |s.table| && s.table[i].flags.inUse
    ensures Inv(Destroy(s, i))
  {
    DestroyFrees(s, i);
    var q, s' := PageOf(s, i), Destroy(s, i);
    forall j: nat | j < |s.table| ensures EntryOk(s', j) {
      assert EntryOk(s, j);
      if j != i && s.table[j].flags.inUse {
        var p :| p in s.live && Owns(s, j, p);
        assert if j < i then Apart(s.table[j], s.table[i]) else Apart(s.table[i], s.table[j]);
        assert p != q && p in s'.live && Owns(s', j, p);
      }
    }
    forall j, k | 0 <= j < k < |s'.table| ensures Apart(s'.table[j], s'.table[k]) {
      assert Apart(s.table[j], s.table[k]);
    }
    forall p | p in s'.live ensures exists j: nat :: j < |s'.table| && Owns(s', j, p) {
      var j: nat :| j < |s.table| && Owns(s, j, p);
      assert Owns(s', j, p);
    }
  }

  lemma CreateFails(s: State, key: int, size: nat, flg: bv32, pid: int)
    requires Inv(s)
    ensures Create(s, key, size, flg, pid, None) == s
  {
    var i := FindAvailable(s.table, 0);
    if i < |s.table| {
      assert EntryOk(s, i);
      assert s.table[i := EMPTY] == s.table && s.attached[i := 0] == s.attached;
    }
  }

  lemma InvCreate(s: State, key: int, size: nat, flg: bv32, pid: int, page: Option<nat>)
    requires Inv(s) && key != IPC_PRIVATE && FindKey(s.table, key, 0) == |s.table|
    requires page.Some? ==> page.value !in s.live
    ensures Inv(Create(s, key, size, flg, pid, page))
  {
    var i := FindAvailable(s.table, 0);
    if page.None? {
      CreateFails(s, key, size, flg, pid);
    } else if i < |s.table| {
      assert EntryOk(s, i);
      CreateOwners(s, Create(s, key, size, flg, pid, page), i, page.value, key);
    }
  }

  /** The new entry owns the new block; the others keep theirs. */
  lemma CreateOwners(s: State, s': State, i: nat, q: nat, key: int)
    requires Inv(s) && i < |s.table| && s.table[i] == EMPTY && q !in s.live && key != IPC_PRIVATE
    requires forall j :: 0 <= j < |s.table| ==> s.table[j].key != key
    requires s'.start == s.start && s'.live.Keys == s.live.Keys + {q} && s'.attached == s.attached
    requires |s'.table| == |s.table| && forall j :: 0 <= j < |s.table| && j != i ==> s'.table[j] == s.table[j]
    requires s'.table[i].flags == INUSE && s'.table[i].key == key && s'.table[i].nattch == 0
    requires s'.table[i].data == s.start + 4096 * q
    ensures Inv(s')
  {
    assert Owns(s', i, q);
    forall j: nat | j < |s.table| ensures EntryOk(s', j) {
      OtherEntry(s, s', i, q, j);
    }
    forall j: nat | j < |s.table| && j != i && s.table[j].flags.inUse
      ensures s.table[j].data != s.start + 4096 * q
    {
      OtherEntry(s, s', i, q, j);
    }
    forall j, k | 0 <= j < k < |s'.table| ensures Apart(s'.table[j], s'.table[k]) {
      assert Apart(s.table[j], s.table[k]);
    }
    forall p | p in s'.live ensures exists j: nat :: j < |s'.table| && Owns(s', j, p) {
      if p != q {
        var j: nat :| j < |s.table| && Owns(s, j, p);
        assert Owns(s', j, p);
      }
    }
  }

  lemma OtherEntry(s: State, s': State, i: nat, q: nat, j: nat)
    requires Inv(s) && i < |s.table| && s.table[i] == EMPTY && q !in s.live && j < |s.table|
    requires s'.start == s.start && s'.live.Keys == s.live.Keys + {q} && s'.attached == s.attached
    requires |s'.table| == |s.table| && (j != i ==> s'.table[j] == s.table[j])
    requires s'.table[i].flags == INUSE && s'.table[i].key != IPC_PRIVATE && s'.table[i].nattch == 0
    requires s'.table[i].data == s.start + 4096 * q
    ensures EntryOk(s', j)
    ensures j != i && s.table[j].flags.inUse ==> s.table[j].data != s.start + 4096 * q
  {
    assert EntryOk(s, j);
    assert Owns(s', i, q);
    if j != i && s.table[j].flags.inUse {
      var p :| p in s.live && Owns(s, j, p);
      assert p in s'.live && Owns(s', j, p);
    }
  }

  lemma InvAttach(s: State, shmid: int, pid: int)
    requires Inv(s)
    ensures Inv(Attach(s, shmid, pid))
  {
    if 0 <= shmid < |s.table| && InUse(s.table[shmid]) && s.table[shmid].data != 0 {
      assert EntryOk(s, shmid);
      InvUpdate(s, shmid, Attach(s, shmid, pid).table[shmid], s.attached[shmid] + 1);
    }
  }

  lemma InvDetach(s: State, addr: nat, pid: int)
    requires Inv(s)
    ensures Inv(Detach(s, addr, pid))
  {
    var i := FindData(s.table, addr, 0);
    if i < |s.table| && InUse(s.table[i]) && s.table[i].nattch > 0 {
      assert EntryOk(s, i);
      if s.table[i].nattch == 1 && Unlinked(s.table[i]) {
        InvDestroy(s, i);
      } else {
        InvUpdate(s, i, Detach(s, addr, pid).table[i], s.attached[i] - 1);
      }
    }
  }

  lemma InvRemove(s: State, shmid: int, pid: int)
    requires Inv(s)
    ensures Inv(Remove(s, shmid, pid))
  {
    if 0 <= shmid < |s.table| && InUse(s.table[shmid]) {
      assert EntryOk(s, shmid);
      if s.table[shmid].nattch > 0 {
        InvUpdate(s, shmid, Remove(s, shmid, pid).table[shmid], s.attached[shmid]);
        assert s.attached[shmid := s.attached[shmid]] == s.attached;
      } else {
        InvDestroy(s, shmid);
      }
    }
  }

  lemma InvSetMode(s: State, shmid: int, mode: Option<bv32>, pid: int)
    requires Inv(s)
    ensures Inv(SetMode(s, shmid, mode, pid))
  {
    if 0 <= shmid < |s.table| && InUse(s.table[shmid]) {
      assert EntryOk(s, shmid);
      InvUpdate(s, shmid, SetMode(s, shmid, mode, pid).table[shmid], s.attached[shmid]);
      assert s.attached[shmid := s.attached[shmid]] == s.attached;
    }
  }

  lemma InvGet(s: State, key: int, size: nat, flg: bv32, pid: int, page: Option<nat>)
    requires Inv(s) && (page.Some? ==> page.value !in s.live)
    ensures Inv(Get(s, key, size, flg, pid, page))
  {
    if key != IPC_PRIVATE {
      var i := FindKey(s.table, key, 0);
      if i == |s.table| {
        InvCreate(s, key, size, flg, pid, page);
      } else {
        assert EntryOk(s, i);
        var r := s.table[i];
        if !(r.segsz < size && (flg & IPC_CREAT == 0 || size > ReportedBlock(r.segsz))) {
          InvUpdate(s, i, Get(s, key, size, flg, pid, page).table[i], s.attached[i]);
          assert s.attached[i := s.attached[i]] == s.attached;
        }
      }
    }
  }

  // ----- what shmget answers

  function GetResult(s: State, key: int, size: nat, flg: bv32, page: Option<nat>): int {
    if key == IPC_PRIVATE then -1
    else
      var i, j := FindKey(s.table, key, 0), FindAvailable(s.table, 0);
      if i < |s.table| then (if TooSmall(s.table[i], size, flg) then -1 else i)
      else if flg & IPC_CREAT != 0 && j < |s.table| && page.Some? then j
      else -1
  }

  /** Entry r is the one region in use with the key, not waiting for its removal, and large enough. */
  ghost predicate Named(t: seq<Region>, r: int, key: int, size: nat) {
    && 0 <= r < |t| && InUse(t[r]) && !Unlinked(t[r]) && t[r].key == key && t[r].segsz >= size
    && forall j :: 0 <= j < |t| && j != r && InUse(t[j]) ==> t[j].key != key
  }

  /** Why `shmget` may fail: the private key; no region with the key, and creating one is not asked for
      or not possible; or a region that is too small, and growing it is not asked for or not possible. */
  ghost predicate Refused(s: State, key: int, size: nat, flg: bv32, page: Option<nat>) {
    || key == IPC_PRIVATE
    || (&& (forall i :: 0 <= i < |s.table| && InUse(s.table[i]) ==> s.table[i].key != key)
        && (flg & IPC_CREAT == 0 || page.None? || forall i :: 0 <= i < |s.table| ==> InUse(s.table[i])))
    || (exists i :: 0 <= i < |s.table| && InUse(s.table[i]) && s.table[i].key == key && TooSmall(s.table[i], size, flg))
  }

  predicate TooSmall(r: Region, size: nat, flg: bv32) {
    r.segsz < size && (flg & IPC_CREAT == 0 || size > ReportedBlock(r.segsz))
  }

  /** `shmget` changes nothing iff one of those holds, or the region was there and is as asked for.
      Otherwise it names the region of the key: an old one, which keeps everything but its pending
      removal and a size that was too small, or a new one. No other region changes. */
  lemma GetExact(s: State, key: int, size: nat, flg: bv32, pid: int, page: Option<nat>)
    requires Inv(s)
    ensures var t, r := Get(s, key, size, flg, pid, page), GetResult(s, key, size, flg, page);
            if Refused(s, key, size, flg, page) then r == -1 && t == s
            else
              && Named(t.table, r, key, size) && |t.table| == |s.table| && t.attached == s.attached && t.start == s.start
              && (forall j :: 0 <= j < |s.table| && j != r ==> t.table[j] == s.table[j])
              && if InUse(s.table[r]) then
                   && t.live == s.live && s.table[r].key == key
                   && t.table[r] == s.table[r].(flags := INUSE,
                                                segsz := if s.table[r].segsz < size then size else s.table[r].segsz)
                 else
                   && page.Some? && t.live == s.live[page.value := LevelOf(size)]
                   && t.table[r] == Region(size, 0, pid, 0, flg & 0x1ff, INUSE, key, s.start + 4096 * page.value)
  {
    if key != IPC_PRIVATE {
      var i, j := FindKey(s.table, key, 0), FindAvailable(s.table, 0);
      KeyInUse(s, key);
      AvailableExact(s);
      if i < |s.table| {
        OnlyKey(s, i);
      } else if page.None? {
        CreateFails(s, key, size, flg, pid);
      } else if j < |s.table| {
        assert EntryOk(s, j);
      }
    }
  }

  lemma KeyInUse(s: State, key: int)
    requires Inv(s) && key != IPC_PRIVATE
    ensures forall i :: 0 <= i < |s.table| && s.table[i].key == key ==> InUse(s.table[i])
  {
    forall i | 0 <= i < |s.table| && s.table[i].key == key ensures InUse(s.table[i]) { assert EntryOk(s, i); }
  }

  lemma OnlyKey(s: State, i: nat)
    requires Inv(s) && i < |s.table| && InUse(s.table[i])
    ensures forall j :: 0 <= j < |s.table| && j != i && InUse(s.table[j]) ==> s.table[j].key != s.table[i].key
  {
    forall j | 0 <= j < |s.table| && j != i && InUse(s.table[j]) ensures s.table[j].key != s.table[i].key {
      assert if j < i then Apart(s.table[j], s.table[i]) else Apart(s.table[i], s.table[j]);
    }
  }

  lemma AvailableExact(s: State)
    requires Inv(s)
    ensures FindAvailable(s.table, 0) == |s.table| <==> forall i :: 0 <= i < |s.table| ==> InUse(s.table[i])
  {
    forall i | 0 <= i < |s.table| ensures InUse(s.table[i]) <==> s.table[i].flags != AVAILABLE { assert EntryOk(s, i); }
  }
}
