/** The shared-memory calls as they update the region table in place, each proved equal to
    its function in ShmSpec. */
module Shm {
  import opened BuddyBits
  import opened Options
  import BuddySpec
  import opened BuddyPool
  import opened ShmSpec

  const MAX_REGIONS: nat := 1024

  datatype Command = IpcStat(buffer: bool) | IpcSet(mode: bv32) | IpcRmid | OtherCommand

  lemma LiveInPool(pool: Pool, p: nat)
    requires pool.Valid() && p in pool.live
    ensures p < pool.smallestBlock
  {
    var b := BuddySpec.LiveBlock(p, pool.live[p]);
    BuddySpec.FirstInside(b);
    assert BuddySpec.Pages(b) <= BuddySpec.PoolPages(pool.smallestBlock);
  }

  class ShmTable {
    const regions: array<Region>
    const pool: Pool
    ghost var attached: seq<nat>

    ghost function Abs(): State
      reads this, regions, pool
    {
      State(pool.startAddr, regions[..], pool.live, attached)
    }

    ghost predicate Separate() {
      && regions.Length == MAX_REGIONS
      && regions as object != pool.bits && regions as object != pool.count && regions as object != pool.blockIndex
    }

    ghost predicate Valid()
      reads this, regions, pool, pool.bits, pool.count, pool.blockIndex
    {
      Separate() && pool.Valid() && Inv(Abs())
    }

    /** `shm_initialize` and `shm_free_mem_init`, which the first `shmget` runs. */
    constructor (freeMemStart: nat, freeMemEnd: nat)
      requires 0 < freeMemStart <= freeMemEnd && (freeMemEnd - freeMemStart) / 4096 < 0x8000_0000
      requires MetaPages((freeMemEnd - freeMemStart) / 4096) <= (freeMemEnd - freeMemStart) / 4096
      requires 4096 * MetaPages((freeMemEnd - freeMemStart) / 4096) < 0x8000_0000
      ensures Valid() && fresh(regions) && fresh(pool)
      ensures Initial(Abs())
    {
      var p := new Pool(freeMemStart, freeMemEnd);
      var r := new Region[MAX_REGIONS](_ => EMPTY);
      pool := p;
      regions := r;
      attached := seq(MAX_REGIONS, _ => 0);
      new;
      InitialInv(Abs());
    }

    method FindRegion(key: int) returns (i: int)
      requires regions.Length == MAX_REGIONS
      ensures i == if FindKey(regions[..], key, 0) < MAX_REGIONS then FindKey(regions[..], key, 0) else -1
    {
      i := 0;
      while i < MAX_REGIONS
        invariant 0 <= i <= MAX_REGIONS && FindKey(regions[..], key, 0) == FindKey(regions[..], key, i)
      {
        if regions[i].key == key {
          return;
        }
        i := i + 1;
      }
      return -1;
    }

    /** `shm_reserve`: takes the first available entry. */
    method Reserve(key: int, flg: bv32) returns (i: int)
      requires regions.Length == MAX_REGIONS
      modifies regions
      ensures var j := FindAvailable(old(regions[..]), 0);
              if j == MAX_REGIONS then i == -1 && regions[..] == old(regions[..])
              else i == j && regions[..] == old(regions[..])[j := old(regions[..])[j].(
                     key := key, flags := INUSE, mode := flg & IPC_MODE)]
    {
      i := 0;
      while i < MAX_REGIONS
        invariant 0 <= i <= MAX_REGIONS && regions[..] == old(regions[..])
        invariant FindAvailable(regions[..], 0) == FindAvailable(regions[..], i)
      {
        if regions[i].flags == AVAILABLE {
          regions[i] := regions[i].(key := key, flags := INUSE, mode := flg & IPC_MODE);
          return;
        }
        i := i + 1;
      }
      return -1;
    }

    /** `shm_destroy`: the block goes back to the allocator, the entry is zeroed. */
    method DestroyRegion(i: nat, ghost p: nat)
      requires Separate() && pool.Valid() && i < MAX_REGIONS == |attached|
      requires regions[i].data != 0 ==> p in pool.live && regions[i].data == pool.startAddr + 4096 * p
      modifies this, regions, pool, pool.bits, pool.count, pool.blockIndex
      ensures pool.Valid() && Abs() == Destroy(old(Abs()), i)
    {
      if regions[i].data != 0 {
        PageOfData(Abs(), i, p);
        LiveInPool(pool, p);
        FreeBlock(regions[i].data, p);
      }
      regions[i] := EMPTY;
      attached := attached[i := 0];
      assert regions[..] == old(regions[..])[i := EMPTY];
    }

    method FreeBlock(addr: nat, ghost p: nat)
      requires Separate() && pool.Valid() && p in pool.live
      requires pool.startAddr <= addr < pool.startAddr + 4096 * pool.smallestBlock && (addr - pool.startAddr) / 4096 == p
      modifies pool, pool.bits, pool.count, pool.blockIndex
      ensures pool.Valid() && regions[..] == old(regions[..])
      ensures pool.live == old(pool.live) - {p}
    {
      var ok := pool.Release(addr);
    }

    /** `shmat` */
    method ShmAt(shmid: int, pid: int) returns (addr: nat)
      requires Valid()
      modifies this, regions
      ensures Valid() && Abs() == Attach(old(Abs()), shmid, pid)
      ensures addr == if 0 <= shmid < MAX_REGIONS && InUse(old(regions[..])[shmid]) then old(regions[..])[shmid].data else 0
    {
      InvAttach(Abs(), shmid, pid);
      if shmid < 0 || shmid >= MAX_REGIONS {
        return 0;
      }
      if !regions[shmid].flags.inUse {
        return 0;
      }
      addr := regions[shmid].data;
      if addr == 0 {
        return 0;
      }
      regions[shmid] := regions[shmid].(nattch := (regions[shmid].nattch + 1) % 65536, lpid := pid);
      attached := attached[shmid := attached[shmid] + 1];
      assert regions[..] == Attach(old(Abs()), shmid, pid).table;
    }

    /** The block of the region in use with index i. */
    lemma BlockOf(i: nat) returns (p: nat)
      requires Valid() && i < MAX_REGIONS && InUse(regions[i])
      ensures p in pool.live && regions[i].data == pool.startAddr + 4096 * p
    {
      assert EntryOk(Abs(), i);
      p :| p in pool.live && Owns(Abs(), i, p);
    }

    /** `shmdt` */
    method ShmDt(addr: nat, pid: int) returns (ret: int)
      requires Valid()
      modifies this, regions, pool, pool.bits, pool.count, pool.blockIndex
      ensures Valid() && Abs() == Detach(old(Abs()), addr, pid)
      ensures ret == 0 <==> var i := FindData(old(regions[..]), addr, 0);
                            i < MAX_REGIONS && InUse(old(regions[..])[i]) && old(regions[..])[i].nattch > 0
      ensures ret == 0 || ret == -1
    {
      InvDetach(Abs(), addr, pid);
      var shmid := FindAddress(addr);
      if shmid >= MAX_REGIONS {
        return -1;
      }
      if !regions[shmid].flags.inUse {
        return -1;
      }
      if regions[shmid].nattch == 0 {
        return -1;
      }
      if regions[shmid].nattch <= 1 && regions[shmid].flags.unlinked {
        ghost var p := BlockOf(shmid);
        DestroyRegion(shmid, p);
        return 0;
      }
      Detached(shmid, pid);
      assert Abs() == Detach(old(Abs()), addr, pid);
      return 0;
    }

    method FindAddress(addr: nat) returns (i: nat)
      requires regions.Length == MAX_REGIONS
      ensures i == FindData(regions[..], addr, 0)
    {
      i := 0;
      while i < MAX_REGIONS
        invariant i <= MAX_REGIONS && FindData(regions[..], addr, 0) == FindData(regions[..], addr, i)
      {
        if regions[i].data == addr {
          return;
        }
        i := i + 1;
      }
    }

    /** The branch of `shmdt` that keeps the region. */
    method Detached(i: nat, pid: int)
      requires Separate() && i < MAX_REGIONS == |attached| && regions[i].nattch > 0
      modifies this, regions
      ensures Abs() == old(Abs()).(
                table := old(regions[..])[i := old(regions[..])[i].(nattch := old(regions[..])[i].nattch - 1, lpid := pid)],
                attached := old(attached)[i := if old(attached)[i] > 0 then old(attached)[i] - 1 else 0])
    {
      if regions[i].nattch <= 1 {
        regions[i] := regions[i].(nattch := 0);
      } else {
        regions[i] := regions[i].(nattch := regions[i].nattch - 1);
      }
      regions[i] := regions[i].(lpid := pid);
      attached := attached[i := if attached[i] > 0 then attached[i] - 1 else 0];
    }

    /** `shmctl` */
    method ShmCtl(shmid: int, cmd: Command, pid: int) returns (ret: int, stat: Option<Region>)
      requires Valid()
      modifies this, regions, pool, pool.bits, pool.count, pool.blockIndex
      ensures Valid()
      ensures cmd.IpcRmid? ==> Abs() == Remove(old(Abs()), shmid, pid)
      ensures cmd.IpcSet? ==> Abs() == SetMode(old(Abs()), shmid, Some(cmd.mode), pid)
      ensures cmd.IpcStat? && cmd.buffer ==> Abs() == SetMode(old(Abs()), shmid, None, pid)
      ensures cmd.OtherCommand? || (cmd.IpcStat? && !cmd.buffer) ==> Abs() == old(Abs())
      ensures ret == if 0 <= shmid < MAX_REGIONS && old(InUse(regions[shmid]))
                        && !cmd.OtherCommand? && !(cmd.IpcStat? && !cmd.buffer) then 0 else -1
      ensures stat == if cmd.IpcStat? && ret == 0 then Some(old(regions[..])[shmid]) else None
    {
      stat := None;
      if shmid < 0 || shmid >= MAX_REGIONS {
        return -1, None;
      }
      if !regions[shmid].flags.inUse {
        return -1, None;
      }
      match cmd
      case IpcStat(buffer) =>
        if !buffer {
          return -1, None;
        }
        stat := Some(regions[shmid]);
        ret := Touched(shmid, None, pid);
      case IpcSet(mode) =>
        ret := Touched(shmid, Some(mode), pid);
      case IpcRmid =>
        ret := Removed(shmid, pid);
      case OtherCommand =>
        return -1, None;
    }

    method Touched(shmid: nat, mode: Option<bv32>, pid: int) returns (ret: int)
      requires Valid() && shmid < MAX_REGIONS && InUse(regions[shmid])
      modifies regions
      ensures Valid() && ret == 0 && Abs() == SetMode(old(Abs()), shmid, mode, pid)
    {
      InvSetMode(Abs(), shmid, mode, pid);
      if mode.Some? {
        regions[shmid] := regions[shmid].(mode := mode.value);
      }
      regions[shmid] := regions[shmid].(lpid := pid);
      assert regions[..] == SetMode(old(Abs()), shmid, mode, pid).table;
      return 0;
    }

    method Removed(shmid: nat, pid: int) returns (ret: int)
      requires Valid() && shmid < MAX_REGIONS && InUse(regions[shmid])
      modifies this, regions, pool, pool.bits, pool.count, pool.blockIndex
      ensures Valid() && ret == 0 && Abs() == Remove(old(Abs()), shmid, pid)
    {
      InvRemove(Abs(), shmid, pid);
      if regions[shmid].nattch > 0 {
        regions[shmid] := regions[shmid].(flags := regions[shmid].flags.(unlinked := true));
      } else {
        ghost var p := BlockOf(shmid);
        DestroyRegion(shmid, p);
        return 0;
      }
      regions[shmid] := regions[shmid].(lpid := pid);
      assert regions[..] == Remove(old(Abs()), shmid, pid).table;
      return 0;
    }

    /** `shm_get_buddy_block_size`: the least block size larger than `size`. */
    method BuddyBlockSize(size: nat) returns (r: nat)
      requires size < MAX_REQUEST
      ensures r == ReportedBlock(size)
    {
      SupportedLevel(size + 1);
      r := 0;
      var i := 0;
      while i < 32
        invariant 0 <= i <= LevelOf(size + 1)
        decreases 32 - i
      {
        if PageShift(i) > size {
          return PageShift(i);
        }
        i := i + 1;
      }
    }

    /** `shm_create`; `page` is what the allocator answered. */
    method CreateRegion(key: int, size: nat, flg: bv32, pid: int) returns (ret: int, ghost page: Option<nat>)
      requires Valid() && size <= MAX_REQUEST
      requires key != IPC_PRIVATE && FindKey(regions[..], key, 0) == MAX_REGIONS
      modifies this, regions, pool, pool.bits, pool.count, pool.blockIndex
      ensures Valid() && Abs() == Create(old(Abs()), key, size, flg, pid, page)
      ensures page.Some? ==> page.value !in old(pool.live)
      ensures ret == var i := FindAvailable(old(regions[..]), 0); if i < MAX_REGIONS && page.Some? then i else -1
      ensures page.None? && FindAvailable(old(regions[..]), 0) < MAX_REGIONS ==>
              forall o: nat :: !BuddySpec.Free(old(pool.FreeSet()), BuddySpec.Block(LevelOf(size), o))
    {
      page := None;
      ghost var s := Abs();
      var i := Reserve(key, flg);
      if i < 0 {
        return -1, None;
      }
      ret, page := FinishCreate(i, key, size, flg, pid, s);
      InvCreate(s, key, size, flg, pid, page);
    }

    /** The rest of `shm_create`, once entry i is reserved. */
    method FinishCreate(i: nat, ghost key: int, size: nat, ghost flg: bv32, pid: int, ghost s: State)
      returns (ret: int, ghost page: Option<nat>)
      requires Separate() && pool.Valid() && size <= MAX_REQUEST
      requires Inv(s) && |s.table| == MAX_REGIONS && i == FindAvailable(s.table, 0) < MAX_REGIONS
      requires Abs() == s.(table := s.table[i := s.table[i].(key := key, flags := INUSE, mode := flg & IPC_MODE)])
      modifies this, regions, pool, pool.bits, pool.count, pool.blockIndex
      ensures pool.Valid() && Abs() == Create(s, key, size, flg, pid, page)
      ensures ret == if page.Some? then i else -1
      ensures page.Some? ==> page.value !in old(pool.live)
      ensures page.None? ==> forall o: nat :: !BuddySpec.Free(old(pool.FreeSet()), BuddySpec.Block(LevelOf(size), o))
    {
      var addr;
      addr, page := AllocBlock(size);
      if addr == 0 {
        Unreserve(i, s);
        CreateFails(s, key, size, flg, pid);
        return -1, None;
      }
      FillRegion(i, addr, size, pid);
      assert regions[..] == Create(s, key, size, flg, pid, page).table;
      return i, page;
    }

    method FillRegion(i: nat, addr: nat, size: nat, pid: int)
      requires i < regions.Length
      modifies regions
      ensures regions[..] == old(regions[..])[i := old(regions[i]).(data := addr, segsz := size, cpid := pid)]
    {
      regions[i] := regions[i].(data := addr, segsz := size, cpid := pid);
    }

    /** The cleanup of `shm_create` when the allocator had no block. */
    method Unreserve(i: nat, ghost s: State)
      requires Separate() && pool.Valid() && i < MAX_REGIONS && Inv(s)
      requires i < |s.table| && s.table[i].flags == AVAILABLE && regions[i].data == s.table[i].data
      requires s.start == pool.startAddr && s.live == pool.live && s.attached == attached
      requires |s.table| == MAX_REGIONS && regions[..] == s.table[i := regions[i]]
      modifies this, regions, pool, pool.bits, pool.count, pool.blockIndex
      ensures pool.Valid() && Abs() == s
    {
      InvEntryEmpty(s, i);
      DestroyRegion(i, 0);
      assert regions[..] == s.table;
    }

    lemma InvEntryEmpty(s: State, i: nat)
      requires Inv(s) && i < |s.table| && s.table[i].flags == AVAILABLE
      ensures s.table[i] == EMPTY && s.attached[i] == 0
    {
      assert EntryOk(s, i);
    }

    /** `shm_alloc`, with its answer as an optional page. */
    method AllocBlock(size: nat) returns (addr: nat, ghost page: Option<nat>)
      requires Separate() && pool.Valid() && size <= MAX_REQUEST
      modifies pool, pool.bits, pool.count, pool.blockIndex
      ensures pool.Valid() && regions[..] == old(regions[..])
      ensures addr == 0 <==> page.None?
      ensures page.Some? ==> page.value !in old(pool.live) && addr == pool.startAddr + 4096 * page.value
                             && pool.live == old(pool.live)[page.value := LevelOf(size)]
      ensures page.None? ==> pool.live == old(pool.live)
      ensures page.None? ==> forall o: nat :: !BuddySpec.Free(old(pool.FreeSet()), BuddySpec.Block(LevelOf(size), o))
    {
      addr := pool.Alloc(size);
      page := None;
      if addr != 0 {
        ghost var b :| BuddySpec.AllocStep(old(pool.marked), old(pool.live), LevelOf(size), b, pool.live)
                       && addr == pool.startAddr + 4096 * BuddySpec.First(b);
        page := Some(BuddySpec.First(b));
      }
    }

    /** `shmget` */
    method ShmGet(key: int, size: nat, flg: bv32, pid: int) returns (ret: int, ghost page: Option<nat>)
      requires Valid() && size <= MAX_REQUEST
      modifies this, regions, pool, pool.bits, pool.count, pool.blockIndex
      ensures Valid() && Abs() == Get(old(Abs()), key, size, flg, pid, page)
      ensures page.Some? ==> page.value !in old(pool.live)
      ensures ret == -1 <==> Refused(old(Abs()), key, size, flg, page)
      ensures ret == -1 ==> Abs() == old(Abs())
      ensures ret != -1 ==> Named(regions[..], ret, key, size)
      ensures ret != -1 && old(InUse(regions[ret])) ==> regions[ret].data == old(regions[ret].data)
      ensures page.None? && ret == -1 && key != IPC_PRIVATE && flg & IPC_CREAT != 0
              && FindKey(old(regions[..]), key, 0) == MAX_REGIONS && FindAvailable(old(regions[..]), 0) < MAX_REGIONS ==>
              forall o: nat :: !BuddySpec.Free(old(pool.FreeSet()), BuddySpec.Block(LevelOf(size), o))
    {
      page := None;
      ghost var s := Abs();
      if key == IPC_PRIVATE {
        return -1, None;
      }
      var i := FindRegion(key);
      if i < 0 {
        if flg & IPC_CREAT != 0 {
          ret, page := CreateRegion(key, size, flg, pid);
        } else {
          ret := -1;
        }
      } else {
        ret := Reuse(i, size, flg);
        assert Abs().table == Get(s, key, size, flg, pid, None).table;
      }
      assert ret == GetResult(s, key, size, flg, page);
      GetExact(s, key, size, flg, pid, page);
      InvGet(s, key, size, flg, pid, page);
    }

    /** The branch of `shmget` for a key that exists: grow if asked to, and undo a pending removal. */
    method Reuse(i: nat, size: nat, flg: bv32) returns (ret: int)
      requires Separate() && i < MAX_REGIONS && size <= MAX_REQUEST
      modifies regions
      ensures var r := old(regions[..])[i];
              if r.segsz < size && (flg & IPC_CREAT == 0 || size > ReportedBlock(r.segsz)) then
                ret == -1 && regions[..] == old(regions[..])
              else ret == i && regions[..] == old(regions[..])[i := r.(
                     flags := INUSE, segsz := if r.segsz < size then size else r.segsz)]
    {
      if regions[i].segsz < size {
        if flg & IPC_CREAT != 0 {
          var block := BuddyBlockSize(regions[i].segsz);
          if size > block {
            return -1;
          }
          regions[i] := regions[i].(segsz := size);
        } else {
          return -1;
        }
      }
      regions[i] := regions[i].(flags := INUSE);
      return i;
    }
  }
}
