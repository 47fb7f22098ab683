/** What the table of regions says about the past: attach counts, process ids and modes against the
    calls that were made, and when a removed segment goes away. */
module ShmHistory {
  import opened Options
  import opened Paths
  import opened ShmSpec
  import opened ShmRuns

  /** What the calls since the region's `shmget` amount to: successful attaches minus successful
      detaches, who created it, who used it last, and the mode it was given. */
  datatype Record = Record(count: int, creator: int, last: int, mode: bv32)

  /** A detach finds region k: the address is that of its segment, and it is attached. */
  predicate Detaches(s: State, c: Call, k: nat) {
    c.DetachCall? && k < |s.table| && InUse(s.table[k]) && s.table[k].data == c.addr && s.table[k].nattch > 0
  }

  /** The record of region k, in use before and after call c. */
  function Noted(h: Record, s: State, c: Call, k: nat): Record {
    if c.AttachCall? && c.shmid == k then h.(count := h.count + 1, last := c.pid)
    else if Detaches(s, c, k) then h.(count := h.count - 1, last := c.pid)
    else if c.RemoveCall? && c.shmid == k then h.(last := c.pid)
    else if c.SetCall? && c.shmid == k then h.(last := c.pid, mode := if c.mode.Some? then c.mode.value else h.mode)
    else h
  }

  function History(states: seq<State>, calls: seq<Call>, i: nat, k: nat): Record
    requires |states| == |calls| + 1 && i < |states|
    requires forall j :: 0 <= j <= i ==> k < |states[j].table|
  {
    if i == 0 || !InUse(states[i].table[k]) then Record(0, 0, 0, 0)
    else if !InUse(states[i - 1].table[k]) then
      Record(0, calls[i - 1].pid, 0, if calls[i - 1].GetCall? then calls[i - 1].flg & 0x1ff else 0)
    else Noted(History(states, calls, i - 1, k), states[i - 1], calls[i - 1], k)
  }

  /** Region k, if it is in use, says what the record says, its count in 16 bits. */
  ghost predicate Tells(s: State, k: nat, h: Record)
    requires k < |s.table| == |s.attached|
  {
    var r := s.table[k];
    InUse(r) ==> s.attached[k] == h.count && r.nattch == h.count % 65536 && r.cpid == h.creator && r.lpid == h.last
                 && r.mode == h.mode
  }

  /** An address names the one region in use whose segment starts there. */
  lemma FindsOwn(s: State, k: nat)
    requires Inv(s) && k < |s.table| && InUse(s.table[k])
    ensures FindData(s.table, s.table[k].data, 0) == k
  {
    UnlinkedIsUsed(s, k);
    forall i | 0 <= i < k ensures s.table[i].data != s.table[k].data {
      assert EntryOk(s, i) && Apart(s.table[i], s.table[k]);
    }
  }

  lemma GetStep(s: State, key: int, size: nat, flg: bv32, pid: int, page: Option<nat>, k: nat, h: Record)
    requires Inv(s) && k < |s.table| && InUse(s.table[k]) && Tells(s, k, h)
    ensures var c, s' := GetCall(key, size, flg, pid, page), Get(s, key, size, flg, pid, page);
            k < |s'.table| == |s'.attached| && (InUse(s'.table[k]) ==> Tells(s', k, Noted(h, s, c, k)))
  {
    GetExact(s, key, size, flg, pid, page);
  }

  lemma AttachStep(s: State, shmid: int, pid: int, k: nat, h: Record)
    requires Inv(s) && k < |s.table| && InUse(s.table[k]) && Tells(s, k, h)
    ensures var c, s' := AttachCall(shmid, pid), Attach(s, shmid, pid);
            k < |s'.table| == |s'.attached| && (InUse(s'.table[k]) ==> Tells(s', k, Noted(h, s, c, k)))
  {
    assert EntryOk(s, k);
    UnlinkedIsUsed(s, k);
  }

  lemma RemoveStep(s: State, shmid: int, pid: int, k: nat, h: Record)
    requires Inv(s) && k < |s.table| && InUse(s.table[k]) && Tells(s, k, h)
    ensures var c, s' := RemoveCall(shmid, pid), Remove(s, shmid, pid);
            k < |s'.table| == |s'.attached| && (InUse(s'.table[k]) ==> Tells(s', k, Noted(h, s, c, k)))
  {
  }

  lemma SetStep(s: State, shmid: int, mode: Option<bv32>, pid: int, k: nat, h: Record)
    requires Inv(s) && k < |s.table| && InUse(s.table[k]) && Tells(s, k, h)
    ensures var c, s' := SetCall(shmid, mode, pid), SetMode(s, shmid, mode, pid);
            k < |s'.table| == |s'.attached| && (InUse(s'.table[k]) ==> Tells(s', k, Noted(h, s, c, k)))
  {
  }

  lemma DetachStep(s: State, addr: nat, pid: int, k: nat, h: Record)
    requires Inv(s) && k < |s.table| && InUse(s.table[k]) && Tells(s, k, h)
    ensures var c, s' := DetachCall(addr, pid), Detach(s, addr, pid);
            k < |s'.table| == |s'.attached| && (InUse(s'.table[k]) ==> Tells(s', k, Noted(h, s, c, k)))
  {
    FindsOwn(s, k);
    assert EntryOk(s, k);
  }

  lemma UsedStep(s: State, c: Call, k: nat, h: Record)
    requires Inv(s) && Legal(s, c) && k < |s.table| && InUse(s.table[k]) && Tells(s, k, h)
    ensures var s' := Apply(s, c);
            k < |s'.table| == |s'.attached| && (InUse(s'.table[k]) ==> Tells(s', k, Noted(h, s, c, k)))
  {
    match c
    case GetCall(key, size, flg, pid, page) => GetStep(s, key, size, flg, pid, page, k, h);
    case AttachCall(shmid, pid) => AttachStep(s, shmid, pid, k, h);
    case DetachCall(addr, pid) => DetachStep(s, addr, pid, k, h);
    case RemoveCall(shmid, pid) => RemoveStep(s, shmid, pid, k, h);
    case SetCall(shmid, mode, pid) => SetStep(s, shmid, mode, pid, k, h);
  }

  lemma FreshStep(s: State, c: Call, k: nat)
    requires Inv(s) && Legal(s, c) && k < |s.table| && !InUse(s.table[k])
    ensures var s' := Apply(s, c);
            && k < |s'.table| == |s'.attached|
            && (InUse(s'.table[k]) ==> c.GetCall? && Tells(s', k, Record(0, c.pid, 0, c.flg & 0x1ff)))
  {
    assert EntryOk(s, k);
    match c
    case GetCall(key, size, flg, pid, page) => GetExact(s, key, size, flg, pid, page);
    case AttachCall(shmid, pid) =>
    case DetachCall(addr, pid) =>
    case RemoveCall(shmid, pid) =>
    case SetCall(shmid, mode, pid) =>
  }

  /** In every state of every run the table agrees with the calls: a region's attach count is the number
      of attaches minus detaches since its `shmget`, modulo 2^16, and its process ids and its mode are
      those of the calls that set them last. */
  lemma {:induction false} RunHistory(states: seq<State>, calls: seq<Call>, i: nat, k: nat)
    requires Run(states, calls) && i < |states| && k < |states[0].table|
    ensures forall j :: 0 <= j <= i ==> k < |states[j].table|
    ensures |states[i].table| == |states[i].attached| && Tells(states[i], k, History(states, calls, i, k))
  {
    if i > 0 {
      RunHistory(states, calls, i - 1, k);
      RunKeepsInv(states, calls, i - 1);
      PathStep(Step, states, calls, i);
      if InUse(states[i - 1].table[k]) {
        UsedStep(states[i - 1], calls[i - 1], k, History(states, calls, i - 1, k));
      } else {
        FreshStep(states[i - 1], calls[i - 1], k);
      }
    }
  }

  // ----- the end of a removed segment

  function DetachMany(s: State, addr: nat, n: nat): (t: State)
    requires |s.table| == |s.attached|
    ensures |t.table| == |t.attached| == |s.table|
  {
    if n == 0 then s else Detach(DetachMany(s, addr, n - 1), addr, 0)
  }

  /** One detach of a removed region: one attachment fewer, and with the last one the region goes. */
  lemma DetachOnce(s: State, k: nat)
    requires Inv(s) && k < |s.table| && Unlinked(s.table[k]) && InUse(s.table[k]) && 0 < s.table[k].nattch == s.attached[k]
    ensures var n, d := s.attached[k], Detach(s, s.table[k].data, 0);
            && Inv(d) && |d.table| == |s.table| && d.start == s.start
            && if n > 1 then
                 d.live == s.live && d.table[k] == s.table[k].(nattch := n - 1, lpid := 0) && d.attached[k] == n - 1
               else d.live == s.live - {PageOf(s, k)} && d.table[k] == EMPTY
  {
    FindsOwn(s, k);
    InvDetach(s, s.table[k].data, 0);
    DestroyFrees(s, k);
  }

  /** Region k is removed and attached n times; its segment is at the address, in the block of page q. */
  ghost predicate Leaving(s: State, k: nat, n: nat, addr: nat, q: nat) {
    && Inv(s) && k < |s.table| && s.table[k].flags == UNLINKED && s.table[k].data == addr && PageOf(s, k) == q
    && 0 < s.table[k].nattch == s.attached[k] == n
  }

  ghost predicate Gone(s: State, k: nat) {
    k < |s.table| && s.table[k] == EMPTY
  }

  lemma LeavingStep(s: State, k: nat, n: nat, addr: nat, q: nat)
    requires Leaving(s, k, n, addr, q)
    ensures var d := Detach(s, addr, 0);
            if n > 1 then Leaving(d, k, n - 1, addr, q) && d.live == s.live else Gone(d, k) && d.live == s.live - {q}
  {
    DetachOnce(s, k);
  }

  /** A removed region with n attachments stays for n - 1 detaches and goes with the n-th. */
  lemma {:induction false} LastDetach(s: State, k: nat, n: nat, addr: nat, q: nat, m: nat)
    requires |s.table| == |s.attached| && Leaving(s, k, n, addr, q) && m <= n
    ensures var d := DetachMany(s, addr, m);
            if m < n then Leaving(d, k, n - m, addr, q) && d.live == s.live else Gone(d, k) && d.live == s.live - {q}
  {
    if m > 0 {
      LastDetach(s, k, n, addr, q, m - 1);
      LeavingStep(DetachMany(s, addr, m - 1), k, n - (m - 1), addr, q);
    }
  }

  /** After n attaches, fewer than 2^16, a removal takes effect with the n-th detach of the segment's
      address, or at once when there were none, and not before. */
  lemma RemovalTakesEffect(s: State, k: nat, n: nat, m: nat)
    requires Inv(s) && k < |s.table| && s.table[k].flags == INUSE && s.attached[k] == 0 && m <= n < 65536
    ensures var d := DetachMany(Remove(AttachMany(s, k, n), k, 0), s.table[k].data, m);
            && k < |d.table| && PageOf(s, k) in s.live
            && if m < n then InUse(d.table[k]) && d.live == s.live
               else d.table[k] == EMPTY && d.live == s.live - {PageOf(s, k)}
  {
    var addr, q := s.table[k].data, PageOf(s, k);
    AttachManyCount(s, k, n);
    DestroyFrees(s, k);
    var a := AttachMany(s, k, n);
    RemoveAttached(a, k, n, q);
    if n > 0 { LastDetach(Remove(a, k, 0), k, n, addr, q, m); }
  }

  lemma RemoveAttached(s: State, k: nat, n: nat, q: nat)
    requires Inv(s) && k < |s.table| && s.table[k].flags == INUSE && s.attached[k] == n < 65536 && PageOf(s, k) == q
    ensures var b := Remove(s, k, 0);
            && |b.table| == |b.attached|
            && if n > 0 then Leaving(b, k, n, s.table[k].data, q) && b.live == s.live else Gone(b, k) && b.live == s.live - {q}
  {
    assert EntryOk(s, k);
    InvRemove(s, k, 0);
    DestroyFrees(s, k);
  }
}
