/** What every scheduler operation keeps: where blocks are, list counters, reference counts. */
module SchedInv {
  import opened Seqs
  import opened SchedSpec

  /** A list holds exactly the blocks whose link is on it, each once. */
  ghost predicate ListOk(s: State, id: ListId)
    requires Shape(s) && Known(id)
  {
    && NoDup(s.lists[id].items)
    && forall t: nat :: t in s.lists[id].items <==> t < |s.tcbs| && s.tcbs[t].link == On(id)
  }

  ghost predicate Lists(s: State) {
    Shape(s) && forall id {:trigger ListOk(s, id)} :: Known(id) ==> ListOk(s, id)
  }

  /** How far a list's counter is from its length. */
  ghost function Drift(s: State, id: ListId): int
    requires Shape(s) && Known(id)
  {
    s.lists[id].count - |s.lists[id].items|
  }

  predicate IsFree(id: ListId) {
    id.GlobalFree? || id.LocalFree?
  }

  ghost predicate FreeEven(s: State)
    requires Shape(s)
  {
    forall id {:trigger Drift(s, id)} :: Known(id) && IsFree(id) ==> Drift(s, id) == 0
  }

  ghost predicate Kept(s: State, r: State)
    requires Shape(s) && Shape(r)
  {
    && (forall id {:trigger Drift(r, id)} :: Known(id) && !IsFree(id) ==> Drift(r, id) == Drift(s, id))
    && (FreeEven(s) ==> FreeEven(r))
  }

  lemma {:induction false} WithoutOk(items: seq<nat>, t: nat)
    requires NoDup(items)
    ensures NoDup(Without(items, t))
    ensures forall u: nat :: u in Without(items, t) <==> u in items && u != t
    ensures |Without(items, t)| == |items| - (if t in items then 1 else 0)
  {
    if items != [] {
      var rest := items[1..];
      assert forall u: nat :: u in items <==> u == items[0] || u in rest;
      WithoutOk(rest, t);
      assert items[0] !in rest;
      if items[0] != t {
        assert Without(items, t) == [items[0]] + Without(rest, t);
      }
    }
  }

  lemma DetachOk(s: State, t: nat)
    requires Lists(s) && t < |s.tcbs|
    ensures var r := Detach(s, t);
            && Lists(r) && r == s.(lists := r.lists, tcbs := s.tcbs[t := s.tcbs[t].(link := Off)])
            && forall id {:trigger Drift(r, id)} :: Known(id) ==>
                 Drift(r, id) == Drift(s, id) + if s.tcbs[t].link == On(id) then 1 else 0
  {
    var r := Detach(s, t);
    if s.tcbs[t].link.On? {
      var own := s.tcbs[t].link.list;
      assert ListOk(s, own);
      WithoutOk(s.lists[own].items, t);
      forall id | Known(id) ensures ListOk(r, id) {
        assert ListOk(s, id);
      }
    }
  }

  lemma CountOk(s: State, id: ListId, d: int)
    requires Lists(s) && Known(id)
    ensures var r := Count(s, id, d);
            && Lists(r) && r == s.(lists := r.lists)
            && forall other {:trigger Drift(r, other)} :: Known(other) ==>
                 Drift(r, other) == Drift(s, other) + if other == id then d else 0
  {
    var r := Count(s, id, d);
    forall other | Known(other) ensures ListOk(r, other) {
      assert ListOk(s, other);
    }
  }

  lemma AppendOk(s: State, t: nat, id: ListId)
    requires Lists(s) && t < |s.tcbs| && Known(id) && s.tcbs[t].link == Off
    ensures var r := Append(s, t, id);
            && Lists(r) && r == s.(lists := r.lists, tcbs := s.tcbs[t := s.tcbs[t].(link := On(id))])
            && forall other {:trigger Drift(r, other)} :: Known(other) ==>
                 Drift(r, other) == Drift(s, other) - if other == id then 1 else 0
  {
    var r := Append(s, t, id);
    assert ListOk(s, id);
    assert t !in s.lists[id].items;
    forall other | Known(other) ensures ListOk(r, other) {
      assert ListOk(s, other);
    }
  }

  lemma SetOk(s: State, t: nat, x: Tcb)
    requires Lists(s) && t < |s.tcbs| && x.link == s.tcbs[t].link
    ensures Lists(SetTcb(s, t, x))
    ensures var r := SetTcb(s, t, x); forall id {:trigger Drift(r, id)} :: Known(id) ==> Drift(r, id) == Drift(s, id)
  {
    var r := SetTcb(s, t, x);
    forall id | Known(id) ensures ListOk(r, id) {
      assert ListOk(s, id);
    }
  }

  ghost predicate SameDrift(s: State, r: State)
    requires Shape(s) && Shape(r)
  {
    forall id {:trigger Drift(r, id)} :: Known(id) ==> Drift(r, id) == Drift(s, id)
  }

  /** How the counters change when one block goes from list a to list b. */
  ghost predicate Moved(s: State, r: State, a: ListId, b: ListId)
    requires Shape(s) && Shape(r)
  {
    forall id {:trigger r.lists[id]} :: Known(id) ==>
      r.lists[id].count == s.lists[id].count - (if id == a then 1 else 0) + (if id == b then 1 else 0)
  }

  lemma TakeOk(s: State, t: nat, id: ListId)
    requires Lists(s) && t < |s.tcbs| && Known(id) && s.tcbs[t].link == On(id)
    ensures var r := Take(s, t, id);
            && Lists(r) && SameDrift(s, r) && r == s.(lists := r.lists, tcbs := s.tcbs[t := s.tcbs[t].(link := Off)])
            && forall other {:trigger r.lists[other]} :: Known(other) ==>
                 r.lists[other].count == s.lists[other].count - if other == id then 1 else 0
  {
    CountOk(s, id, -1);
    DetachOk(Count(s, id, -1), t);
  }

  lemma GiveOk(s: State, t: nat, id: ListId)
    requires Lists(s) && t < |s.tcbs| && Known(id) && s.tcbs[t].link == Off
    ensures var r := Give(s, t, id);
            && Lists(r) && SameDrift(s, r) && r == s.(lists := r.lists, tcbs := s.tcbs[t := s.tcbs[t].(link := On(id))])
            && forall other {:trigger r.lists[other]} :: Known(other) ==>
                 r.lists[other].count == s.lists[other].count + if other == id then 1 else 0
  {
    AppendOk(s, t, id);
    CountOk(Append(s, t, id), id, 1);
  }

  lemma MoveOk(s: State, t: nat, a: ListId, b: ListId, x: Tcb)
    requires Lists(s) && t < |s.tcbs| && Known(a) && Known(b) && s.tcbs[t].link == On(a) && x.link == Off
    ensures var r := Give(SetTcb(Take(s, t, a), t, x), t, b);
            && Lists(r) && SameDrift(s, r) && Moved(s, r, a, b)
            && r == s.(lists := r.lists, tcbs := s.tcbs[t := x.(link := On(b))])
  {
    TakeOk(s, t, a);
    var s1 := Take(s, t, a);
    SetOk(s1, t, x);
    GiveOk(SetTcb(s1, t, x), t, b);
    MoveDrift(s, s1, SetTcb(s1, t, x), Give(SetTcb(s1, t, x), t, b));
  }

  lemma MoveDrift(s: State, s1: State, s2: State, r: State)
    requires Shape(s) && Shape(s1) && Shape(s2) && Shape(r) && SameDrift(s, s1) && SameDrift(s1, s2) && SameDrift(s2, r)
    ensures SameDrift(s, r)
  {
    forall id | Known(id) ensures Drift(r, id) == Drift(s, id) {
      assert Drift(s1, id) == Drift(s, id) && Drift(s2, id) == Drift(s1, id);
    }
  }

  // ----- reference counts

  predicate Live(state: ThreadState) {
    state != NotAlloc && state != Exited
  }

  /** A non-idle block: its reference count is one for the live thread plus the references
      handed out; it is on a free list exactly when it is not allocated, off all lists exactly
      when it has exited and is still referenced, and it came back to a free list as often as
      it was allocated, except for the current allocation. */
  predicate ThreadOk(x: Tcb, gets: nat, allocs: nat) {
    && x.refc == gets + (if Live(x.state) then 1 else 0)
    && allocs == x.gen + (if x.state == NotAlloc then 0 else 1)
    && match x.link
       case Off => x.state == Exited && gets > 0
       case On(id) => if IsFree(id) then x.state == NotAlloc && gets == 0 else Live(x.state)
  }

  /** An idle thread's block is on no list and keeps the reference taken when its core started. */
  predicate BlockOk(t: nat, x: Tcb, gets: nat, allocs: nat) {
    if t < 288 then x.link == Off && Live(x.state) && x.refc == gets + 1 else ThreadOk(x, gets, allocs)
  }

  predicate ThreadAt(s: State, t: nat)
    requires t < |s.tcbs| == |s.gets| == |s.allocs|
  {
    BlockOk(t, s.tcbs[t], s.gets[t], s.allocs[t])
  }

  ghost predicate Threads(s: State)
    requires Shape(s)
  {
    forall t: nat {:trigger ThreadAt(s, t)} :: t < |s.tcbs| ==> ThreadAt(s, t)
  }

  predicate Close(x: Tcb, y: Tcb) {
    y == x || (x.link.On? && x.link.list.LocalFree? && y == x.(link := On(GlobalFree)))
  }

  /** Only block t changes, up to free blocks that move from a local to the global free list. */
  ghost predicate Others(s: State, r: State, t: nat)
    requires Shape(s) && Shape(r)
  {
    && |r.tcbs| == |s.tcbs| && r.running == s.running && r.halted == s.halted
    && (forall u: nat {:trigger r.tcbs[u]} :: u < |s.tcbs| && u != t ==>
          Close(s.tcbs[u], r.tcbs[u]) && r.gets[u] == s.gets[u] && r.allocs[u] == s.allocs[u])
  }

  lemma ThreadsFrame(s: State, r: State, t: nat)
    requires Shape(s) && Shape(r) && Threads(s) && Others(s, r, t) && (t < |r.tcbs| ==> ThreadAt(r, t))
    ensures Threads(r)
  {
    forall u: nat | u < |r.tcbs| ensures ThreadAt(r, u) {
      assert ThreadAt(s, u);
      if u != t { assert Close(s.tcbs[u], r.tcbs[u]); }
    }
  }

  lemma SpillOk(s: State, c: nat)
    requires Lists(s) && c < 288
    ensures var r := Spill(s, c);
            && Lists(r) && Kept(s, r) && r == s.(lists := r.lists, tcbs := r.tcbs)
            && forall t: nat {:trigger r.tcbs[t]} :: t < |s.tcbs| ==> r.tcbs[t] == Relinked(s.tcbs[t], c)
  {
    var r := Spill(s, c);
    assert ListOk(s, GlobalFree) && ListOk(s, LocalFree(c));
    forall id | Known(id) ensures ListOk(r, id) {
      assert ListOk(s, id);
      if id == GlobalFree { SpillGlobal(s, c); }
    }
    if FreeEven(s) {
      forall id | Known(id) && IsFree(id) ensures Drift(r, id) == 0 {
        assert Drift(s, id) == 0 && Drift(s, GlobalFree) == 0 && Drift(s, LocalFree(c)) == 0;
      }
    }
    forall id | Known(id) && !IsFree(id) ensures Drift(r, id) == Drift(s, id) {}
  }

  lemma SpillGlobal(s: State, c: nat)
    requires Lists(s) && c < 288
    ensures ListOk(Spill(s, c), GlobalFree)
  {
    var r := Spill(s, c);
    assert ListOk(s, GlobalFree) && ListOk(s, LocalFree(c));
    var all, mine := s.lists[GlobalFree].items, s.lists[LocalFree(c)].items;
    forall t: nat ensures t in all + mine <==> t < |r.tcbs| && r.tcbs[t].link == On(GlobalFree) {
      assert t in all + mine <==> t in all || t in mine;
    }
    forall i, j | 0 <= i < j < |all + mine| ensures (all + mine)[i] != (all + mine)[j] {
      assert i < |all| <= j ==> all[i] in all && mine[j - |all|] in mine;
    }
  }

  /** Non-free lists other than `but` keep their counters, and `but` loses d. */
  ghost predicate Fewer(s: State, r: State, but: ListId, d: nat)
    requires Shape(s) && Shape(r)
  {
    forall id {:trigger r.lists[id]} :: Known(id) && !IsFree(id) ==>
      r.lists[id].count == s.lists[id].count - if id == but then d else 0
  }

  ghost predicate OnFree(x: Tcb) {
    x.link.On? && IsFree(x.link.list)
  }

  /** Block t went to a free list and its generation advanced; nothing else changed. */
  ghost predicate Freed(s: State, r: State, t: nat)
    requires Shape(s) && Shape(r) && t < |s.tcbs|
  {
    && Lists(r) && Kept(s, r) && Others(s, r, t) && Fewer(s, r, Migrating, 0)
    && r.gets == s.gets && r.allocs == s.allocs && OnFree(r.tcbs[t])
    && r.tcbs[t] == s.tcbs[t].(state := NotAlloc, runningCore := -1, gen := s.tcbs[t].gen + 1,
                               link := r.tcbs[t].link)
  }

  lemma DestroyOk(s: State, c: nat, t: nat, won: bool)
    requires Lists(s) && c < 288 && t < |s.tcbs| && s.tcbs[t].link == Off
    ensures Freed(s, Destroy(s, c, t, won), t)
  {
    if s.lists[LocalFree(c)].count > 1 && won {
      DestroyGlobal(s, t);
    } else if s.lists[LocalFree(c)].count > 4 {
      DestroySpill(s, c, t);
    } else {
      DestroyLocal(s, c, t);
      FreedVia(s, s, Give(Scrub(s, t), t, LocalFree(c)), c, t);
    }
  }

  lemma DestroySpill(s: State, c: nat, t: nat)
    requires Lists(s) && c < 288 && t < |s.tcbs| && s.tcbs[t].link == Off
    ensures Freed(s, Give(Scrub(Spill(s, c), t), t, LocalFree(c)), t)
  {
    SpillOk(s, c);
    var s1 := Spill(s, c);
    DestroyLocal(s1, c, t);
    FreedVia(s, s1, Give(Scrub(s1, t), t, LocalFree(c)), c, t);
  }

  lemma FreedVia(s: State, s1: State, r: State, c: nat, t: nat)
    requires Lists(s) && Shape(s1) && Lists(r) && c < 288 && t < |s.tcbs| == |s1.tcbs| && s.tcbs[t].link == Off
    requires s1 == s.(lists := s1.lists, tcbs := s1.tcbs) && r == s1.(lists := r.lists, tcbs := r.tcbs)
    requires forall u: nat {:trigger s1.tcbs[u]} :: u < |s.tcbs| ==> Close(s.tcbs[u], s1.tcbs[u])
    requires Kept(s, s1) && SameDrift(s1, r) && Fewer(s, s1, Migrating, 0) && Fewer(s1, r, Migrating, 0)
    requires r.tcbs == s1.tcbs[t := s1.tcbs[t].(state := NotAlloc, runningCore := -1, gen := s1.tcbs[t].gen + 1,
                                                link := On(LocalFree(c)))]
    ensures Freed(s, r, t)
  {
    assert Close(s.tcbs[t], s1.tcbs[t]);
    forall id | Known(id) && !IsFree(id) ensures Drift(r, id) == Drift(s, id) {
      assert Drift(s1, id) == Drift(s, id);
    }
    if FreeEven(s) {
      forall id | Known(id) && IsFree(id) ensures Drift(r, id) == 0 {
        assert Drift(s1, id) == 0;
      }
    }
  }

  lemma DestroyGlobal(s: State, t: nat)
    requires Lists(s) && t < |s.tcbs| && s.tcbs[t].link == Off
    ensures Freed(s, Scrub(Give(s, t, GlobalFree), t), t)
  {
    GiveOk(s, t, GlobalFree);
    var s1 := Give(s, t, GlobalFree);
    ScrubOk(s1, t);
    var r := Scrub(s1, t);
    forall id | Known(id) ensures Drift(r, id) == Drift(s, id) {
      assert Drift(s1, id) == Drift(s, id);
    }
  }

  lemma ScrubOk(s: State, t: nat)
    requires Lists(s) && t < |s.tcbs|
    ensures Lists(Scrub(s, t)) && SameDrift(s, Scrub(s, t))
  {
    SetOk(s, t, s.tcbs[t].(state := NotAlloc, runningCore := -1, gen := s.tcbs[t].gen + 1));
  }

  lemma DestroyLocal(s: State, c: nat, t: nat)
    requires Lists(s) && c < 288 && t < |s.tcbs| && s.tcbs[t].link == Off
    ensures var r := Give(Scrub(s, t), t, LocalFree(c));
            && Lists(r) && SameDrift(s, r) && Fewer(s, r, Migrating, 0)
            && r == s.(lists := r.lists, tcbs := r.tcbs)
            && r.tcbs == s.tcbs[t := s.tcbs[t].(state := NotAlloc, runningCore := -1, gen := s.tcbs[t].gen + 1,
                                                link := On(LocalFree(c)))]
  {
    ScrubOk(s, t);
    GiveOk(Scrub(s, t), t, LocalFree(c));
    var r := Give(Scrub(s, t), t, LocalFree(c));
    forall id | Known(id) ensures Drift(r, id) == Drift(s, id) {
      assert Drift(Scrub(s, t), id) == Drift(s, id);
    }
  }

  /** One reference fewer to the exited block t, which went to a free list if that was the last. */
  ghost predicate Dropped(s: State, r: State, t: nat)
    requires Shape(s) && Shape(r) && t < |s.tcbs|
  {
    && Lists(r) && Kept(s, r) && Others(s, r, t) && Fewer(s, r, Migrating, 0)
    && r.gets == s.gets && r.allocs == s.allocs && r.tcbs[t].forbidden == s.tcbs[t].forbidden
    && if s.tcbs[t].refc == 1 then
         && OnFree(r.tcbs[t]) && r.tcbs[t].refc == 0 && r.tcbs[t].state == NotAlloc
         && r.tcbs[t].gen == s.tcbs[t].gen + 1
       else r.tcbs[t] == s.tcbs[t].(refc := s.tcbs[t].refc - 1)
  }

  lemma DropOk(s: State, c: nat, t: nat, won: bool)
    requires Lists(s) && c < 288 && t < |s.tcbs| && s.tcbs[t].link == Off && s.tcbs[t].state == Exited
    ensures Dropped(s, Drop(s, c, t, won), t)
  {
    var x := s.tcbs[t].(refc := s.tcbs[t].refc - 1);
    SetOk(s, t, x);
    if x.refc == 0 { DestroyOk(SetTcb(s, t, x), c, t, won); }
  }

  /** A live thread leaves list id and gives up its own reference. */
  ghost predicate Left(s: State, r: State, t: nat, id: ListId)
    requires Shape(s) && Shape(r) && t < |s.tcbs|
  {
    && Lists(r) && Kept(s, r) && Others(s, r, t) && Fewer(s, r, id, 1)
    && (ThreadAt(s, t) ==> ThreadAt(r, t)) && r.tcbs[t].forbidden == s.tcbs[t].forbidden
  }

  lemma LeaveOk(s: State, c: nat, t: nat, id: ListId, won: bool)
    requires Lists(s) && c < 288 && t < |s.tcbs| && Known(id) && !IsFree(id) && s.tcbs[t].link == On(id)
    ensures Left(s, Leave(s, c, t, id, won), t, id)
  {
    var s2 := UnlinkExited(s, t, id);
    DropOk(s2, c, t, won);
    LeftByDrop(s, s2, Drop(s2, c, t, won), t, id);
  }

  lemma LeftByDrop(s: State, s2: State, r: State, t: nat, id: ListId)
    requires Lists(s) && Shape(s2) && Shape(r) && t < |s.tcbs| && Known(id) && !IsFree(id) && s.tcbs[t].link == On(id)
    requires var x := s.tcbs[t].(state := Exited, intent := s.tcbs[t].intent.(exited := false));
             s2 == s.(lists := s2.lists, tcbs := s.tcbs[t := x.(link := Off)])
    requires SameDrift(s, s2) && Fewer(s, s2, id, 1) && Dropped(s2, r, t)
    ensures Left(s, r, t, id)
  {
    LeaveKept(s, s2, r);
  }

  lemma UnlinkExited(s: State, t: nat, id: ListId) returns (r: State)
    requires Lists(s) && t < |s.tcbs| && Known(id) && s.tcbs[t].link == On(id)
    ensures var x := s.tcbs[t].(state := Exited, intent := s.tcbs[t].intent.(exited := false));
            && r == Take(SetTcb(s, t, x), t, id)
            && Lists(r) && SameDrift(s, r) && r == s.(lists := r.lists, tcbs := s.tcbs[t := x.(link := Off)])
            && Fewer(s, r, id, 1)
  {
    var x := s.tcbs[t].(state := Exited, intent := s.tcbs[t].intent.(exited := false));
    SetOk(s, t, x);
    var s1 := SetTcb(s, t, x);
    TakeOk(s1, t, id);
    r := Take(s1, t, id);
    forall other | Known(other) ensures Drift(r, other) == Drift(s, other) {
      assert Drift(s1, other) == Drift(s, other);
    }
  }

  lemma LeaveKept(s: State, s2: State, r: State)
    requires Shape(s) && Shape(s2) && Shape(r) && SameDrift(s, s2) && Kept(s2, r)
    ensures Kept(s, r)
  {
    forall id | Known(id) && !IsFree(id) ensures Drift(r, id) == Drift(s, id) {
      assert Drift(s2, id) == Drift(s, id);
    }
  }
}
