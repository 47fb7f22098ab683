/** The scheduler's operations and the invariant: what each keeps, and exactly when a switch does. */
module SchedOps {
  import opened Options
  import opened SchedSpec
  import opened SchedInv
  import opened SchedSteps

  // ----- post_context_switch

  lemma WakeChain(s: State, c: nat, luck: Luck)
    requires Lists(s) && c < 288
    ensures var r := Wake(s, c, luck); Chain(s, r) && LoadsLe(s, r)
  {
    if s.lists[BlockedOn(c)].count != 0 {
      ListAhead(s, BlockedOn(c));
      WakeAllChain(s, c, s.lists[BlockedOn(c)].items, luck);
    } else {
      ChainRefl(s);
    }
  }

  /** Everything after the handling of the previous thread. */
  lemma TailChain(s: State, c: nat, won: bool, luck: Luck)
    requires Lists(s) && c < 288
    ensures var r := Wake(Pull(s, c, won), c, luck); Chain(s, r) && (Fits(s) ==> Fits(r))
  {
    PullChain(s, c, won);
    var s1 := Pull(s, c, won);
    WakeChain(s1, c, luck);
    var r := Wake(s1, c, luck);
    ChainTrans(s, s1, r);
    if Fits(s) {
      PullFits(s, c, won);
      LoadsFit(s1, r);
    }
  }

  lemma PostChain(s: State, c: nat, p: nat, won: bool, luck: Luck)
    requires Inv(s) && c < 288 && p < |s.tcbs| && Safe(s, c, p)
    ensures Inv(Post(s, c, p, won, luck)) && Post(s, c, p, won, luck).running == s.running
  {
    PostPrevChain(s, c, p, luck.free(p));
    var s1 := PostPrev(s, c, p, luck.free(p));
    LoadsFit(s, s1);
    ChainInv(s, s1);
    TailChain(s1, c, won, luck);
    ChainInv(s1, Wake(Pull(s1, c, won), c, luck));
  }

  /** The counter of the runnable list ends one too low exactly when the previous thread had
      left that list. */
  lemma PostDrift(s: State, c: nat, p: nat, won: bool, luck: Luck)
    requires Lists(s) && c < 288 && p < |s.tcbs|
    ensures var r := Post(s, c, p, won, luck); var id := RunnableOn(c);
            Lists(r) && Drift(r, id) == Drift(s, id) - if Safe(s, c, p) then 0 else 1
  {
    PostPrevDrift(s, c, p, luck.free(p));
    var s1 := PostPrev(s, c, p, luck.free(p));
    TailChain(s1, c, won, luck);
    assert Drift(Wake(Pull(s1, c, won), c, luck), RunnableOn(c)) == Drift(s1, RunnableOn(c));
  }

  lemma PostExact(s: State, c: nat, p: nat, won: bool, luck: Luck)
    requires Inv(s) && c < 288 && p < |s.tcbs|
    ensures Inv(Post(s, c, p, won, luck)) <==> Safe(s, c, p)
  {
    if Safe(s, c, p) {
      PostChain(s, c, p, won, luck);
    } else {
      PostDrift(s, c, p, won, luck);
      assert Drift(s, RunnableOn(c)) == 0;
    }
  }

  // ----- the current thread

  /** Block t is live in r exactly when it is live in s. */
  predicate SameLife(s: State, r: State, t: nat)
    requires t < |s.tcbs| == |r.tcbs|
  {
    Live(s.tcbs[t].state) == Live(r.tcbs[t].state)
  }

  lemma {:induction false} AdoptOwnLife(s: State, c: nat, items: seq<nat>, t: nat)
    requires Lists(s) && c < 288 && Ahead(s, items, Migrating) && t < |s.tcbs|
    ensures SameLife(s, AdoptOwn(s, c, items).0, t)
    decreases |items|
  {
    if items != [] {
      var s1 := AdoptOwnStep(s, c, items);
      if s.tcbs[items[0]].runningCore == c { AdoptLife(s, c, items[0], t); }
      if Load(s1, c) != 2048 { AdoptOwnLife(s1, c, items[1..], t); }
    }
  }

  lemma AdoptLife(s: State, c: nat, u: nat, t: nat)
    requires Lists(s) && c < 288 && t < |s.tcbs| && u < |s.tcbs| && s.tcbs[u].link == On(Migrating)
    ensures SameLife(s, Adopt(s, c, u), t)
  {
    AdoptChain(s, c, u);
    assert t != u ==> Close(s.tcbs[t], Adopt(s, c, u).tcbs[t]);
  }

  lemma {:induction false} AdoptOneLife(s: State, c: nat, items: seq<nat>, t: nat)
    requires Lists(s) && c < 288 && Ahead(s, items, Migrating) && t < |s.tcbs|
    ensures SameLife(s, AdoptOne(s, c, items), t)
    decreases |items|
  {
    if items != [] {
      if c !in s.tcbs[items[0]].forbidden {
        AdoptLife(s, c, items[0], t);
      } else if Load(s, c) != 2048 {
        AdoptOneLife(s, c, items[1..], t);
      }
    }
  }

  lemma PullLife(s: State, c: nat, won: bool, t: nat)
    requires Lists(s) && c < 288 && t < |s.tcbs|
    ensures SameLife(s, Pull(s, c, won), t)
  {
    if Load(s, c) < 2048 && s.lists[Migrating].count != 0 && won {
      ListAhead(s, Migrating);
      AdoptOwnChain(s, c, s.lists[Migrating].items);
      AdoptOwnLife(s, c, s.lists[Migrating].items, t);
      var (s1, full) := AdoptOwn(s, c, s.lists[Migrating].items);
      if !full {
        ListAhead(s1, Migrating);
        AdoptOneLife(s1, c, s1.lists[Migrating].items, t);
      }
    }
  }

  lemma OthersLife(s: State, r: State, u: nat, t: nat)
    requires Shape(s) && Shape(r) && t < |s.tcbs| && t != u && Others(s, r, u)
    ensures SameLife(s, r, t)
  {
    assert Close(s.tcbs[t], r.tcbs[t]);
  }

  lemma WakeOneLife(s: State, c: nat, u: nat, luck: Luck)
    requires Lists(s) && c < 288 && u < |s.tcbs| && s.tcbs[u].link == On(BlockedOn(c)) && Threads(s)
    ensures SameLife(s, WakeOne(s, c, u, luck), s.running[c])
  {
    if u == s.running[c] {
      WakeSelf(s, c, luck);
    } else {
      WakeOneChain(s, c, u, luck);
      OthersLife(s, WakeOne(s, c, u, luck), u, s.running[c]);
    }
  }

  lemma WakeSelf(s: State, c: nat, luck: Luck)
    requires Lists(s) && c < 288 && Threads(s) && s.tcbs[s.running[c]].link == On(BlockedOn(c))
    ensures SameLife(s, WakeOne(s, c, s.running[c], luck), s.running[c])
  {
    var t := s.running[c];
    assert ThreadAt(s, t);
    if !s.tcbs[t].intent.exited {
      if s.tcbs[t].intent.ready { UnblockChain(s, c, t); }
    }
  }

  lemma {:induction false} WakeAllLife(s: State, c: nat, items: seq<nat>, luck: Luck)
    requires Lists(s) && c < 288 && Ahead(s, items, BlockedOn(c)) && Threads(s)
    ensures SameLife(s, WakeAll(s, c, items, luck), s.running[c])
    decreases |items|
  {
    if items != [] {
      WakeOneChain(s, c, items[0], luck);
      WakeOneLife(s, c, items[0], luck);
      var s1 := WakeOne(s, c, items[0], luck);
      AheadNext(s, s1, items, BlockedOn(c));
      WakeAllLife(s1, c, items[1..], luck);
    }
  }

  /** post_context_switch never ends the thread that is running on its core. */
  lemma PostLife(s: State, c: nat, won: bool, luck: Luck)
    requires Inv(s) && c < 288 && Safe(s, c, s.running[c])
    ensures SameLife(s, Post(s, c, s.running[c], won, luck), s.running[c])
  {
    var t := s.running[c];
    PostPrevChain(s, c, t, luck.free(t));
    PostPrevLife(s, c, luck.free(t));
    var s1 := PostPrev(s, c, t, luck.free(t));
    PullChain(s1, c, won);
    PullLife(s1, c, won, t);
    var s2 := Pull(s1, c, won);
    if s2.lists[BlockedOn(c)].count != 0 {
      ListAhead(s2, BlockedOn(c));
      WakeAllLife(s2, c, s2.lists[BlockedOn(c)].items, luck);
    }
  }

  lemma PostPrevLife(s: State, c: nat, won: bool)
    requires Lists(s) && c < 288 && Safe(s, c, s.running[c])
    ensures SameLife(s, PostPrev(s, c, s.running[c], won), s.running[c])
  {
    var t := s.running[c];
    var x := s.tcbs[t];
    if Live(x.state) && !x.intent.ready && x.intent.blocked { BlockChain(s, c, t); }
  }

  // ----- the second half of schedule

  /** Nothing happened to the current thread between the two halves of schedule that the second
      half does not expect. */
  predicate SwitchSafe(s: State, c: nat, next: nat)
    requires c < |s.running| && s.running[c] < |s.tcbs|
  {
    var t := s.running[c];
    if next == t then Safe(s, c, t) && Live(s.tcbs[t].state)
    else Safe(s.(running := s.running[c := next]), c, t)
  }

  lemma RefillInv(s: State, t: nat)
    requires Inv(s) && t < |s.tcbs|
    ensures Inv(Refill(s, t))
  {
    RefillChain(s, t);
    LoadsFit(s, Refill(s, t));
    ChainInv(s, Refill(s, t));
  }

  lemma EnterInv(s: State, c: nat, next: nat)
    requires Inv(s) && c < 288 && next < |s.tcbs|
    ensures Inv(Enter(s, c, next))
  {
    var x := s.tcbs[next].(runningCore := c);
    SetChain(s, next, x);
    var s1 := SetTcb(s, next, x);
    LoadsFit(s, s1);
    ChainInv(s, s1);
    RunningFrame(s1, s.running[c := next]);
  }

  lemma RunningFrame(s: State, running: seq<nat>)
    requires Inv(s) && |running| == 288 && forall c :: 0 <= c < 288 ==> running[c] < |s.tcbs|
    ensures Inv(s.(running := running))
  {
    var r := s.(running := running);
    forall id | Known(id) ensures ListOk(r, id) { assert ListOk(s, id); }
    forall id | Known(id) ensures Drift(r, id) == 0 { assert Drift(s, id) == 0; }
    forall t: nat | t < |r.tcbs| ensures ThreadAt(r, t) { assert ThreadAt(s, t); }
    forall c: nat | c < 288 ensures Load(r, c) <= 2048 { assert Load(s, c) <= 2048; }
  }

  lemma ResumeExact(s: State, t: nat)
    requires Inv(s) && t < |s.tcbs|
    ensures Inv(Resume(s, t)) <==> Live(s.tcbs[t].state)
  {
    var r := Resume(s, t);
    assert ThreadAt(s, t);
    if Live(s.tcbs[t].state) {
      var x := s.tcbs[t].(state := Running, intent := s.tcbs[t].intent.(ready := false));
      SetOk(s, t, x);
      SameKept(s, r);
      ChainOne(s, r, t);
      assert LoadsLe(s, r);
      LoadsFit(s, r);
      ChainInv(s, r);
    } else {
      assert !ThreadAt(r, t);
    }
  }

  lemma SwitchExact(s: State, c: nat, next: nat, won: bool, luck: Luck)
    requires Inv(s) && c < 288 && next < |s.tcbs|
    ensures Inv(Switch(s, c, next, won, luck)) <==> SwitchSafe(s, c, next)
  {
    RefillInv(s, next);
    RefillSafe(s, c, next);
    if next == s.running[c] {
      SameSwitch(Refill(s, next), c, won, luck);
    } else {
      OtherSwitch(Refill(s, next), c, next, won, luck);
    }
  }

  lemma RefillSafe(s: State, c: nat, next: nat)
    requires Shape(s) && c < 288 && next < |s.tcbs|
    ensures Refill(s, next).running == s.running && SwitchSafe(Refill(s, next), c, next) == SwitchSafe(s, c, next)
  {
  }

  lemma OtherSwitch(s: State, c: nat, next: nat, won: bool, luck: Luck)
    requires Inv(s) && c < 288 && next < |s.tcbs| && next != s.running[c]
    ensures Inv(Post(Enter(s, c, next), c, s.running[c], won, luck)) <==> SwitchSafe(s, c, next)
  {
    EnterInv(s, c, next);
    PostExact(Enter(s, c, next), c, s.running[c], won, luck);
  }

  lemma SameSwitch(s: State, c: nat, won: bool, luck: Luck)
    requires Inv(s) && c < 288
    ensures var t := s.running[c];
            Inv(Resume(Post(s, c, t, won, luck), t)) <==> Safe(s, c, t) && Live(s.tcbs[t].state)
  {
    var t := s.running[c];
    var r := Post(s, c, t, won, luck);
    if Safe(s, c, t) {
      PostChain(s, c, t, won, luck);
      PostLife(s, c, won, luck);
      ResumeExact(r, t);
    } else {
      PostDrift(s, c, t, won, luck);
      assert Drift(s, RunnableOn(c)) == 0;
      ResumeDrift(r, t, RunnableOn(c));
    }
  }

  lemma ResumeDrift(s: State, t: nat, id: ListId)
    requires Shape(s) && t < |s.tcbs| && Known(id) && Drift(s, id) != 0
    ensures !Inv(Resume(s, t))
  {
    assert Drift(Resume(s, t), id) == Drift(s, id);
  }

  // ----- allocation and references

  ghost predicate HasFree(s: State, c: nat)
    requires Shape(s) && c < 288
  {
    s.lists[LocalFree(c)].items != [] || s.lists[GlobalFree].items != []
  }

  /** The first block of the core's own free list, and only if that is empty of the global one. */
  ghost function FirstFree(s: State, c: nat): nat
    requires Shape(s) && c < 288 && HasFree(s, c)
  {
    var mine, all := s.lists[LocalFree(c)].items, s.lists[GlobalFree].items;
    if mine != [] then mine[0] else all[0]
  }

  /** The free list alloc_tcb takes from. */
  function Source(s: State, c: nat): (id: ListId)
    requires Shape(s) && c < 288
  {
    if s.lists[LocalFree(c)].count != 0 then LocalFree(c) else GlobalFree
  }

  /** Block t was free, without references, and is now a fresh block on no list. */
  ghost predicate Allocated(s: State, r: State, t: nat)
    requires Shape(s) && Shape(r)
  {
    && 288 <= t < |s.tcbs| && OnFree(s.tcbs[t]) && s.tcbs[t].state == NotAlloc && s.tcbs[t].refc == 0
    && Lists(r) && SameDrift(s, r) && Others(s, r, t) && Fewer(s, r, Migrating, 0)
    && r.gets == s.gets && r.gets[t] == 0
    && r.allocs[t] == s.allocs[t] + 1 && r.tcbs[t] == Fresh(s.tcbs[t])
  }

  /** alloc_tcb finds no block exactly when both of its lists are empty; the block it returns
      was free, has no reference left, and is nowhere afterwards. */
  lemma AllocOk(s: State, c: nat)
    requires Inv(s) && c < 288
    ensures var (r, found) := Alloc(s, c);
            && (found.Some? <==> HasFree(s, c)) && (r.halted <==> found.None?)
            && (found.Some? ==> Allocated(s, r, found.value) && found.value == FirstFree(s, c))
  {
    var id := Source(s, c);
    var items := s.lists[id].items;
    assert Drift(s, LocalFree(c)) == 0;
    if items != [] {
      ListAhead(s, id);
      AllocFrom(s, items[0], id);
    }
  }

  lemma AllocFrom(s: State, t: nat, id: ListId)
    requires Inv(s) && t < |s.tcbs| && Known(id) && IsFree(id) && s.tcbs[t].link == On(id)
    ensures Allocated(s, Claim(Take(s, t, id), t), t)
  {
    assert ThreadAt(s, t);
    TakeOk(s, t, id);
    AllocLog(s, Take(s, t, id), t);
  }

  lemma AllocLog(s: State, s1: State, t: nat)
    requires Lists(s) && Lists(s1) && t < |s.tcbs| && SameDrift(s, s1)
    requires s1 == s.(lists := s1.lists, tcbs := s.tcbs[t := s.tcbs[t].(link := Off)])
    ensures var r := Claim(s1, t);
            Lists(r) && SameDrift(s, r) && Others(s, r, t)
  {
    var s2 := SetTcb(s1, t, Fresh(s1.tcbs[t]));
    SetOk(s1, t, Fresh(s1.tcbs[t]));
    var r := s2.(allocs := s1.allocs[t := s1.allocs[t] + 1]);
    SameLists(s2, r);
    forall id | Known(id) ensures Drift(r, id) == Drift(s, id) {
      assert Drift(s2, id) == Drift(s1, id) == Drift(s, id);
    }
  }

  lemma SameLists(s: State, r: State)
    requires Lists(s) && Shape(r) && r.tcbs == s.tcbs && r.lists == s.lists
    ensures Lists(r) && SameDrift(s, r)
  {
    forall id | Known(id) ensures ListOk(r, id) { assert ListOk(s, id); }
  }

  lemma OneInv(s: State, r: State, t: nat)
    requires Inv(s) && Lists(r) && t < |s.tcbs| && Kept(s, r) && Others(s, r, t) && ThreadAt(r, t) && LoadsLe(s, r)
    ensures Inv(r)
  {
    ChainOne(s, r, t);
    LoadsFit(s, r);
    ChainInv(s, r);
  }

  /** References handed out and put back, the thread's own fields otherwise untouched. */
  lemma CountInv(s: State, t: nat, x: Tcb, gets: nat)
    requires Inv(s) && t < |s.tcbs| && x.link == s.tcbs[t].link
    requires BlockOk(t, x, gets, s.allocs[t])
    ensures Inv(SetTcb(s, t, x).(gets := s.gets[t := gets]))
  {
    var s1 := SetTcb(s, t, x);
    SetOk(s, t, x);
    var r := s1.(gets := s.gets[t := gets]);
    SameLists(s1, r);
    assert ThreadAt(s, t);
    forall id | Known(id) ensures Drift(r, id) == Drift(s, id) { assert Drift(s1, id) == Drift(s, id); }
    OneInv(s, r, t);
  }

  lemma GetInv(s: State, t: nat)
    requires Inv(s)
    ensures var r := GetTcb(s, t);
            && Inv(r) && (r == s <==> t >= |s.tcbs| || s.tcbs[t].state == NotAlloc)
            && (r != s ==> Others(s, r, t) && r.tcbs[t] == s.tcbs[t].(refc := s.tcbs[t].refc + 1)
                           && r.gets == s.gets[t := s.gets[t] + 1])
  {
    if Gettable(s, t) {
      assert ThreadAt(s, t);
      CountInv(s, t, s.tcbs[t].(refc := s.tcbs[t].refc + 1), s.gets[t] + 1);
    }
  }

  /** put_tcb by a holder never reaches its debug_halt; it frees the block exactly when the
      thread has exited and this was the last reference. */
  lemma PutInv(s: State, c: nat, t: nat, won: bool)
    requires Inv(s) && c < 288 && t < |s.tcbs| && s.gets[t] > 0
    ensures var r := PutTcb(s, c, t, won);
            && Inv(r) && Others(s, r, t) && (OnFree(r.tcbs[t]) <==> s.tcbs[t].state == Exited && s.gets[t] == 1)
            && (OnFree(r.tcbs[t]) || r.tcbs[t] == s.tcbs[t].(refc := s.tcbs[t].refc - 1))
  {
    assert ThreadAt(s, t);
    var x := s.tcbs[t].(refc := s.tcbs[t].refc - 1);
    var s0 := s.(gets := s.gets[t := s.gets[t] - 1]);
    if x.refc == 0 {
      assert s.tcbs[t].state == Exited && s.gets[t] == 1;
      SameLists(s, s0);
      DropOk(s0, c, t, won);
      PutLast(s, s0, PutTcb(s, c, t, won), t);
    } else {
      CountInv(s, t, x, s.gets[t] - 1);
      assert PutTcb(s, c, t, won) == SetTcb(s, t, x).(gets := s.gets[t := s.gets[t] - 1]);
    }
  }

  lemma PutLast(s: State, s0: State, r: State, t: nat)
    requires Inv(s) && 288 <= t < |s.tcbs| && s.gets[t] == 1 && s.tcbs[t].refc == 1 && s.tcbs[t].state == Exited
    requires s0 == s.(gets := s.gets[t := 0]) && Shape(s0) && SameDrift(s, s0)
    requires Shape(r) && Dropped(s0, r, t)
    ensures Inv(r) && Others(s, r, t) && OnFree(r.tcbs[t])
  {
    assert ThreadAt(s, t);
    LeaveKept(s, s0, r);
    forall c: nat | c < 288 ensures Load(r, c) <= Load(s, c) {
      assert Known(RunnableOn(c)) && Known(BlockedOn(c));
    }
    OneInv(s, r, t);
  }

  /** Between its get and its put, a request to a thread changes the intention and nothing else. */
  lemma AskIs(s: State, c: nat, t: nat, intent: Intention, won: bool)
    requires Inv(s) && c < 288 && Gettable(s, t)
    ensures Ask(s, c, t, intent, won) == WithIntent(s, t, intent)
  {
    assert ThreadAt(s, t);
    var s2 := WithIntent(GetTcb(s, t), t, intent);
    assert s2.tcbs[t] == s.tcbs[t].(refc := s.tcbs[t].refc + 1, intent := intent);
    var r := PutTcb(s2, c, t, won);
    assert r.tcbs == s.tcbs[t := s.tcbs[t].(intent := intent)];
    assert r.gets == s.gets;
  }

  lemma AskInv(s: State, c: nat, t: nat, intent: Intention, won: bool)
    requires Inv(s) && c < 288 && Gettable(s, t)
    ensures Inv(Ask(s, c, t, intent, won))
  {
    AskIs(s, c, t, intent, won);
    var x := s.tcbs[t].(intent := intent);
    SetChain(s, t, x);
    LoadsFit(s, SetTcb(s, t, x));
    ChainInv(s, SetTcb(s, t, x));
  }

  lemma LaunchOk(s: State, t: nat, core: int)
    requires Lists(s) && t < |s.tcbs| && s.tcbs[t].link == Off
    ensures var r := Launch(s, t, core);
            && Lists(r) && SameDrift(s, r)
            && r == s.(lists := r.lists, tcbs := r.tcbs)
            && r.tcbs == s.tcbs[t := Launched(s.tcbs[t], core).(link := On(Migrating))]
            && LoadsLe(s, r)
  {
    SetOk(s, t, Launched(s.tcbs[t], core));
    var s1 := SetTcb(s, t, Launched(s.tcbs[t], core));
    GiveOk(s1, t, Migrating);
    var r := Launch(s, t, core);
    forall id | Known(id) ensures Drift(r, id) == Drift(s, id) { assert Drift(r, id) == Drift(s1, id); }
    forall c: nat | c < 288 ensures Load(r, c) <= Load(s, c) {
      assert Known(RunnableOn(c)) && Known(BlockedOn(c));
    }
  }

  lemma GiveIs(s: State, t: nat, id: ListId)
    requires Shape(s) && t < |s.tcbs| && Known(id)
    ensures Give(s, t, id) == s.(tcbs := s.tcbs[t := s.tcbs[t].(link := On(id))],
                                 lists := s.lists[id := CountedList(s.lists[id].items + [t], s.lists[id].count + 1)])
  {
    assert s.lists[id := s.lists[id].(items := s.lists[id].items + [t])]
                  [id := CountedList(s.lists[id].items + [t], s.lists[id].count + 1)]
        == s.lists[id := CountedList(s.lists[id].items + [t], s.lists[id].count + 1)];
  }

  lemma LaunchIs(s: State, t: nat, core: int)
    requires Shape(s) && t < |s.tcbs|
    ensures Launch(s, t, core) ==
            s.(tcbs := s.tcbs[t := Launched(s.tcbs[t], core).(link := On(Migrating))],
               lists := s.lists[Migrating := CountedList(s.lists[Migrating].items + [t], s.lists[Migrating].count + 1)])
  {
    GiveIs(SetTcb(s, t, Launched(s.tcbs[t], core)), t, Migrating);
  }

  /** The order in which create_thread sets the fields. */
  lemma LaunchSteps(s: State, t: nat, core: int)
    requires Shape(s) && t < |s.tcbs|
    ensures var s1 := SetTcb(s, t, s.tcbs[t].(slice := 10, runningCore := core, forbidden := Mask(core)));
            var s2 := Give(s1, t, Migrating);
            SetTcb(s2, t, s2.tcbs[t].(state := Ready)) == Launch(s, t, core)
  {
    var s1 := SetTcb(s, t, s.tcbs[t].(slice := 10, runningCore := core, forbidden := Mask(core)));
    GiveIs(s1, t, Migrating);
    LaunchIs(s, t, core);
  }

  lemma LaunchRef(s: State, t: nat, core: int)
    requires Shape(s) && t < |s.tcbs| && s.tcbs[t].state == Created
    ensures Launch(GetTcb(s, t), t, core) ==
            s.(tcbs := s.tcbs[t := Launched(s.tcbs[t], core).(link := On(Migrating), refc := s.tcbs[t].refc + 1)],
               lists := s.lists[Migrating := CountedList(s.lists[Migrating].items + [t], s.lists[Migrating].count + 1)],
               gets := s.gets[t := s.gets[t] + 1])
  {
    LaunchIs(GetTcb(s, t), t, core);
  }

  lemma PutIs(s: State, r: State, c: nat, t: nat, won: bool)
    requires Shape(s) && c < 288 && t < |s.tcbs| && s.gets[t] > 0 && s.tcbs[t].refc > 1
    requires r.tcbs == s.tcbs[t := s.tcbs[t].(refc := s.tcbs[t].refc - 1)] && r.gets == s.gets[t := s.gets[t] - 1]
    requires r == s.(tcbs := r.tcbs, gets := r.gets)
    ensures PutTcb(s, c, t, won) == r
  {
  }

  /** The get and the put of create_thread cancel out. */
  lemma CreateIs(s: State, c: nat, t: nat, core: int, won: bool)
    requires Shape(s) && c < 288 && t < |s.tcbs| && s.tcbs[t].refc == 1 && s.tcbs[t].state == Created
    ensures PutTcb(Launch(GetTcb(s, t), t, core), c, t, won) == Launch(s, t, core)
  {
    LaunchIs(s, t, core);
    LaunchRef(s, t, core);
    PutIs(Launch(GetTcb(s, t), t, core), Launch(s, t, core), c, t, won);
  }

  /** create_thread halts exactly when no block is free; otherwise one free block becomes a ready
      thread on the migrating list whose only reference is its own. */
  lemma CreateInv(s: State, c: nat, core: int, won: bool)
    requires Inv(s) && c < 288
    ensures var r := Create(s, c, core, won);
            var found := Alloc(s, c).1;
            && (if HasFree(s, c) then found.Some? && Inv(r) else r.halted)
            && (found.Some? ==>
                  var t := found.value;
                  && t == FirstFree(s, c) && Others(s, r, t) && OnFree(s.tcbs[t]) && s.tcbs[t].state == NotAlloc
                  && r.tcbs[t] == Tcb(Ready, Intention(false, false, false), 1, On(Migrating), 10, core,
                                      r.tcbs[t].forbidden, s.tcbs[t].gen)
                  && (forall d: nat :: d < 288 ==> (d in r.tcbs[t].forbidden <==> core != -1 && d != core))
                  && r.gets[t] == 0 && r.allocs[t] == s.allocs[t] + 1)
  {
    AllocOk(s, c);
    var (s1, found) := Alloc(s, c);
    if found.Some? {
      assert ThreadAt(s, found.value);
      CreateTail(s, s1, c, found.value, core, won);
    }
  }

  lemma CreateTail(s: State, s1: State, c: nat, t: nat, core: int, won: bool)
    requires Inv(s) && Lists(s1) && c < 288 && 288 <= t < |s.tcbs|
    requires SameDrift(s, s1) && Others(s, s1, t) && Fewer(s, s1, Migrating, 0)
    requires s1.gets[t] == 0 && s1.allocs[t] == s1.tcbs[t].gen + 1 && s1.tcbs[t] == Fresh(s1.tcbs[t])
    ensures var r := PutTcb(Launch(GetTcb(s1, t), t, core), c, t, won);
            && Inv(r) && Others(s, r, t) && r.gets[t] == 0 && r.allocs[t] == s1.allocs[t]
            && r.tcbs[t] == Launched(s1.tcbs[t], core).(link := On(Migrating))
  {
    LaunchTail(s, s1, t, core);
    CreateIs(s1, c, t, core, won);
  }

  lemma LaunchTail(s: State, s1: State, t: nat, core: int)
    requires Inv(s) && Lists(s1) && 288 <= t < |s.tcbs|
    requires SameDrift(s, s1) && Others(s, s1, t) && Fewer(s, s1, Migrating, 0)
    requires s1.gets[t] == 0 && s1.allocs[t] == s1.tcbs[t].gen + 1 && s1.tcbs[t] == Fresh(s1.tcbs[t])
    ensures var r := Launch(s1, t, core);
            && Inv(r) && Others(s, r, t) && r.gets[t] == 0 && r.allocs[t] == s1.allocs[t]
            && r.tcbs[t] == Launched(s1.tcbs[t], core).(link := On(Migrating))
  {
    LaunchOk(s1, t, core);
    CreateFrame(s, s1, Launch(s1, t, core), t);
  }

  lemma CreateFrame(s: State, s1: State, r: State, t: nat)
    requires Inv(s) && Lists(s1) && Lists(r) && 288 <= t < |s.tcbs|
    requires SameDrift(s, s1) && SameDrift(s1, r) && Others(s, s1, t) && Fewer(s, s1, Migrating, 0)
    requires LoadsLe(s1, r) && r == s1.(lists := r.lists, tcbs := r.tcbs)
    requires r.tcbs == s1.tcbs[t := r.tcbs[t]] && ThreadAt(r, t)
    ensures Inv(r) && Others(s, r, t)
  {
    forall id | Known(id) ensures Drift(r, id) == Drift(s, id) { assert Drift(s1, id) == Drift(s, id); }
    forall c: nat | c < 288 ensures Load(r, c) <= Load(s, c) {
      assert Load(r, c) <= Load(s1, c);
      assert Known(RunnableOn(c)) && Known(BlockedOn(c));
    }
    forall u: nat | u < |s.tcbs| && u != t
      ensures Close(s.tcbs[u], r.tcbs[u]) && r.gets[u] == s.gets[u] && r.allocs[u] == s.allocs[u]
    {
      assert Close(s.tcbs[u], s1.tcbs[u]);
    }
    OneInv(s, r, t);
  }
}
