/** The invariant of the scheduler, operation by operation. */
module SchedSteps {
  import opened Options
  import opened Seqs
  import opened SchedSpec
  import opened SchedInv

  /** At most 2048 runnable and blocked threads per core. */
  ghost predicate Fits(s: State)
    requires Shape(s)
  {
    forall c: nat {:trigger Load(s, c)} :: c < 288 ==> Load(s, c) <= 2048
  }

  ghost predicate Counts(s: State)
    requires Shape(s)
  {
    forall id {:trigger Drift(s, id)} :: Known(id) ==> Drift(s, id) == 0
  }

  ghost predicate Inv(s: State) {
    Lists(s) && Counts(s) && Threads(s) && Fits(s) && !s.halted
  }

  ghost predicate LoadsLe(s: State, r: State)
    requires Shape(s) && Shape(r)
  {
    forall c: nat {:trigger Load(r, c)} :: c < 288 ==> Load(r, c) <= Load(s, c)
  }

  /** r follows from s by list moves that keep every list consistent. */
  ghost predicate Chain(s: State, r: State)
    requires Shape(s) && Shape(r)
  {
    && Lists(r) && Kept(s, r) && |r.tcbs| == |s.tcbs| && r.running == s.running && r.halted == s.halted
    && (Threads(s) ==> Threads(r))
  }

  lemma ChainTrans(s: State, s1: State, r: State)
    requires Shape(s) && Shape(s1) && Shape(r) && Chain(s, s1) && Chain(s1, r)
    ensures Chain(s, r)
  {
    forall id | Known(id) && !IsFree(id) ensures Drift(r, id) == Drift(s, id) {
      assert Drift(s1, id) == Drift(s, id);
    }
  }

  lemma LoadsTrans(s: State, s1: State, r: State)
    requires Shape(s) && Shape(s1) && Shape(r) && LoadsLe(s, s1) && LoadsLe(s1, r)
    ensures LoadsLe(s, r)
  {
    forall c: nat | c < 288 ensures Load(r, c) <= Load(s, c) {
      assert Load(s1, c) <= Load(s, c);
    }
  }

  lemma ChainInv(s: State, r: State)
    requires Inv(s) && Shape(r) && Chain(s, r) && Fits(r)
    ensures Inv(r)
  {
    forall id | Known(id) ensures Drift(r, id) == 0 {
      assert Drift(s, id) == 0;
      assert FreeEven(s);
    }
  }

  lemma LoadsFit(s: State, r: State)
    requires Shape(s) && Shape(r) && Fits(s) && LoadsLe(s, r)
    ensures Fits(r)
  {
    forall c: nat | c < 288 ensures Load(r, c) <= 2048 {
      assert Load(s, c) <= 2048;
    }
  }

  /** A step that changes block t only is a link of a chain when it keeps that block consistent. */
  lemma ChainOne(s: State, r: State, t: nat)
    requires Shape(s) && Lists(r) && t < |s.tcbs| && Kept(s, r) && Others(s, r, t)
    requires ThreadAt(s, t) ==> ThreadAt(r, t)
    ensures Chain(s, r)
  {
    if Threads(s) {
      assert ThreadAt(s, t);
      ThreadsFrame(s, r, t);
    }
  }

  lemma SameKept(s: State, r: State)
    requires Shape(s) && Shape(r) && SameDrift(s, r)
    ensures Kept(s, r)
  {
  }

  /** Field updates that leave link, state and reference count alone. */
  lemma SetChain(s: State, t: nat, x: Tcb)
    requires Lists(s) && t < |s.tcbs| && x.link == s.tcbs[t].link && x.refc == s.tcbs[t].refc && x.gen == s.tcbs[t].gen
    requires x.state == s.tcbs[t].state || (Live(x.state) && Live(s.tcbs[t].state))
    ensures Chain(s, SetTcb(s, t, x)) && LoadsLe(s, SetTcb(s, t, x))
  {
    var r := SetTcb(s, t, x);
    SetOk(s, t, x);
    SameKept(s, r);
    ChainOne(s, r, t);
  }

  /** Moving block t between two scheduler lists. */
  lemma MoveChain(s: State, t: nat, a: ListId, b: ListId, x: Tcb)
    requires Lists(s) && t < |s.tcbs| && Known(a) && Known(b) && !IsFree(a) && !IsFree(b)
    requires s.tcbs[t].link == On(a) && x.link == Off
    requires x.refc == s.tcbs[t].refc && x.gen == s.tcbs[t].gen
    requires x.state == s.tcbs[t].state || Live(x.state)
    ensures var r := Give(SetTcb(Take(s, t, a), t, x), t, b);
            Chain(s, r) && Moved(s, r, a, b) && Others(s, r, t) && r.tcbs[t] == x.(link := On(b))
  {
    MoveOk(s, t, a, b, x);
    var r := Give(SetTcb(Take(s, t, a), t, x), t, b);
    SameKept(s, r);
    ChainOne(s, r, t);
  }

  lemma LeaveChain(s: State, c: nat, t: nat, id: ListId, won: bool)
    requires Lists(s) && c < 288 && t < |s.tcbs| && Known(id) && !IsFree(id) && s.tcbs[t].link == On(id)
    ensures var r := Leave(s, c, t, id, won); Chain(s, r) && LoadsLe(s, r) && Others(s, r, t)
  {
    LeaveOk(s, c, t, id, won);
    LeftChain(s, Leave(s, c, t, id, won), t, id);
  }

  lemma LeftChain(s: State, r: State, t: nat, id: ListId)
    requires Shape(s) && Shape(r) && t < |s.tcbs| && Known(id) && !IsFree(id) && Left(s, r, t, id)
    ensures Chain(s, r) && LoadsLe(s, r)
  {
    ChainOne(s, r, t);
    forall c: nat | c < 288 ensures Load(r, c) <= Load(s, c) {
      assert Known(RunnableOn(c)) && Known(BlockedOn(c));
    }
  }

  lemma MovedLoads(s: State, r: State, a: ListId, b: ListId, c: nat)
    requires Shape(s) && Shape(r) && Moved(s, r, a, b) && c < 288
    requires (a == RunnableOn(c) && b == BlockedOn(c)) || (a == BlockedOn(c) && b == RunnableOn(c))
          || (a == RunnableOn(c) && b == Migrating)
    ensures LoadsLe(s, r)
  {
    forall d: nat | d < 288 ensures Load(r, d) <= Load(s, d) {
      assert Known(RunnableOn(d)) && Known(BlockedOn(d));
    }
  }

  lemma BlockChain(s: State, c: nat, t: nat)
    requires Lists(s) && c < 288 && t < |s.tcbs| && s.tcbs[t].link == On(RunnableOn(c))
    ensures var r := Block(s, c, t);
            && Chain(s, r) && LoadsLe(s, r) && Others(s, r, t)
            && r.tcbs[t] == s.tcbs[t].(state := Blocked, intent := s.tcbs[t].intent.(blocked := false),
                                       link := On(BlockedOn(c)))
  {
    TakeOk(s, t, RunnableOn(c));
    var x := Take(s, t, RunnableOn(c)).tcbs[t];
    var y := x.(state := Blocked, intent := x.intent.(blocked := false));
    MoveChain(s, t, RunnableOn(c), BlockedOn(c), y);
    MovedLoads(s, Block(s, c, t), RunnableOn(c), BlockedOn(c), c);
  }

  lemma UnblockChain(s: State, c: nat, t: nat)
    requires Lists(s) && c < 288 && t < |s.tcbs| && s.tcbs[t].link == On(BlockedOn(c))
    ensures var r := Unblock(s, c, t); Chain(s, r) && LoadsLe(s, r) && Others(s, r, t)
    ensures Unblock(s, c, t).tcbs[t] == s.tcbs[t].(state := Ready, link := On(RunnableOn(c)),
                                                   intent := s.tcbs[t].intent.(ready := false, blocked := false))
  {
    TakeOk(s, t, BlockedOn(c));
    var x := Take(s, t, BlockedOn(c)).tcbs[t];
    var y := x.(state := Ready, intent := x.intent.(ready := false, blocked := false));
    MoveChain(s, t, BlockedOn(c), RunnableOn(c), y);
    MovedLoads(s, Unblock(s, c, t), BlockedOn(c), RunnableOn(c), c);
  }

  lemma MigrateChain(s: State, c: nat, t: nat)
    requires Lists(s) && c < 288 && t < |s.tcbs| && s.tcbs[t].link == On(RunnableOn(c))
    ensures var r := Give(Take(s, t, RunnableOn(c)), t, Migrating);
            && Chain(s, r) && LoadsLe(s, r) && Others(s, r, t)
            && r.tcbs[t] == s.tcbs[t].(link := On(Migrating))
  {
    TakeOk(s, t, RunnableOn(c));
    var s1 := Take(s, t, RunnableOn(c));
    assert SetTcb(s1, t, s1.tcbs[t]) == s1;
    MoveChain(s, t, RunnableOn(c), Migrating, s1.tcbs[t]);
    MovedLoads(s, Give(s1, t, Migrating), RunnableOn(c), Migrating, c);
  }

  // ----- select_next_thread

  lemma VisitChain(s: State, c: nat, t: nat, found: Option<nat>, luck: Luck)
    requires Lists(s) && c < 288 && t < |s.tcbs| && s.tcbs[t].link == On(RunnableOn(c))
    ensures var r := Visit(s, c, t, found, luck).0; Chain(s, r) && LoadsLe(s, r) && Others(s, r, t)
  {
    var x := s.tcbs[t];
    if x.intent.exited {
      LeaveChain(s, c, t, RunnableOn(c), luck.free(t));
    } else if x.intent.blocked {
      BlockChain(s, c, t);
    } else if Available(x) && c !in x.forbidden {
      if found.None? { SetChain(s, t, x.(state := Running)); } else { ChainRefl(s); }
    } else if Available(x) && luck.migrating(t) {
      MigrateChain(s, c, t);
    } else {
      ChainRefl(s);
    }
  }

  lemma ChainRefl(s: State)
    requires Lists(s)
    ensures Chain(s, s) && LoadsLe(s, s)
  {
  }

  /** The threads still to be visited are on list id, each once. */
  ghost predicate Ahead(s: State, items: seq<nat>, id: ListId) {
    NoDup(items) && forall i :: 0 <= i < |items| ==> items[i] < |s.tcbs| && s.tcbs[items[i]].link == On(id)
  }

  lemma AheadNext(s: State, r: State, items: seq<nat>, id: ListId)
    requires Shape(s) && Shape(r) && items != [] && Ahead(s, items, id) && !IsFree(id) && Others(s, r, items[0])
    ensures Ahead(r, items[1..], id)
  {
    forall i | 0 <= i < |items| - 1 ensures r.tcbs[items[1..][i]].link == On(id) {
      assert items[i + 1] != items[0];
    }
  }

  lemma {:induction false} PassChain(s: State, c: nat, items: seq<nat>, found: Option<nat>, luck: Luck)
    requires Lists(s) && c < 288 && Ahead(s, items, RunnableOn(c)) && (found.Some? ==> found.value < |s.tcbs|)
    ensures var r := Pass(s, c, items, found, luck).0; Chain(s, r) && LoadsLe(s, r)
    decreases |items|
  {
    if items == [] || (s.tcbs[items[0]].intent.exited && s.running[c] == items[0]) {
      ChainRefl(s);
    } else {
      VisitChain(s, c, items[0], found, luck);
      var (s1, found1) := Visit(s, c, items[0], found, luck);
      AheadNext(s, s1, items, RunnableOn(c));
      PassChain(s1, c, items[1..], found1, luck);
      var r := Pass(s1, c, items[1..], found1, luck).0;
      ChainTrans(s, s1, r);
      LoadsTrans(s, s1, r);
    }
  }

  lemma ListAhead(s: State, id: ListId)
    requires Lists(s) && Known(id)
    ensures Ahead(s, s.lists[id].items, id)
  {
    assert ListOk(s, id);
    var items := s.lists[id].items;
    forall i | 0 <= i < |items| ensures items[i] < |s.tcbs| && s.tcbs[items[i]].link == On(id) {
      assert items[i] in items;
    }
  }

  /** A refill gives ten ticks to each ready thread of the list that has none left, and to no other. */
  lemma {:induction false} RefillAllChain(s: State, items: seq<nat>, id: ListId)
    requires Lists(s) && Ahead(s, items, id)
    ensures var r := RefillAll(s, items);
            && Chain(s, r) && LoadsLe(s, r) && r.lists == s.lists
            && (forall t: nat {:trigger r.tcbs[t]} :: t < |s.tcbs| ==>
                  r.tcbs[t] == if t in items && Starved(s.tcbs[t]) then s.tcbs[t].(slice := 10) else s.tcbs[t])
    decreases |items|
  {
    if items == [] {
      ChainRefl(s);
    } else {
      var t := items[0];
      var s1 := if Starved(s.tcbs[t]) then Refill(s, t) else s;
      SetChain(s, t, s1.tcbs[t]);
      assert s1 == SetTcb(s, t, s1.tcbs[t]);
      RefillAllChain(s1, items[1..], id);
      var r := RefillAll(s1, items[1..]);
      ChainTrans(s, s1, r);
      LoadsTrans(s, s1, r);
      assert forall u: nat :: u in items <==> u == t || u in items[1..];
      assert t !in items[1..];
    }
  }

  /** No ready thread on core c's runnable list has used up its slice. */
  ghost predicate Fed(s: State, c: nat) {
    forall t: nat :: t < |s.tcbs| && s.tcbs[t].link == On(RunnableOn(c)) ==> !Starved(s.tcbs[t])
  }

  lemma VisitFed(s: State, c: nat, t: nat, found: Option<nat>, luck: Luck)
    requires Lists(s) && c < 288 && t < |s.tcbs| && s.tcbs[t].link == On(RunnableOn(c)) && Fed(s, c)
    ensures Fed(Visit(s, c, t, found, luck).0, c)
  {
    VisitChain(s, c, t, found, luck);
    VisitSelf(s, c, t, found, luck);
    FedFrame(s, Visit(s, c, t, found, luck).0, c, t);
  }

  lemma FedFrame(s: State, r: State, c: nat, t: nat)
    requires Shape(s) && Shape(r) && t < |s.tcbs| && Others(s, r, t) && Fed(s, c)
    requires r.tcbs[t].link == On(RunnableOn(c)) ==> !Starved(r.tcbs[t])
    ensures Fed(r, c)
  {
    forall u: nat | u < |r.tcbs| && r.tcbs[u].link == On(RunnableOn(c)) ensures !Starved(r.tcbs[u]) {
      if u != t { assert Close(s.tcbs[u], r.tcbs[u]); }
    }
  }

  lemma VisitSelf(s: State, c: nat, t: nat, found: Option<nat>, luck: Luck)
    requires Lists(s) && c < 288 && t < |s.tcbs| && s.tcbs[t].link == On(RunnableOn(c)) && !Starved(s.tcbs[t])
    ensures var x := Visit(s, c, t, found, luck).0.tcbs[t]; x.link == On(RunnableOn(c)) ==> !Starved(x)
  {
    var x := s.tcbs[t];
    if x.intent.exited {
      LeaveOff(s, c, t, RunnableOn(c), luck.free(t));
    } else if x.intent.blocked {
      BlockChain(s, c, t);
    } else if Available(x) && c !in x.forbidden {
    } else if Available(x) && luck.migrating(t) {
      MigrateChain(s, c, t);
    }
  }

  lemma LeaveOff(s: State, c: nat, t: nat, id: ListId, won: bool)
    requires Lists(s) && c < 288 && t < |s.tcbs| && Known(id) && !IsFree(id) && s.tcbs[t].link == On(id)
    ensures var x := Leave(s, c, t, id, won).tcbs[t]; (x.link == Off || OnFree(x)) && x.forbidden == s.tcbs[t].forbidden
  {
    var s2 := UnlinkExited(s, t, id);
    DropOk(s2, c, t, won);
  }

  lemma {:induction false} PassFed(s: State, c: nat, items: seq<nat>, found: Option<nat>, luck: Luck)
    requires Lists(s) && c < 288 && Ahead(s, items, RunnableOn(c)) && (found.Some? ==> found.value < |s.tcbs|)
    requires Fed(s, c)
    ensures Fed(Pass(s, c, items, found, luck).0, c)
    decreases |items|
  {
    if items != [] && !(s.tcbs[items[0]].intent.exited && s.running[c] == items[0]) {
      VisitChain(s, c, items[0], found, luck);
      VisitFed(s, c, items[0], found, luck);
      var (s1, found1) := Visit(s, c, items[0], found, luck);
      AheadNext(s, s1, items, RunnableOn(c));
      PassFed(s1, c, items[1..], found1, luck);
    }
  }

  /** A thread that core c may run now: ready, with time left, and not asked to block or exit. */
  predicate Pickable(x: Tcb, c: nat) {
    Available(x) && c !in x.forbidden && !x.intent.blocked && !x.intent.exited
  }

  ghost predicate FirstPick(s: State, c: nat, items: seq<nat>, k: nat)
    requires IdsBelow(items, |s.tcbs|)
  {
    && k <= |items| && (k < |items| ==> Pickable(s.tcbs[items[k]], c))
    && forall j :: 0 <= j < k ==> !Pickable(s.tcbs[items[j]], c)
  }

  /** A traversal that is not cut short chooses the first thread in list order that the core may
      run, and none if there is none. */
  lemma {:induction false} PassPicks(s: State, c: nat, items: seq<nat>, found: Option<nat>, luck: Luck)
    returns (k: nat)
    requires Lists(s) && c < 288 && Ahead(s, items, RunnableOn(c)) && (found.Some? ==> found.value < |s.tcbs|)
    requires !Pass(s, c, items, found, luck).2
    ensures FirstPick(s, c, items, k)
    ensures var chosen := Pass(s, c, items, found, luck).1;
            chosen == if found.Some? then found else if k < |items| then Some(items[k]) else None
    decreases |items|
  {
    k := 0;
    if items != [] {
      var t := items[0];
      var s1, found1 := VisitPicks(s, c, items, found, luck);
      var m := PassPicks(s1, c, items[1..], found1, luck);
      k := if Pickable(s.tcbs[t], c) then 0 else m + 1;
      PickShift(s, s1, c, items, m);
    }
  }

  lemma VisitPicks(s: State, c: nat, items: seq<nat>, found: Option<nat>, luck: Luck)
    returns (s1: State, found1: Option<nat>)
    requires Lists(s) && c < 288 && items != [] && Ahead(s, items, RunnableOn(c))
    ensures (s1, found1) == Visit(s, c, items[0], found, luck)
    ensures Lists(s1) && Others(s, s1, items[0]) && Ahead(s1, items[1..], RunnableOn(c))
    ensures found1 == if found.None? && Pickable(s.tcbs[items[0]], c) then Some(items[0]) else found
  {
    VisitChain(s, c, items[0], found, luck);
    s1, found1 := Visit(s, c, items[0], found, luck).0, Visit(s, c, items[0], found, luck).1;
    AheadNext(s, s1, items, RunnableOn(c));
  }

  lemma VisitFacts(s: State, c: nat, t: nat, found: Option<nat>, luck: Luck)
    requires Lists(s) && c < 288 && t < |s.tcbs| && s.tcbs[t].link == On(RunnableOn(c))
    ensures var (r, found') := Visit(s, c, t, found, luck);
            && Chain(s, r) && LoadsLe(s, r) && Others(s, r, t)
            && found' == if found.None? && Pickable(s.tcbs[t], c) then Some(t) else found
  {
    VisitChain(s, c, t, found, luck);
  }

  lemma PickShift(s: State, s1: State, c: nat, items: seq<nat>, m: nat)
    requires Shape(s) && Shape(s1) && items != [] && Ahead(s, items, RunnableOn(c)) && Others(s, s1, items[0])
    requires IdsBelow(items, |s.tcbs|) && FirstPick(s1, c, items[1..], m)
    ensures !Pickable(s.tcbs[items[0]], c) ==> FirstPick(s, c, items, m + 1)
  {
    forall j | 0 < j < |items| ensures s1.tcbs[items[j]] == s.tcbs[items[j]] && items[1..][j - 1] == items[j] {
      assert Close(s.tcbs[items[j]], s1.tcbs[items[j]]);
    }
    forall j | 0 < j < m + 1 && j < |items| ensures !Pickable(s.tcbs[items[j]], c) {
      assert !Pickable(s1.tcbs[items[1..][j - 1]], c);
    }
  }

  /** The threads on core c's runnable list that are not ahead any more keep no request to block or exit. */
  ghost predicate Cleared(s: State, c: nat, items: seq<nat>) {
    forall t: nat :: t < |s.tcbs| && s.tcbs[t].link == On(RunnableOn(c)) && t !in items ==>
      !s.tcbs[t].intent.blocked && !s.tcbs[t].intent.exited
  }

  lemma ClearedNext(s: State, r: State, c: nat, items: seq<nat>)
    requires Shape(s) && Shape(r) && items != [] && items[0] < |s.tcbs| && Others(s, r, items[0])
    requires Cleared(s, c, items)
    requires var x := r.tcbs[items[0]]; x.link == On(RunnableOn(c)) ==> !x.intent.blocked && !x.intent.exited
    ensures Cleared(r, c, items[1..])
  {
    forall t: nat | t < |r.tcbs| && r.tcbs[t].link == On(RunnableOn(c)) && t !in items[1..]
      ensures !r.tcbs[t].intent.blocked && !r.tcbs[t].intent.exited
    {
      if t != items[0] {
        assert Close(s.tcbs[t], r.tcbs[t]);
        assert t !in items;
      }
    }
  }

  lemma VisitClears(s: State, c: nat, t: nat, found: Option<nat>, luck: Luck)
    requires Lists(s) && c < 288 && t < |s.tcbs| && s.tcbs[t].link == On(RunnableOn(c))
    ensures var x := Visit(s, c, t, found, luck).0.tcbs[t];
            x.link == On(RunnableOn(c)) ==> !x.intent.blocked && !x.intent.exited
  {
    var x := s.tcbs[t];
    if x.intent.exited {
      LeaveOff(s, c, t, RunnableOn(c), luck.free(t));
    } else if x.intent.blocked {
      BlockChain(s, c, t);
    } else if Available(x) && c !in x.forbidden {
    } else if Available(x) && luck.migrating(t) {
      MigrateChain(s, c, t);
    }
  }

  /** After a traversal that is not cut short, no thread left on the runnable list is asked to
      block or to exit. */
  lemma {:induction false} PassClears(s: State, c: nat, items: seq<nat>, found: Option<nat>, luck: Luck)
    requires Lists(s) && c < 288 && Ahead(s, items, RunnableOn(c)) && (found.Some? ==> found.value < |s.tcbs|)
    requires Cleared(s, c, items) && !Pass(s, c, items, found, luck).2
    ensures Cleared(Pass(s, c, items, found, luck).0, c, [])
    decreases |items|
  {
    if items != [] {
      var s1, found1 := VisitPicks(s, c, items, found, luck);
      VisitClears(s, c, items[0], found, luck);
      ClearedNext(s, s1, c, items);
      PassClears(s1, c, items[1..], found1, luck);
    }
  }

  lemma FedNoneStarved(s: State, c: nat)
    requires Lists(s) && c < 288 && Fed(s, c)
    ensures NoneStarved(s, s.lists[RunnableOn(c)].items)
  {
    ListAhead(s, RunnableOn(c));
  }

  lemma RefillChain(s: State, t: nat)
    requires Lists(s) && t < |s.tcbs|
    ensures Chain(s, Refill(s, t)) && LoadsLe(s, Refill(s, t))
  {
    if s.tcbs[t].slice <= 0 { SetChain(s, t, s.tcbs[t].(slice := 10)); } else { ChainRefl(s); }
  }

  lemma AttemptChain(s: State, c: nat, luck: Luck)
    requires Lists(s) && c < 288
    ensures var r := Attempt(s, c, luck).0; Chain(s, r) && LoadsLe(s, r)
  {
    ListAhead(s, RunnableOn(c));
    var items := s.lists[RunnableOn(c)].items;
    PassChain(s, c, items, None, luck);
    var s1 := Pass(s, c, items, None, luck).0;
    RefillChain(s1, c);
    ChainTrans(s, s1, Refill(s1, c));
    LoadsTrans(s, s1, Refill(s1, c));
  }

  /** After a refill and a second traversal there is nothing left to refill: the retry of
      select_next_thread happens at most once. */
  lemma RetryOnce(s: State, c: nat, luck: Luck)
    requires Lists(s) && c < 288
    ensures var (r, found) := Attempt(RefillAll(s, s.lists[RunnableOn(c)].items), c, luck);
            Lists(r) && (found.None? ==> NoneStarved(r, r.lists[RunnableOn(c)].items))
  {
    var items := s.lists[RunnableOn(c)].items;
    ListAhead(s, RunnableOn(c));
    RefillAllChain(s, items, RunnableOn(c));
    var s1 := RefillAll(s, items);
    assert ListOk(s, RunnableOn(c));
    AttemptChain(s1, c, luck);
    ListAhead(s1, RunnableOn(c));
    PassChain(s1, c, items, None, luck);
    PassFed(s1, c, items, None, luck);
    FedNoneStarved(Pass(s1, c, items, None, luck).0, c);
  }

  lemma AgainChain(s: State, c: nat, luck: Luck)
    requires Lists(s) && c < 288
    ensures var r := Attempt(RefillAll(s, s.lists[RunnableOn(c)].items), c, luck).0; Chain(s, r) && LoadsLe(s, r)
  {
    var items := s.lists[RunnableOn(c)].items;
    ListAhead(s, RunnableOn(c));
    RefillAllChain(s, items, RunnableOn(c));
    var s1 := RefillAll(s, items);
    AttemptChain(s1, c, luck);
    ChainTrans(s, s1, Attempt(s1, c, luck).0);
    LoadsTrans(s, s1, Attempt(s1, c, luck).0);
  }

  lemma SelectChain(s: State, c: nat, luck: Luck, again: Luck)
    requires Lists(s) && c < 288
    ensures var r := Select(s, c, luck, again).0; Chain(s, r) && LoadsLe(s, r)
  {
    AttemptChain(s, c, luck);
    var s1 := Attempt(s, c, luck).0;
    var items := s1.lists[RunnableOn(c)].items;
    if Attempt(s, c, luck).1.None? && !NoneStarved(s1, items) {
      AgainChain(s1, c, again);
      var s2 := Attempt(RefillAll(s1, items), c, again).0;
      ChainTrans(s, s1, s2);
      LoadsTrans(s, s1, s2);
    }
  }

  lemma ChargeChain(s: State, c: nat, intent: Intention, consumed: int)
    requires Lists(s) && c < 288
    ensures var r := Charge(s, c, intent, consumed); Chain(s, r) && LoadsLe(s, r)
  {
    var t := s.running[c];
    var x := s.tcbs[t];
    SetChain(s, t, x.(slice := x.slice - consumed, intent := Join(x.intent, intent)));
  }

  lemma ChooseChain(s: State, c: nat, intent: Intention, consumed: int, luck: Luck, again: Luck)
    requires Lists(s) && c < 288
    ensures var r := Choose(s, c, intent, consumed, luck, again).0; Chain(s, r) && LoadsLe(s, r)
  {
    var s1 := Charge(s, c, intent, consumed);
    ChargeChain(s, c, intent, consumed);
    SelectChain(s1, c, luck, again);
    var r := Select(s1, c, luck, again).0;
    ChainTrans(s, s1, r);
    LoadsTrans(s, s1, r);
  }

  lemma ChooseInv(s: State, c: nat, intent: Intention, consumed: int, luck: Luck, again: Luck)
    requires Inv(s) && c < 288
    ensures Inv(Choose(s, c, intent, consumed, luck, again).0)
  {
    ChooseChain(s, c, intent, consumed, luck, again);
    var r := Choose(s, c, intent, consumed, luck, again).0;
    LoadsFit(s, r);
    ChainInv(s, r);
  }

  // ----- post_context_switch

  /** Taking t off list id when it may be on any list: the counter of id goes down in any case. */
  lemma TakeDrift(s: State, t: nat, id: ListId)
    requires Lists(s) && t < |s.tcbs| && Known(id)
    ensures var r := Take(s, t, id);
            && Lists(r) && r == s.(lists := r.lists, tcbs := s.tcbs[t := s.tcbs[t].(link := Off)])
            && Drift(r, id) == Drift(s, id) - if s.tcbs[t].link == On(id) then 0 else 1
  {
    CountOk(s, id, -1);
    DetachOk(Count(s, id, -1), t);
  }

  lemma BlockDrift(s: State, c: nat, t: nat)
    requires Lists(s) && c < 288 && t < |s.tcbs|
    ensures var r := Block(s, c, t); var id := RunnableOn(c);
            && Lists(r)
            && Drift(r, id) == Drift(s, id) - if s.tcbs[t].link == On(id) then 0 else 1
  {
    TakeDrift(s, t, RunnableOn(c));
    var s1 := Take(s, t, RunnableOn(c));
    var x := s1.tcbs[t].(state := Blocked, intent := s1.tcbs[t].intent.(blocked := false));
    SetOk(s1, t, x);
    GiveOk(SetTcb(s1, t, x), t, BlockedOn(c));
    assert Drift(SetTcb(s1, t, x), RunnableOn(c)) == Drift(s1, RunnableOn(c));
  }

  lemma LeaveDrift(s: State, c: nat, t: nat, id: ListId, won: bool)
    requires Lists(s) && c < 288 && t < |s.tcbs| && Known(id) && !IsFree(id)
    ensures var r := Leave(s, c, t, id, won);
            && Lists(r)
            && Drift(r, id) == Drift(s, id) - if s.tcbs[t].link == On(id) then 0 else 1
  {
    var x := s.tcbs[t].(state := Exited, intent := s.tcbs[t].intent.(exited := false));
    SetOk(s, t, x);
    var s1 := SetTcb(s, t, x);
    TakeDrift(s1, t, id);
    DropOk(Take(s1, t, id), c, t, won);
    assert Drift(s1, id) == Drift(s, id);
    assert Drift(Leave(s, c, t, id, won), id) == Drift(Take(s1, t, id), id);
  }

  /** The previous thread is on this core's runnable list whenever the switch unlinks it from there. */
  predicate Safe(s: State, c: nat, p: nat)
    requires c < |s.running| && p < |s.tcbs|
  {
    var x := s.tcbs[p];
    || !Live(x.state) || x.intent.ready
    || (!x.intent.blocked && (!x.intent.exited || s.running[c] == p))
    || x.link == On(RunnableOn(c))
  }

  lemma PostPrevDrift(s: State, c: nat, p: nat, won: bool)
    requires Lists(s) && c < 288 && p < |s.tcbs|
    ensures var r := PostPrev(s, c, p, won); var id := RunnableOn(c);
            Lists(r) && Drift(r, id) == Drift(s, id) - if Safe(s, c, p) then 0 else 1
  {
    var x := s.tcbs[p];
    if x.state == Exited || x.state == NotAlloc {
    } else if x.intent.ready {
      SetChain(s, p, x.(state := Ready, intent := x.intent.(ready := false, blocked := false)));
    } else if x.intent.blocked {
      BlockDrift(s, c, p);
    } else if x.intent.exited && s.running[c] != p {
      LeaveDrift(s, c, p, RunnableOn(c), won);
    }
  }

  lemma PostPrevChain(s: State, c: nat, p: nat, won: bool)
    requires Lists(s) && c < 288 && p < |s.tcbs| && Safe(s, c, p)
    ensures var r := PostPrev(s, c, p, won); Chain(s, r) && LoadsLe(s, r)
  {
    var x := s.tcbs[p];
    if x.state == Exited || x.state == NotAlloc {
      ChainRefl(s);
    } else if x.intent.ready {
      SetChain(s, p, x.(state := Ready, intent := x.intent.(ready := false, blocked := false)));
    } else if x.intent.blocked {
      BlockChain(s, c, p);
    } else if x.intent.exited && s.running[c] != p {
      LeaveChain(s, c, p, RunnableOn(c), won);
    } else {
      ChainRefl(s);
    }
  }

  /** One thread more on core c, the same on every other core. */
  ghost predicate OneMore(s: State, r: State, c: nat)
    requires Shape(s) && Shape(r)
  {
    forall d: nat {:trigger Load(r, d)} :: d < 288 ==> Load(r, d) == Load(s, d) + if d == c then 1 else 0
  }

  lemma AdoptChain(s: State, c: nat, t: nat)
    requires Lists(s) && c < 288 && t < |s.tcbs| && s.tcbs[t].link == On(Migrating)
    ensures var r := Adopt(s, c, t); Chain(s, r) && OneMore(s, r, c) && Others(s, r, t)
    ensures Adopt(s, c, t).tcbs[t] == s.tcbs[t].(link := On(RunnableOn(c)), runningCore := c)
  {
    TakeOk(s, t, Migrating);
    var x := Take(s, t, Migrating).tcbs[t];
    MoveChain(s, t, Migrating, RunnableOn(c), x.(runningCore := c));
    var r := Adopt(s, c, t);
    forall d: nat | d < 288 ensures Load(r, d) == Load(s, d) + if d == c then 1 else 0 {
      assert Known(RunnableOn(d)) && Known(BlockedOn(d));
    }
  }

  /** Every core other than c keeps its load. */
  ghost predicate OnlyCore(s: State, r: State, c: nat)
    requires Shape(s) && Shape(r)
  {
    forall d: nat {:trigger Load(r, d)} :: d < 288 && d != c ==> Load(r, d) == Load(s, d)
  }

  lemma OnlyTrans(s: State, s1: State, r: State, c: nat)
    requires Shape(s) && Shape(s1) && Shape(r) && OnlyCore(s, s1, c) && OnlyCore(s1, r, c)
    ensures OnlyCore(s, r, c)
  {
    forall d: nat | d < 288 && d != c ensures Load(r, d) == Load(s, d) {
      assert Load(s1, d) == Load(s, d);
    }
  }

  lemma {:induction false} AdoptOwnChain(s: State, c: nat, items: seq<nat>)
    requires Lists(s) && c < 288 && Ahead(s, items, Migrating)
    ensures var (r, full) := AdoptOwn(s, c, items);
            && Chain(s, r) && OnlyCore(s, r, c)
            && (Load(s, c) < 2048 ==> Load(r, c) <= 2048 && (!full ==> Load(r, c) < 2048))
    decreases |items|
  {
    if items == [] {
      ChainRefl(s);
    } else {
      var s1 := AdoptOwnStep(s, c, items);
      if Load(s1, c) != 2048 {
        AdoptOwnChain(s1, c, items[1..]);
        var r := AdoptOwn(s1, c, items[1..]).0;
        ChainTrans(s, s1, r);
        OnlyTrans(s, s1, r, c);
      }
    }
  }

  lemma AdoptOwnStep(s: State, c: nat, items: seq<nat>) returns (s1: State)
    requires Lists(s) && c < 288 && items != [] && Ahead(s, items, Migrating)
    ensures s1 == if s.tcbs[items[0]].runningCore == c then Adopt(s, c, items[0]) else s
    ensures Shape(s1) && Chain(s, s1) && OnlyCore(s, s1, c) && Load(s1, c) <= Load(s, c) + 1
    ensures Ahead(s1, items[1..], Migrating)
  {
    if s.tcbs[items[0]].runningCore == c {
      AdoptChain(s, c, items[0]);
      s1 := Adopt(s, c, items[0]);
      assert Load(s1, c) == Load(s, c) + 1;
      AheadNext(s, s1, items, Migrating);
    } else {
      s1 := s;
      ChainRefl(s);
      AheadNext(s, s, items, Migrating);
    }
  }

  lemma {:induction false} AdoptOneChain(s: State, c: nat, items: seq<nat>)
    requires Lists(s) && c < 288 && Ahead(s, items, Migrating)
    ensures var r := AdoptOne(s, c, items);
            && Chain(s, r) && OnlyCore(s, r, c) && Load(r, c) <= Load(s, c) + 1
    decreases |items|
  {
    if items == [] {
      ChainRefl(s);
    } else if c !in s.tcbs[items[0]].forbidden {
      AdoptChain(s, c, items[0]);
      assert Load(Adopt(s, c, items[0]), c) == Load(s, c) + 1;
    } else if Load(s, c) == 2048 {
      ChainRefl(s);
    } else {
      AdoptOneChain(s, c, items[1..]);
    }
  }

  lemma PullChain(s: State, c: nat, won: bool)
    requires Lists(s) && c < 288
    ensures var r := Pull(s, c, won); Chain(s, r) && OnlyCore(s, r, c) && (Load(s, c) <= 2048 ==> Load(r, c) <= 2048)
  {
    if Load(s, c) < 2048 && s.lists[Migrating].count != 0 && won {
      var items := s.lists[Migrating].items;
      ListAhead(s, Migrating);
      AdoptOwnChain(s, c, items);
      var (s1, full) := AdoptOwn(s, c, items);
      if !full {
        ListAhead(s1, Migrating);
        AdoptOneChain(s1, c, s1.lists[Migrating].items);
        var r := AdoptOne(s1, c, s1.lists[Migrating].items);
        ChainTrans(s, s1, r);
        OnlyTrans(s, s1, r, c);
      }
    } else {
      ChainRefl(s);
    }
  }

  lemma PullFits(s: State, c: nat, won: bool)
    requires Lists(s) && c < 288 && Fits(s)
    ensures Fits(Pull(s, c, won))
  {
    PullChain(s, c, won);
    var r := Pull(s, c, won);
    assert Load(s, c) <= 2048;
    forall d: nat | d < 288 ensures Load(r, d) <= 2048 {
      assert Load(s, d) <= 2048;
    }
  }

  lemma WakeOneChain(s: State, c: nat, t: nat, luck: Luck)
    requires Lists(s) && c < 288 && t < |s.tcbs| && s.tcbs[t].link == On(BlockedOn(c))
    ensures var r := WakeOne(s, c, t, luck); Chain(s, r) && LoadsLe(s, r) && Others(s, r, t)
  {
    var x := s.tcbs[t];
    if x.intent.exited {
      if s.running[c] == t { ChainRefl(s); } else { LeaveChain(s, c, t, BlockedOn(c), luck.free(t)); }
    } else if x.intent.ready {
      UnblockChain(s, c, t);
    } else {
      ChainRefl(s);
    }
  }

  lemma {:induction false} WakeAllChain(s: State, c: nat, items: seq<nat>, luck: Luck)
    requires Lists(s) && c < 288 && Ahead(s, items, BlockedOn(c))
    ensures var r := WakeAll(s, c, items, luck); Chain(s, r) && LoadsLe(s, r)
    decreases |items|
  {
    if items == [] {
      ChainRefl(s);
    } else {
      WakeOneChain(s, c, items[0], luck);
      var s1 := WakeOne(s, c, items[0], luck);
      AheadNext(s, s1, items, BlockedOn(c));
      WakeAllChain(s1, c, items[1..], luck);
      var r := WakeAll(s1, c, items[1..], luck);
      ChainTrans(s, s1, r);
      LoadsTrans(s, s1, r);
    }
  }

  /** A blocked thread that stays blocked: nobody asked it to run or to exit, unless it is the
      core's current thread, whose exit waits until it is switched away from. */
  predicate Settled(s: State, c: nat, t: nat)
    requires c < |s.running| && t < |s.tcbs|
  {
    if s.running[c] == t && s.tcbs[t].intent.exited then true
    else !s.tcbs[t].intent.ready && !s.tcbs[t].intent.exited
  }

  ghost predicate AllSettled(s: State, c: nat, items: seq<nat>)
    requires c < |s.running|
  {
    forall t: nat {:trigger Settled(s, c, t)} :: t < |s.tcbs| && s.tcbs[t].link == On(BlockedOn(c)) && t !in items ==>
      Settled(s, c, t)
  }

  lemma SettledNext(s: State, r: State, c: nat, items: seq<nat>)
    requires Shape(s) && Shape(r) && c < 288 && items != [] && items[0] < |s.tcbs| && Others(s, r, items[0])
    requires AllSettled(s, c, items)
    requires r.tcbs[items[0]].link == On(BlockedOn(c)) ==> Settled(r, c, items[0])
    ensures AllSettled(r, c, items[1..])
  {
    forall t: nat | t < |r.tcbs| && r.tcbs[t].link == On(BlockedOn(c)) && t !in items[1..] ensures Settled(r, c, t) {
      if t != items[0] {
        assert Close(s.tcbs[t], r.tcbs[t]);
        assert t !in items && Settled(s, c, t);
      }
    }
  }

  lemma WakeOneSettles(s: State, c: nat, t: nat, luck: Luck)
    requires Lists(s) && c < 288 && t < |s.tcbs| && s.tcbs[t].link == On(BlockedOn(c))
    ensures var r := WakeOne(s, c, t, luck); r.tcbs[t].link == On(BlockedOn(c)) ==> Settled(r, c, t)
  {
    var x := s.tcbs[t];
    if x.intent.exited {
      if s.running[c] != t { LeaveOff(s, c, t, BlockedOn(c), luck.free(t)); }
    } else if x.intent.ready {
      UnblockChain(s, c, t);
    }
  }

  lemma {:induction false} WakeAllSettles(s: State, c: nat, items: seq<nat>, luck: Luck)
    requires Lists(s) && c < 288 && Ahead(s, items, BlockedOn(c)) && AllSettled(s, c, items)
    ensures AllSettled(WakeAll(s, c, items, luck), c, [])
    decreases |items|
  {
    if items != [] {
      WakeOneChain(s, c, items[0], luck);
      WakeOneSettles(s, c, items[0], luck);
      var s1 := WakeOne(s, c, items[0], luck);
      AheadNext(s, s1, items, BlockedOn(c));
      SettledNext(s, s1, c, items);
      WakeAllSettles(s1, c, items[1..], luck);
    }
  }

  /** Waking leaves on the blocked list no thread that was asked to run or to exit. */
  lemma WakeSettles(s: State, c: nat, luck: Luck)
    requires Lists(s) && c < 288 && Drift(s, BlockedOn(c)) == 0
    ensures AllSettled(Wake(s, c, luck), c, [])
  {
    ListAhead(s, BlockedOn(c));
    assert ListOk(s, BlockedOn(c));
    WakeAllSettles(s, c, s.lists[BlockedOn(c)].items, luck);
  }
}
