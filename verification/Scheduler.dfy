/** The scheduler's state updated in place, each operation proved against its function. */
module Scheduler {
  import opened Options
  import opened SchedSpec
  import opened SchedInv
  import opened SchedSteps
  import opened SchedCurrent
  import Ops = SchedOps
  import Runs = SchedRuns
  import States = SchedState

  class Scheduler {
    var tcbs: seq<Tcb>
    var lists: map<ListId, CountedList>
    var running: seq<nat>
    ghost var gets: seq<nat>
    ghost var allocs: seq<nat>
    ghost var halted: bool

    ghost function Abs(): State
      reads this
    {
      State(tcbs, lists, running, gets, allocs, halted)
    }

    /** thread_init, sched_init and the start of every core's idle thread. */
    constructor (threads: nat)
      ensures Runs.Initial(Abs()) && |tcbs| == 288 + threads
    {
      var idle, current, made := MakeCores();
      var blocks, items := MakeThreads(threads);
      tcbs, running, halted := idle + blocks, current, false;
      lists := made[GlobalFree := CountedList(items, threads)];
      gets, allocs := seq(288 + threads, i => 0), seq(288 + threads, i => 0);
    }

    /** The idle threads, each current on its core, and the empty lists. */
    static method MakeCores() returns (idle: seq<Tcb>, current: seq<nat>, made: map<ListId, CountedList>)
      ensures |idle| == |current| == 288
      ensures forall c :: 0 <= c < 288 ==> current[c] == c && idle[c] == Tcb(
                Running, Intention(false, false, false), 1, Off, 10, c, {}, 0)
      ensures forall id :: id in made <==> Known(id) && id != GlobalFree
      ensures forall id :: id in made ==> made[id] == CountedList([], 0)
    {
      var empty := CountedList([], 0);
      idle, current, made := [], [], map[Migrating := empty];
      for c := 0 to 288
        invariant |idle| == |current| == c
        invariant forall i :: 0 <= i < c ==> current[i] == i && idle[i] == Tcb(
                    Running, Intention(false, false, false), 1, Off, 10, i, {}, 0)
        invariant forall id :: id in made <==> id == Migrating || (id != GlobalFree && id.core < c)
        invariant forall id :: id in made ==> made[id] == empty
      {
        idle := idle + [Tcb(Running, Intention(false, false, false), 1, Off, 10, c, {}, 0)];
        current := current + [c];
        made := made[LocalFree(c) := empty][RunnableOn(c) := empty][BlockedOn(c) := empty];
      }
    }

    /** The free blocks, in order. */
    static method MakeThreads(threads: nat) returns (blocks: seq<Tcb>, items: seq<nat>)
      ensures |blocks| == threads && items == seq(threads, i requires i >= 0 => 288 + i)
      ensures forall i :: 0 <= i < threads ==> blocks[i] == Tcb(
                NotAlloc, Intention(false, false, false), 0, On(GlobalFree), 10, -1, {}, 0)
    {
      blocks, items := [], [];
      for i := 0 to threads
        invariant |blocks| == |items| == i
        invariant forall k :: 0 <= k < i ==> items[k] == 288 + k && blocks[k] == Tcb(
                    NotAlloc, Intention(false, false, false), 0, On(GlobalFree), 10, -1, {}, 0)
      {
        blocks := blocks + [Tcb(NotAlloc, Intention(false, false, false), 0, On(GlobalFree), 10, -1, {}, 0)];
        items := items + [288 + i];
      }
    }

    method AddCount(id: ListId, d: int)
      requires Shape(Abs()) && Known(id)
      modifies this`lists
      ensures Abs() == Count(old(Abs()), id, d)
    {
      lists := lists[id := lists[id].(count := lists[id].count + d)];
    }

    /** dl_list_del_init on the block's link. */
    method DelInit(t: nat)
      requires Shape(Abs()) && t < |tcbs|
      modifies this`lists, this`tcbs
      ensures Abs() == Detach(old(Abs()), t)
    {
      if tcbs[t].link.On? {
        var ring := tcbs[t].link.list;
        lists := lists[ring := lists[ring].(items := Without(lists[ring].items, t))];
        tcbs := tcbs[t := tcbs[t].(link := Off)];
      }
    }

    method AddTail(t: nat, id: ListId)
      requires Shape(Abs()) && t < |tcbs| && Known(id)
      modifies this`lists, this`tcbs
      ensures Abs() == Append(old(Abs()), t, id)
    {
      lists := lists[id := lists[id].(items := lists[id].items + [t])];
      tcbs := tcbs[t := tcbs[t].(link := On(id))];
    }

    /** Lowers the counter of list id and unlinks t from the ring it is on. */
    method Unlink(t: nat, id: ListId)
      requires Shape(Abs()) && t < |tcbs| && Known(id)
      modifies this`lists, this`tcbs
      ensures Abs() == Take(old(Abs()), t, id)
    {
      AddCount(id, -1);
      DelInit(t);
    }

    /** Links t at the tail of list id and raises its counter. */
    method LinkTail(t: nat, id: ListId)
      requires Shape(Abs()) && t < |tcbs| && Known(id)
      modifies this`lists, this`tcbs
      ensures Abs() == Give(old(Abs()), t, id)
    {
      AddTail(t, id);
      AddCount(id, 1);
    }

    method AllocTcb(c: nat) returns (found: Option<nat>)
      requires Shape(Abs()) && c < 288
      modifies this
      ensures (Abs(), found) == Alloc(old(Abs()), c)
      ensures old(Inv(Abs())) ==> (found.Some? <==> old(Ops.HasFree(Abs(), c)))
      ensures old(Inv(Abs())) && found.Some? ==> Ops.Allocated(old(Abs()), Abs(), found.value)
    {
      if Inv(Abs()) { Ops.AllocOk(Abs(), c); }
      var id := if lists[LocalFree(c)].count != 0 then LocalFree(c) else GlobalFree;
      if lists[id].items == [] {
        halted := true;
        return None;
      }
      var t := lists[id].items[0];
      Unlink(t, id);
      InitAllocated(t);
      found := Some(t);
    }

    method InitAllocated(t: nat)
      requires Shape(Abs()) && t < |tcbs|
      modifies this`tcbs, this`allocs
      ensures Abs() == Claim(old(Abs()), t)
    {
      tcbs := tcbs[t := tcbs[t].(refc := 1, slice := 10, intent := Intention(false, false, false), runningCore := -1,
                                 forbidden := {}, state := Created, link := Off)];
      allocs := allocs[t := allocs[t] + 1];
    }

    method InitDestroyed(t: nat)
      requires Shape(Abs()) && t < |tcbs|
      modifies this`tcbs
      ensures Abs() == Scrub(old(Abs()), t)
    {
      tcbs := tcbs[t := tcbs[t].(state := NotAlloc, runningCore := -1, gen := tcbs[t].gen + 1)];
    }

    /** Appends core c's free list to the global one and empties it. */
    method SpillLocal(c: nat)
      requires Shape(Abs()) && c < 288
      modifies this`lists, this`tcbs
      ensures Abs() == Spill(old(Abs()), c)
    {
      var mine, all := lists[LocalFree(c)], lists[GlobalFree];
      lists := lists[GlobalFree := CountedList(all.items + mine.items, all.count + mine.count)];
      lists := lists[LocalFree(c) := CountedList([], 0)];
      tcbs := seq(|tcbs|, i requires 0 <= i < |tcbs| reads this => Relinked(tcbs[i], c));
    }

    method DestroyTcb(c: nat, t: nat, won: bool)
      requires Shape(Abs()) && c < 288 && t < |tcbs|
      modifies this`lists, this`tcbs
      ensures Abs() == Destroy(old(Abs()), c, t, won)
      ensures old(Lists(Abs()) && tcbs[t].link == Off) ==> Freed(old(Abs()), Abs(), t)
    {
      if Lists(Abs()) && tcbs[t].link == Off { DestroyOk(Abs(), c, t, won); }
      if lists[LocalFree(c)].count > 1 && won {
        LinkTail(t, GlobalFree);
        InitDestroyed(t);
      } else if lists[LocalFree(c)].count > 4 {
        SpillLocal(c);
        InitDestroyed(t);
        LinkTail(t, LocalFree(c));
      } else {
        InitDestroyed(t);
        LinkTail(t, LocalFree(c));
      }
    }

    /** put_tcb. */
    method DropRef(c: nat, t: nat, won: bool)
      requires Shape(Abs()) && c < 288 && t < |tcbs|
      modifies this`lists, this`tcbs, this`halted
      ensures Abs() == Drop(old(Abs()), c, t, won)
    {
      tcbs := tcbs[t := tcbs[t].(refc := tcbs[t].refc - 1)];
      if tcbs[t].refc == 0 {
        if tcbs[t].state == Exited {
          DestroyTcb(c, t, won);
        } else if tcbs[t].state != NotAlloc {
          halted := true;
        }
      }
    }

    method GetTcb(t: nat) returns (ok: bool)
      requires Shape(Abs())
      modifies this`tcbs, this`gets
      ensures Abs() == SchedSpec.GetTcb(old(Abs()), t) && ok == Gettable(old(Abs()), t)
      ensures old(Inv(Abs())) ==> Inv(Abs())
    {
      if Inv(Abs()) { Ops.GetInv(Abs(), t); }
      ok := t < |tcbs| && tcbs[t].state != NotAlloc;
      if ok {
        tcbs := tcbs[t := tcbs[t].(refc := tcbs[t].refc + 1)];
        gets := gets[t := gets[t] + 1];
      }
    }

    method ReleaseRef(c: nat, t: nat, won: bool)
      requires Shape(Abs()) && c < 288 && t < |tcbs| && gets[t] > 0
      modifies this
      ensures Abs() == SchedSpec.PutTcb(old(Abs()), c, t, won)
    {
      gets := gets[t := gets[t] - 1];
      DropRef(c, t, won);
    }

    /** put_tcb by a holder of a reference. */
    method PutTcb(c: nat, t: nat, won: bool)
      requires Inv(Abs()) && c < 288 && t < |tcbs| && gets[t] > 0
      modifies this
      ensures Inv(Abs()) && Abs() == SchedSpec.PutTcb(old(Abs()), c, t, won)
    {
      Ops.PutInv(Abs(), c, t, won);
      ReleaseRef(c, t, won);
    }

    /** create_thread; None when it halts for want of a free block. */
    method CreateThread(c: nat, core: int, won: bool) returns (found: Option<nat>)
      requires Inv(Abs()) && c < 288
      modifies this
      ensures Abs() == Create(old(Abs()), c, core, won) && found == Alloc(old(Abs()), c).1
      ensures if found.Some? then Inv(Abs()) else halted
      ensures found.Some? <==> old(Ops.HasFree(Abs(), c))
      ensures found.Some? ==>
                && found.value == old(Ops.FirstFree(Abs(), c)) && found.value < |tcbs|
                && var x := tcbs[found.value];
                   && x.state == Ready && x.link == On(Migrating) && x.runningCore == core && x.refc == 1 && x.slice == 10
                   && x.intent == Intention(false, false, false) && Runs.Bound(x, core)
    {
      Ops.CreateInv(Abs(), c, core, won);
      Ops.AllocOk(Abs(), c);
      found := AllocTcb(c);
      if found.Some? { StartThread(c, found.value, core, won); }
    }

    method StartThread(c: nat, t: nat, core: int, won: bool)
      requires Shape(Abs()) && c < 288 && t < |tcbs| && Gettable(Abs(), t)
      modifies this
      ensures Abs() == SchedSpec.PutTcb(Launch(SchedSpec.GetTcb(old(Abs()), t), t, core), c, t, won)
    {
      var ok := GetTcb(t);
      LaunchThread(t, core);
      ReleaseRef(c, t, won);
    }

    method LaunchThread(t: nat, core: int)
      requires Shape(Abs()) && t < |tcbs|
      modifies this`lists, this`tcbs
      ensures Abs() == Launch(old(Abs()), t, core)
    {
      Ops.LaunchSteps(Abs(), t, core);
      tcbs := tcbs[t := tcbs[t].(slice := 10, runningCore := core, forbidden := Mask(core))];
      LinkTail(t, Migrating);
      tcbs := tcbs[t := tcbs[t].(state := Ready)];
    }

    /** thread_suspend, thread_wake_up and the first half of __thread_exit. */
    method Request(c: nat, t: nat, intent: Intention, won: bool)
      requires Inv(Abs()) && c < 288 && Gettable(Abs(), t)
      modifies this
      ensures Inv(Abs()) && Abs() == Ask(old(Abs()), c, t, intent, won)
      ensures Abs() == WithIntent(old(Abs()), t, intent)
    {
      Ops.AskIs(Abs(), c, t, intent, won);
      Ops.AskInv(Abs(), c, t, intent, won);
      SetIntent(c, t, intent, won);
    }

    method SetIntent(c: nat, t: nat, intent: Intention, won: bool)
      requires Shape(Abs()) && c < 288 && Gettable(Abs(), t)
      modifies this
      ensures Abs() == Ask(old(Abs()), c, t, intent, won)
    {
      var ok := GetTcb(t);
      tcbs := tcbs[t := tcbs[t].(intent := intent)];
      ReleaseRef(c, t, won);
    }

    // ----- select_next_thread

    /** thread_exit, unlinking from list id, and the put of the thread's own reference. */
    method LeaveList(c: nat, t: nat, id: ListId, won: bool)
      requires Shape(Abs()) && c < 288 && t < |tcbs| && Known(id)
      modifies this`lists, this`tcbs, this`halted
      ensures Abs() == Leave(old(Abs()), c, t, id, won)
    {
      tcbs := tcbs[t := tcbs[t].(state := Exited, intent := tcbs[t].intent.(exited := false))];
      Unlink(t, id);
      DropRef(c, t, won);
    }

    method BlockThread(c: nat, t: nat)
      requires Shape(Abs()) && c < 288 && t < |tcbs|
      modifies this`lists, this`tcbs
      ensures Abs() == Block(old(Abs()), c, t)
    {
      Unlink(t, RunnableOn(c));
      tcbs := tcbs[t := tcbs[t].(state := Blocked, intent := tcbs[t].intent.(blocked := false))];
      LinkTail(t, BlockedOn(c));
    }

    method VisitThread(c: nat, t: nat, found: Option<nat>, luck: Luck) returns (found': Option<nat>)
      requires Shape(Abs()) && c < 288 && t < |tcbs|
      modifies this`lists, this`tcbs, this`halted
      ensures (Abs(), found') == Visit(old(Abs()), c, t, found, luck)
      ensures old(Lists(Abs()) && tcbs[t].link == On(RunnableOn(c))) ==>
                Chain(old(Abs()), Abs()) && LoadsLe(old(Abs()), Abs()) && Others(old(Abs()), Abs(), t)
                && found' == if found.None? && old(Pickable(tcbs[t], c)) then Some(t) else found
    {
      if Lists(Abs()) && tcbs[t].link == On(RunnableOn(c)) { VisitFacts(Abs(), c, t, found, luck); }
      found' := found;
      if tcbs[t].intent.exited {
        LeaveList(c, t, RunnableOn(c), luck.free(t));
      } else if tcbs[t].intent.blocked {
        BlockThread(c, t);
      } else if Available(tcbs[t]) {
        if c !in tcbs[t].forbidden {
          if found == None {
            found' := Some(t);
            tcbs := tcbs[t := tcbs[t].(state := Running)];
          }
        } else if luck.migrating(t) {
          Unlink(t, RunnableOn(c));
          LinkTail(t, Migrating);
        }
      }
    }

    method RefillSlice(t: nat)
      requires Shape(Abs()) && t < |tcbs|
      modifies this`tcbs
      ensures Abs() == Refill(old(Abs()), t)
    {
      if tcbs[t].slice <= 0 { tcbs := tcbs[t := tcbs[t].(slice := 10)]; }
    }

    /** One traversal of the runnable list. */
    method Traverse(c: nat, luck: Luck) returns (found: Option<nat>)
      requires Shape(Abs()) && c < 288
      modifies this`lists, this`tcbs, this`halted
      ensures (Abs(), found) == Attempt(old(Abs()), c, luck)
    {
      var items := lists[RunnableOn(c)].items;
      found := None;
      assert items[0..] == items;
      for i := 0 to |items|
        invariant Shape(Abs()) && |tcbs| == old(|tcbs|) && (found.Some? ==> found.value < |tcbs|)
        invariant Pass(old(Abs()), c, items, None, luck) == Pass(Abs(), c, items[i..], found, luck)
      {
        var t := items[i];
        assert items[i..][0] == t && items[i..][1..] == items[i + 1..];
        if tcbs[t].intent.exited && running[c] == t {
          RefillSlice(c);
          return Some(c);
        }
        found := VisitThread(c, t, found, luck);
      }
    }

    /** Refills every starved thread of the runnable list and tells whether there was one. */
    method RefillRunnable(c: nat) returns (refilled: bool)
      requires Shape(Abs()) && c < 288
      modifies this`tcbs
      ensures var items := old(lists[RunnableOn(c)].items);
              Abs() == RefillAll(old(Abs()), items) && refilled == !NoneStarved(old(Abs()), items)
      ensures !refilled ==> Abs() == old(Abs())
    {
      var items := lists[RunnableOn(c)].items;
      refilled := false;
      ghost var s0, w := Abs(), 0;
      assert items[0..] == items;
      for i := 0 to |items|
        invariant Shape(Abs()) && |tcbs| == |s0.tcbs|
        invariant RefillAll(s0, items) == RefillAll(Abs(), items[i..])
        invariant if refilled then w < |items| && Starved(s0.tcbs[items[w]])
                  else Abs() == s0 && forall k :: 0 <= k < i ==> !Starved(s0.tcbs[items[k]])
      {
        var t := items[i];
        assert items[i..][0] == t && items[i..][1..] == items[i + 1..];
        if Starved(tcbs[t]) {
          w := if refilled then w else i;
          RefillSlice(t);
          refilled := true;
        }
      }
    }

    method PickFallback(c: nat) returns (next: nat)
      requires Shape(Abs()) && c < 288
      ensures next == Fallback(Abs(), c)
    {
      var list := lists[RunnableOn(c)];
      next := if list.count == 1 && list.items != [] then list.items[0] else c;
    }

    method SelectNextThread(c: nat, luck: Luck, again: Luck) returns (next: nat)
      requires Lists(Abs()) && c < 288
      modifies this`lists, this`tcbs, this`halted
      ensures (Abs(), next) == Select(old(Abs()), c, luck, again)
    {
      ghost var s0 := Abs();
      AttemptChain(s0, c, luck);
      ghost var s1 := Attempt(s0, c, luck).0;
      RetryOnce(s1, c, again);
      var retried := false;
      while true
        invariant if retried then Attempt(s0, c, luck).1 == None && Abs() == RefillAll(s1, s1.lists[RunnableOn(c)].items)
                                  && !NoneStarved(s1, s1.lists[RunnableOn(c)].items)
                  else Abs() == s0
        decreases if retried then 0 else 1
      {
        var found := Traverse(c, if retried then again else luck);
        if found.Some? { return found.value; }
        var refilled := RefillRunnable(c);
        if !refilled {
          next := PickFallback(c);
          return;
        }
        retried := true;
      }
    }

    /** The first half of schedule: choose the next thread for core c. */
    method ScheduleOut(c: nat, intent: Intention, consumed: int, luck: Luck, again: Luck) returns (next: nat)
      requires Inv(Abs()) && c < 288
      modifies this`lists, this`tcbs, this`halted
      ensures Inv(Abs()) && (Abs(), next) == Choose(old(Abs()), c, intent, consumed, luck, again)
    {
      ChooseInv(Abs(), c, intent, consumed, luck, again);
      ChargeChain(Abs(), c, intent, consumed);
      ChargeCurrent(c, intent, consumed);
      next := SelectNextThread(c, luck, again);
    }

    method ChargeCurrent(c: nat, intent: Intention, consumed: int)
      requires Shape(Abs()) && c < 288
      modifies this`tcbs
      ensures Abs() == Charge(old(Abs()), c, intent, consumed)
    {
      var t := running[c];
      tcbs := tcbs[t := tcbs[t].(slice := tcbs[t].slice - consumed)];
      tcbs := tcbs[t := tcbs[t].(intent := Join(tcbs[t].intent, intent))];
    }

    // ----- post_context_switch

    method PostPrevious(c: nat, p: nat, won: bool)
      requires Shape(Abs()) && c < 288 && p < |tcbs|
      modifies this`lists, this`tcbs, this`halted
      ensures Abs() == PostPrev(old(Abs()), c, p, won)
    {
      if tcbs[p].state == Exited || tcbs[p].state == NotAlloc { return; }
      if tcbs[p].intent.ready {
        tcbs := tcbs[p := tcbs[p].(state := Ready, intent := tcbs[p].intent.(ready := false, blocked := false))];
      } else if tcbs[p].intent.blocked {
        BlockThread(c, p);
      } else if tcbs[p].intent.exited && running[c] != p {
        LeaveList(c, p, RunnableOn(c), won);
      }
    }

    method AdoptThread(c: nat, t: nat)
      requires Shape(Abs()) && c < 288 && t < |tcbs|
      modifies this`lists, this`tcbs
      ensures Abs() == Adopt(old(Abs()), c, t)
    {
      Unlink(t, Migrating);
      tcbs := tcbs[t := tcbs[t].(runningCore := c)];
      LinkTail(t, RunnableOn(c));
    }

    method AdoptOwnThreads(c: nat) returns (full: bool)
      requires Shape(Abs()) && c < 288
      modifies this`lists, this`tcbs
      ensures (Abs(), full) == AdoptOwn(old(Abs()), c, old(lists[Migrating].items))
    {
      var items := lists[Migrating].items;
      assert items[0..] == items;
      for i := 0 to |items|
        invariant Shape(Abs()) && |tcbs| == old(|tcbs|)
        invariant AdoptOwn(old(Abs()), c, items) == AdoptOwn(Abs(), c, items[i..])
      {
        assert items[i..][0] == items[i] && items[i..][1..] == items[i + 1..];
        if tcbs[items[i]].runningCore == c { AdoptThread(c, items[i]); }
        if lists[RunnableOn(c)].count + lists[BlockedOn(c)].count == 2048 { return true; }
      }
      full := false;
    }

    method AdoptOneThread(c: nat)
      requires Shape(Abs()) && c < 288
      modifies this`lists, this`tcbs
      ensures Abs() == AdoptOne(old(Abs()), c, old(lists[Migrating].items))
    {
      var items := lists[Migrating].items;
      assert items[0..] == items;
      for i := 0 to |items|
        invariant Abs() == old(Abs()) && IdsBelow(items[i..], |tcbs|)
        invariant AdoptOne(Abs(), c, items) == AdoptOne(Abs(), c, items[i..])
      {
        assert items[i..][0] == items[i] && items[i..][1..] == items[i + 1..];
        if c !in tcbs[items[i]].forbidden {
          AdoptThread(c, items[i]);
          return;
        }
        if lists[RunnableOn(c)].count + lists[BlockedOn(c)].count == 2048 { return; }
      }
    }

    method PullMigrating(c: nat, won: bool)
      requires Shape(Abs()) && c < 288
      modifies this`lists, this`tcbs
      ensures Abs() == Pull(old(Abs()), c, won)
    {
      if lists[RunnableOn(c)].count + lists[BlockedOn(c)].count < 2048 {
        if lists[Migrating].count != 0 && won {
          var full := AdoptOwnThreads(c);
          if !full { AdoptOneThread(c); }
        }
      }
    }

    method WakeThread(c: nat, t: nat, luck: Luck)
      requires Shape(Abs()) && c < 288 && t < |tcbs|
      modifies this`lists, this`tcbs, this`halted
      ensures Abs() == WakeOne(old(Abs()), c, t, luck)
    {
      if tcbs[t].intent.exited {
        if running[c] != t { LeaveList(c, t, BlockedOn(c), luck.free(t)); }
      } else if tcbs[t].intent.ready {
        Unlink(t, BlockedOn(c));
        tcbs := tcbs[t := tcbs[t].(state := Ready, intent := tcbs[t].intent.(ready := false, blocked := false))];
        LinkTail(t, RunnableOn(c));
      }
    }

    method WakeBlocked(c: nat, luck: Luck)
      requires Shape(Abs()) && c < 288
      modifies this`lists, this`tcbs, this`halted
      ensures Abs() == Wake(old(Abs()), c, luck)
    {
      if lists[BlockedOn(c)].count != 0 {
        var items := lists[BlockedOn(c)].items;
        assert items[0..] == items;
        for i := 0 to |items|
          invariant Shape(Abs()) && |tcbs| == old(|tcbs|)
          invariant WakeAll(old(Abs()), c, items, luck) == WakeAll(Abs(), c, items[i..], luck)
        {
          assert items[i..][0] == items[i] && items[i..][1..] == items[i + 1..];
          WakeThread(c, items[i], luck);
        }
      }
    }

    method PostContextSwitch(c: nat, p: nat, won: bool, luck: Luck)
      requires Shape(Abs()) && c < 288 && p < |tcbs|
      modifies this`lists, this`tcbs, this`halted
      ensures Abs() == Post(old(Abs()), c, p, won, luck)
      ensures old(Inv(Abs())) ==> (Inv(Abs()) <==> old(Safe(Abs(), c, p)))
      ensures old(Inv(Abs()) && p != running[c] && tcbs[p].link == On(RunnableOn(c))) ==>
                p < |tcbs| && States.Parted(old(tcbs[p]), tcbs[p], c)
    {
      if Inv(Abs()) {
        Ops.PostExact(Abs(), c, p, won, luck);
        if p != running[c] && tcbs[p].link == On(RunnableOn(c)) { States.PostParts(Abs(), c, p, won, luck); }
      }
      PostPrevious(c, p, luck.free(p));
      PullMigrating(c, won);
      WakeBlocked(c, luck);
    }

    /** The second half of schedule: switch core c to the chosen thread. */
    method ScheduleIn(c: nat, next: nat, won: bool, luck: Luck)
      requires Inv(Abs()) && c < 288 && next < |tcbs|
      modifies this
      ensures Abs() == Switch(old(Abs()), c, next, won, luck)
      ensures Inv(Abs()) <==> old(Ops.SwitchSafe(Abs(), c, next))
      ensures old(running[c] != next && tcbs[running[c]].link == On(RunnableOn(c))) ==>
                old(running[c]) < |tcbs| && States.Parted(old(tcbs[running[c]]), tcbs[old(running[c])], c)
    {
      Ops.SwitchExact(Abs(), c, next, won, luck);
      if running[c] != next && tcbs[running[c]].link == On(RunnableOn(c)) { States.SwitchParts(Abs(), c, next, won, luck); }
      SwitchTo(c, next, won, luck);
    }

    /** The whole of schedule. */
    method Schedule(c: nat, intent: Intention, consumed: int, luck: Luck, again: Luck, won: bool)
      requires Inv(Abs()) && Homes(Abs()) && Runs.AllCurrent(Abs())
      requires c < 288 && (running[c] == c ==> intent.ready)
      modifies this
      ensures Inv(Abs()) && Homes(Abs()) && Runs.AllCurrent(Abs())
      ensures var (chosen, next) := Choose(old(Abs()), c, intent, consumed, luck, again);
              Abs() == Switch(chosen, c, next, won, luck) && running == old(running)[c := next]
    {
      ghost var s := Abs();
      Runs.ScheduleKeeps(s, c, intent, consumed, luck, again, won);
      var next := ScheduleOut(c, intent, consumed, luck, again);
      SwitchTo(c, next, won, luck);
    }

    method SwitchTo(c: nat, next: nat, won: bool, luck: Luck)
      requires Shape(Abs()) && c < 288 && next < |tcbs|
      modifies this
      ensures Abs() == Switch(old(Abs()), c, next, won, luck)
    {
      var curr := running[c];
      RefillSlice(next);
      if next == curr {
        PostContextSwitch(c, curr, won, luck);
        tcbs := tcbs[curr := tcbs[curr].(state := Running, intent := tcbs[curr].intent.(ready := false))];
      } else {
        tcbs := tcbs[next := tcbs[next].(runningCore := c)];
        running := running[c := next];
        PostContextSwitch(c, curr, won, luck);
      }
    }
  }
}
