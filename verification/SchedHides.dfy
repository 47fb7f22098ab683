/** How a thread that exits can hide another one from its core. */
module SchedHides {
  import opened Options
  import opened Seqs
  import opened SchedSpec
  import opened SchedInv
  import opened SchedSteps
  import opened SchedOps
  import opened SchedCurrent
  import opened SchedRuns
  import opened SchedState
  import opened SchedRaces
  import opened Paths

  /** Whenever the current thread of core c is to exit and a thread that the core may run precedes it on
      the list, the core ends up idle, with a thread on its list that is marked as running. */
  lemma ExitHides(w: World, c: nat, intent: Intention, consumed: int, luck: Luck, again: Luck, won: bool) returns (f: nat)
    requires WorldInv(w) && c < 288 && w.pending[c].None? && (w.s.running[c] == c ==> intent.ready)
    requires Hides(w.s, c, intent)
    ensures var (s1, next) := Choose(w.s, c, intent, consumed, luck, again);
            var r := Switch(s1, c, next, won, luck);
            f < |r.tcbs| && Busy(r.tcbs[f], c) && r.running[c] == c
  {
    f := ChooseHides(w.s, c, intent, consumed, luck, again);
    OutStep(w, c, intent, consumed, luck, again);
    var (s1, next) := Choose(w.s, c, intent, consumed, luck, again);
    var w1 := World(s1, w.pending[c := Some(next)]);
    assert CoreOk(w, c) && CoreOk(w1, c);
    ChooseBetween(w.s, c, intent, consumed, luck, again);
    SwitchBusy(s1, c, c, won, luck, f);
    SwitchCurrent(s1, c, c, won, luck);
  }

  // ----- a run that gets there

  /** Block t is a ready thread for core 0 on list id. */
  ghost predicate Beside(s: State, t: nat, id: ListId) {
    && t < |s.tcbs| && t != 288 && s.tcbs[t].link == On(id) && s.tcbs[t].state == Ready && s.tcbs[t].slice == 10
    && s.tcbs[t].intent == Intention(false, false, false) && s.tcbs[t].runningCore == 0 && 0 !in s.tcbs[t].forbidden
  }

  /** Block 288 runs on core 0, and nobody has asked it anything. */
  ghost predicate Runs(s: State) {
    && Shape(s) && 288 < |s.tcbs| && s.running[0] == 288 && s.tcbs[288].link == On(RunnableOn(0))
    && s.tcbs[288].intent == Intention(false, false, false) && s.tcbs[288].state == Running && s.tcbs[288].slice == 10
  }

  lemma Single(items: seq<nat>, t: nat)
    requires NoDup(items) && forall u: nat :: u in items <==> u == t
    ensures items == [t]
  {
    forall u: nat ensures multiset(items)[u] == multiset{t}[u] { Occurs(items, u); }
    assert multiset(items) == multiset{t};
    assert |multiset(items)| == |items| == 1;
    assert items[0] in items;
  }

  /** A list that holds one block is known. */
  lemma ListIs(s: State, id: ListId, t: nat)
    requires Inv(s) && Known(id) && t < |s.tcbs|
    requires forall u: nat :: u < |s.tcbs| ==> (s.tcbs[u].link == On(id) <==> u == t)
    ensures s.lists[id] == CountedList([t], 1)
  {
    assert ListOk(s, id) && Drift(s, id) == 0;
    Single(s.lists[id].items, t);
  }

  lemma ListEmpty(s: State, id: ListId)
    requires Inv(s) && Known(id) && forall u: nat :: u < |s.tcbs| ==> s.tcbs[u].link != On(id)
    ensures s.lists[id] == CountedList([], 0)
  {
    var items := s.lists[id].items;
    assert ListOk(s, id) && Drift(s, id) == 0;
    var bag: multiset<nat> := multiset(items);
    forall u: nat ensures bag[u] == 0 { Occurs(items, u); }
    assert bag == multiset{};
    assert |bag| == |items|;
  }

  /** Which blocks are on a list that holds at most one. */
  lemma OnIt(s: State, id: ListId, items: seq<nat>, u: nat)
    requires Lists(s) && Known(id) && s.lists[id].items == items && u < |s.tcbs|
    ensures s.tcbs[u].link == On(id) <==> u in items
  {
    assert ListOk(s, id);
  }

  lemma CreateLists(s: State, r: State, t: nat)
    requires Inv(s) && Inv(r) && Runs(s) && Holds(s, [], [288]) && t < |s.tcbs| && Others(s, r, t) && OnFree(s.tcbs[t])
    requires r.tcbs[t].link == On(Migrating)
    ensures Holds(r, [t], [288]) && Runs(r)
  {
    forall u: nat | u < |s.tcbs|
      ensures r.tcbs[u].link == On(Migrating) <==> u == t
      ensures r.tcbs[u].link == On(RunnableOn(0)) <==> u == 288
      ensures r.tcbs[u].link != On(BlockedOn(0))
    {
      OnIt(s, Migrating, [], u);
      OnIt(s, RunnableOn(0), [288], u);
      OnIt(s, BlockedOn(0), [], u);
      if u != t { assert Close(s.tcbs[u], r.tcbs[u]); }
    }
    ListIs(r, Migrating, t);
    ListIs(r, RunnableOn(0), 288);
    ListEmpty(r, BlockedOn(0));
    assert Close(s.tcbs[288], r.tcbs[288]);
  }

  /** Another thread for core 0 is made. */
  lemma CreateSecond(s: State) returns (t: nat)
    requires Runs288(s) && Spare(s) && 289 < |s.tcbs|
    ensures HasFree(s, 0)
    ensures var r := Create(s, 0, 0, true);
            Inv(r) && Runs(r) && Beside(r, t, Migrating) && Holds(r, [t], [288])
  {
    OnGlobal(s);
    CreateInv(s, 0, 0, true);
    t := Alloc(s, 0).1.value;
    CreateLists(s, Create(s, 0, 0, true), t);
  }

  lemma OnGlobal(s: State)
    requires Lists(s) && Spare(s) && 289 < |s.tcbs|
    ensures HasFree(s, 0)
  {
    assert ListOk(s, GlobalFree);
    assert 289 in s.lists[GlobalFree].items;
  }

  lemma ChooseSame(s: State, t: nat, luck: Luck)
    requires Inv(s) && Runs(s) && Holds(s, [t], [288])
    ensures Choose(s, 0, READY, 0, luck, luck) == (Charge(s, 0, READY, 0), 288)
  {
    ChargeChain(s, 0, READY, 0);
    var s1 := Charge(s, 0, READY, 0);
    assert Drift(s1, RunnableOn(0)) == 0;
    SelectQuiet(s1, 0, luck, luck);
  }

  /** What follows the handling of the previous thread: the second thread is adopted. */
  lemma TailSecond(s: State, t: nat, luck: Luck)
    requires Lists(s) && 288 < |s.tcbs| && Beside(s, t, Migrating) && Holds(s, [t], [288])
    ensures var r := Wake(Pull(s, 0, true), 0, luck);
            && Beside(r, t, RunnableOn(0)) && Holds(r, [], [288, t]) && r.running == s.running
            && (!OnFree(s.tcbs[288]) ==> r.tcbs[288] == s.tcbs[288])
  {
    PullStage(s, t, [288]);
    AdoptLists(s, t, [288]);
    AdoptChain(s, 0, t);
    assert [288] + [t] == [288, t];
    assert Close(s.tcbs[288], Adopt(s, 0, t).tcbs[288]);
  }

  /** Core 0 carries on with its thread and takes the second one over. */
  lemma AdoptSecond(s: State, t: nat, luck: Luck)
    requires Inv(s) && Runs(s) && Beside(s, t, Migrating) && Holds(s, [t], [288])
    ensures var r := Switch(Charge(s, 0, READY, 0), 0, 288, true, luck);
            Runs(r) && Beside(r, t, RunnableOn(0)) && Holds(r, [], [288, t])
  {
    ChargeChain(s, 0, READY, 0);
    ResumeSecond(Charge(s, 0, READY, 0), t, luck);
  }

  lemma ResumeSecond(s: State, t: nat, luck: Luck)
    requires Lists(s) && 288 < |s.tcbs| && s.running[0] == 288 && s.tcbs[288].link == On(RunnableOn(0))
    requires s.tcbs[288].intent == READY && s.tcbs[288].state == Running && s.tcbs[288].slice == 10
    requires Beside(s, t, Migrating) && Holds(s, [t], [288])
    ensures var r := Switch(s, 0, 288, true, luck); Runs(r) && Beside(r, t, RunnableOn(0)) && Holds(r, [], [288, t])
  {
    PostSecond(s, t, luck);
    ResumeHolds(Post(s, 0, 288, true, luck), t);
  }

  lemma PostSecond(s: State, t: nat, luck: Luck)
    requires Lists(s) && 288 < |s.tcbs| && s.running[0] == 288 && s.tcbs[288].link == On(RunnableOn(0))
    requires s.tcbs[288].intent == READY && s.tcbs[288].state == Running
    requires Beside(s, t, Migrating) && Holds(s, [t], [288])
    ensures var r := Post(s, 0, 288, true, luck);
            && Beside(r, t, RunnableOn(0)) && Holds(r, [], [288, t]) && r.running == s.running
            && r.tcbs[288] == s.tcbs[288].(state := Ready, intent := Intention(false, false, false))
  {
    var x := s.tcbs[288].(state := Ready, intent := Intention(false, false, false));
    SetChain(s, 288, x);
    assert PostPrev(s, 0, 288, luck.free(288)) == SetTcb(s, 288, x);
    TailSecond(SetTcb(s, 288, x), t, luck);
  }

  lemma ResumeHolds(s: State, t: nat)
    requires Shape(s) && 288 < |s.tcbs| && s.running[0] == 288 && s.tcbs[288].link == On(RunnableOn(0))
    requires s.tcbs[288].intent == Intention(false, false, false) && s.tcbs[288].slice == 10
    requires Beside(s, t, RunnableOn(0)) && Holds(s, [], [288, t])
    ensures var r := Resume(s, 288); Runs(r) && Beside(r, t, RunnableOn(0)) && Holds(r, [], [288, t])
  {
  }

  lemma ChooseSecond(s: State, t: nat, luck: Luck)
    requires Runs(s) && Beside(s, t, RunnableOn(0)) && Holds(s, [], [288, t])
    ensures var s1 := Charge(s, 0, READY, 0);
            Choose(s, 0, READY, 0, luck, luck) == (SetTcb(s1, t, s1.tcbs[t].(state := Running)), t)
  {
    var s1 := Charge(s, 0, READY, 0);
    var s2 := SetTcb(s1, t, s1.tcbs[t].(state := Running));
    assert [288, t][1..] == [t] && [t][1..] == [];
    assert Visit(s1, 0, 288, None, luck) == (s1, None);
    assert Visit(s1, 0, t, None, luck) == (s2, Some(t));
    assert Pass(s2, 0, [], Some(t), luck) == (s2, Some(t), false);
    assert Pass(s1, 0, [t], None, luck) == (s2, Some(t), false);
    assert Pass(s1, 0, [288, t], None, luck) == (s2, Some(t), false);
  }

  /** Block t runs on core 0 behind block 288, which is ready. */
  ghost predicate Behind(s: State, t: nat) {
    && Shape(s) && 288 < |s.tcbs| && t < |s.tcbs| && s.running[0] == t && Holds(s, [], [288, t])
    && Pickable(s.tcbs[288], 0)
  }

  /** Core 0 switches to the second thread. */
  lemma EnterSecond(s: State, t: nat, luck: Luck)
    requires Shape(s) && 288 < |s.tcbs| && t < |s.tcbs| && t != 288 && s.running[0] == 288 && Holds(s, [], [288, t])
    requires s.tcbs[288].intent == READY && s.tcbs[288].state == Running && s.tcbs[288].slice == 10
    requires 0 !in s.tcbs[288].forbidden
    ensures Behind(Switch(s, 0, t, true, luck), t)
  {
    var s1 := Enter(Refill(s, t), 0, t);
    var s2 := PostPrev(s1, 0, 288, luck.free(288));
    assert s2.lists == s.lists;
    assert Pull(s2, 0, true) == s2 && Wake(s2, 0, luck) == s2;
  }

  const EXIT := Intention(false, false, true)

  lemma BehindHides(s: State, t: nat)
    requires Behind(s, t)
    ensures Hides(s, 0, EXIT)
  {
    var items := s.lists[RunnableOn(0)].items;
    assert items[1] == s.running[0] && Pickable(s.tcbs[items[0]], 0);
  }

  lemma SecondWorld(w: World) returns (w': World, t: nat)
    requires WorldInv(w) && w.pending[0] == None && Runs288(w.s) && Spare(w.s) && 289 < |w.s.tcbs|
    ensures Step(w, CreateThread(0, 0, true), w') && WorldInv(w') && w'.pending == w.pending
    ensures Runs(w'.s) && Beside(w'.s, t, Migrating) && Holds(w'.s, [t], [288])
  {
    t := CreateSecond(w.s);
    CreateStep(w, 0, 0, true);
    w' := Apply(w, CreateThread(0, 0, true));
  }

  lemma PairWorld(w: World, t: nat, luck: Luck) returns (w': World)
    requires WorldInv(w) && w.pending[0] == None && Runs(w.s) && Beside(w.s, t, Migrating) && Holds(w.s, [t], [288])
    ensures Step(w, Schedule(0, READY, 0, luck, luck, true), w') && WorldInv(w') && w'.pending == w.pending
    ensures Runs(w'.s) && Beside(w'.s, t, RunnableOn(0)) && Holds(w'.s, [], [288, t])
  {
    w' := ScheduleWorld(w, luck);
    ChooseSame(w.s, t, luck);
    AdoptSecond(w.s, t, luck);
  }

  lemma BehindWorld(w: World, t: nat, luck: Luck) returns (w': World)
    requires WorldInv(w) && w.pending[0] == None && Runs(w.s) && Beside(w.s, t, RunnableOn(0)) && Holds(w.s, [], [288, t])
    ensures Step(w, Schedule(0, READY, 0, luck, luck, true), w') && WorldInv(w') && w'.pending == w.pending
    ensures Behind(w'.s, t)
  {
    assert AtHome(288, w.s.tcbs[288]);
    ChooseSecond(w.s, t, luck);
    EnterSecond(Choose(w.s, 0, READY, 0, luck, luck).0, t, luck);
    w' := ScheduleWorld(w, luck);
  }

  lemma ExitWorld(w: World, luck: Luck) returns (w': World, f: nat)
    requires WorldInv(w) && w.pending[0] == None && w.s.running[0] != 0 && Hides(w.s, 0, EXIT)
    ensures Step(w, Schedule(0, EXIT, 0, luck, luck, true), w') && Sound(w')
    ensures f < |w'.s.tcbs| && Busy(w'.s.tcbs[f], 0) && w'.s.running[0] == 0 && w'.pending[0] == None
  {
    f := ExitHides(w, 0, EXIT, 0, luck, luck, true);
    w' := Apply(w, Schedule(0, EXIT, 0, luck, luck, true));
  }

  lemma ReachPair(run: seq<World>, calls: seq<Call>, luck: Luck) returns (run': seq<World>, calls': seq<Call>, t: nat)
    requires Path(Step, run, calls)
    requires var w := run[|calls|];
             WorldInv(w) && w.pending[0] == None && Runs288(w.s) && Spare(w.s) && 289 < |w.s.tcbs|
    ensures Path(Step, run', calls') && run'[0] == run[0]
    ensures var w := run'[|calls'|];
            WorldInv(w) && w.pending[0] == None && Runs(w.s) && Beside(w.s, t, RunnableOn(0)) && Holds(w.s, [], [288, t])
  {
    var w1;
    w1, t := SecondWorld(run[|calls|]);
    Extend(Step, run, calls, CreateThread(0, 0, true), w1);
    run', calls' := run + [w1], calls + [CreateThread(0, 0, true)];
    var w2 := PairWorld(w1, t, luck);
    Extend(Step, run', calls', Schedule(0, READY, 0, luck, luck, true), w2);
    run', calls' := run' + [w2], calls' + [Schedule(0, READY, 0, luck, luck, true)];
  }

  /** A run from the initial state, with two threads of which the second exits, that ends with core 0
      idle although the first thread is on its list, marked as running. */
  lemma HiddenReached(w0: World, luck: Luck) returns (run: seq<World>, calls: seq<Call>, f: nat)
    requires Start(w0) && 289 < |w0.s.tcbs|
    ensures Run(run, calls) && run[0] == w0 && Sound(run[|calls|])
    ensures var w := run[|calls|];
            f < |w.s.tcbs| && Busy(w.s.tcbs[f], 0) && w.s.running[0] == 0 && w.pending[0] == None
  {
    var t;
    run, calls := ReachRunning(w0, luck);
    run, calls, t := ReachPair(run, calls, luck);
    var w3 := BehindWorld(run[|calls|], t, luck);
    Extend(Step, run, calls, Schedule(0, READY, 0, luck, luck, true), w3);
    run, calls := run + [w3], calls + [Schedule(0, READY, 0, luck, luck, true)];
    BehindHides(w3.s, t);
    NotZero(w3.s, t);
    var w4;
    w4, f := ExitWorld(w3, luck);
    Extend(Step, run, calls, Schedule(0, EXIT, 0, luck, luck, true), w4);
    run, calls := run + [w4], calls + [Schedule(0, EXIT, 0, luck, luck, true)];
  }

  lemma NotZero(s: State, t: nat)
    requires Inv(s) && Behind(s, t)
    ensures s.running[0] != 0
  {
    OnIt(s, RunnableOn(0), [288, t], t);
    NotIdle(s, t);
  }
}
