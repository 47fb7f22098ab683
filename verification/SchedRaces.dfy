/** How asking a thread to block or exit at the wrong moment upsets a counter. */
module SchedRaces {
  import opened Options
  import opened SchedSpec
  import opened SchedInv
  import opened SchedSteps
  import opened SchedOps
  import opened SchedCurrent
  import opened SchedRuns
  import opened SchedState
  import opened Paths

  // ----- a thread that blocks is suspended

  /** A thread that gave up the processor and waits on core c's blocked list. */
  predicate Parked(x: Tcb, c: nat) {
    Resting(x, c) && x.state == Blocked
  }

  lemma {:induction false} PassParks(s: State, c: nat, items: seq<nat>, found: Option<nat>, luck: Luck)
    requires Lists(s) && c < 288 && Ahead(s, items, RunnableOn(c))
    requires found != Some(s.running[c]) && (found.Some? ==> found.value < |s.tcbs|)
    requires var x := s.tcbs[s.running[c]];
             if s.running[c] in items then x.intent == Intention(false, true, false) else Parked(x, c)
    ensures var (r, found', exiting) := Pass(s, c, items, found, luck);
            Parked(r.tcbs[s.running[c]], c) && !exiting && found' != Some(s.running[c])
    decreases |items|
  {
    if items != [] {
      var t := s.running[c];
      assert t != items[0] ==> (t in items <==> t in items[1..]);
      VisitChain(s, c, items[0], found, luck);
      VisitParks(s, c, items[0], found, luck);
      var (s1, found1) := Visit(s, c, items[0], found, luck);
      AheadNext(s, s1, items, RunnableOn(c));
      assert t == items[0] ==> t !in items[1..];
      PassParks(s1, c, items[1..], found1, luck);
    }
  }

  lemma VisitParks(s: State, c: nat, u: nat, found: Option<nat>, luck: Luck)
    requires Lists(s) && c < 288 && u < |s.tcbs| && s.tcbs[u].link == On(RunnableOn(c))
    requires found != Some(s.running[c])
    requires u == s.running[c] ==> s.tcbs[u].intent == Intention(false, true, false)
    ensures var (r, found') := Visit(s, c, u, found, luck); var t := s.running[c];
            found' != Some(t) && (if u == t then Parked(r.tcbs[t], c) else Close(s.tcbs[t], r.tcbs[t]))
  {
    VisitChain(s, c, u, found, luck);
    if u == s.running[c] { BlockChain(s, c, u); }
  }

  lemma AttemptParks(s: State, c: nat, luck: Luck)
    requires Lists(s) && c < 288
    requires var x := s.tcbs[s.running[c]];
             (x.link == On(RunnableOn(c)) && x.intent == Intention(false, true, false)) || Parked(x, c)
    ensures var (r, found) := Attempt(s, c, luck);
            Lists(r) && r.running == s.running && Parked(r.tcbs[s.running[c]], c) && found != Some(s.running[c])
  {
    ListAhead(s, RunnableOn(c));
    assert ListOk(s, RunnableOn(c));
    PassParks(s, c, s.lists[RunnableOn(c)].items, None, luck);
    AttemptChain(s, c, luck);
  }

  lemma SelectParks(s: State, c: nat, luck: Luck, again: Luck)
    requires Lists(s) && c < 288 && 288 <= s.running[c]
    requires s.tcbs[s.running[c]].link == On(RunnableOn(c))
    requires s.tcbs[s.running[c]].intent == Intention(false, true, false)
    ensures var (r, next) := Select(s, c, luck, again);
            Parked(r.tcbs[s.running[c]], c) && next != s.running[c]
  {
    AttemptParks(s, c, luck);
    var (s1, found) := Attempt(s, c, luck);
    FallbackOther(s1, c);
    var items := s1.lists[RunnableOn(c)].items;
    ListAhead(s1, RunnableOn(c));
    RefillAllChain(s1, items, RunnableOn(c));
    var s2 := RefillAll(s1, items);
    assert s.running[c] !in items;
    AttemptParks(s2, c, again);
    FallbackOther(Attempt(s2, c, again).0, c);
  }

  lemma FallbackOther(s: State, c: nat)
    requires Lists(s) && c < 288 && 288 <= s.running[c] && Parked(s.tcbs[s.running[c]], c)
    ensures Fallback(s, c) != s.running[c]
  {
    ListAhead(s, RunnableOn(c));
  }

  /** The runnable counter of core c is one below the length of its list. */
  ghost predicate OneShort(s: State, c: nat)
    requires Shape(s) && c < 288
  {
    s.lists[RunnableOn(c)].count == |s.lists[RunnableOn(c)].items| - 1
  }

  /** When the current thread of core c blocks and another core suspends it between the two
      halves of schedule, the runnable counter of core c ends one below the list's length. */
  lemma SuspendDuringSwitch(s: State, c: nat, consumed: int, luck: Luck, again: Luck, d: nat, won: bool)
    requires Inv(s) && c < 288 && d < 288 && 288 <= s.running[c]
    requires s.tcbs[s.running[c]].link == On(RunnableOn(c))
    requires s.tcbs[s.running[c]].intent == Intention(false, false, false)
    ensures var t := s.running[c];
            var (s1, next) := Choose(s, c, Intention(false, true, false), consumed, luck, again);
            && Inv(s1) && Gettable(s1, t) && next < |s1.tcbs|
            && var s2 := Ask(s1, d, t, s1.tcbs[t].intent.(blocked := true), won);
               && Inv(s2) && !SwitchSafe(s2, c, next)
               && OneShort(Switch(s2, c, next, won, luck), c)
  {
    var t := s.running[c];
    var intent := Intention(false, true, false);
    ChooseInv(s, c, intent, consumed, luck, again);
    ChargeChain(s, c, intent, consumed);
    SelectParks(Charge(s, c, intent, consumed), c, luck, again);
    ChooseChain(s, c, intent, consumed, luck, again);
    var (s1, next) := Choose(s, c, intent, consumed, luck, again);
    SuspendedSwitch(s1, c, next, d, won, luck);
  }

  lemma SuspendedSwitch(s: State, c: nat, next: nat, d: nat, won: bool, luck: Luck)
    requires Inv(s) && c < 288 && d < 288 && 288 <= s.running[c] != next && next < |s.tcbs|
    requires Parked(s.tcbs[s.running[c]], c)
    ensures var t := s.running[c];
            var s2 := Ask(s, d, t, s.tcbs[t].intent.(blocked := true), won);
            && Inv(s2) && !SwitchSafe(s2, c, next)
            && OneShort(Switch(s2, c, next, won, luck), c)
  {
    var t := s.running[c];
    var intent := s.tcbs[t].intent.(blocked := true);
    AskInv(s, d, t, intent, won);
    AskIs(s, d, t, intent, won);
    SwitchDrift(WithIntent(s, t, intent), c, next, won, luck);
  }

  lemma SwitchDrift(s: State, c: nat, next: nat, won: bool, luck: Luck)
    requires Inv(s) && c < 288 && next < |s.tcbs| && next != s.running[c] && !SwitchSafe(s, c, next)
    ensures OneShort(Switch(s, c, next, won, luck), c)
  {
    RefillInv(s, next);
    var s1 := Refill(s, next);
    EnterInv(s1, c, next);
    var s2 := Enter(s1, c, next);
    PostDrift(s2, c, s.running[c], won, luck);
    assert Drift(s2, RunnableOn(c)) == 0;
  }

  // ----- a thread that is its core's choice again is suspended

  lemma PostParks(s: State, c: nat, t: nat, won: bool, luck: Luck)
    requires Inv(s) && c < 288 && t < |s.tcbs| && s.tcbs[t].link == On(RunnableOn(c))
    requires s.tcbs[t].intent == Intention(false, true, false)
    ensures Parked(Post(s, c, t, won, luck).tcbs[t], c)
  {
    assert ThreadAt(s, t);
    BlockChain(s, c, t);
    TailStill(PostPrev(s, c, t, luck.free(t)), c, won, luck, t);
  }

  /** When core c has chosen its current thread again and another core suspends it before the
      second half, nothing drifts yet, but the thread runs on while it is on the blocked list. */
  lemma SuspendOwnChoice(s: State, c: nat, d: nat, won: bool, luck: Luck)
    requires Inv(s) && c < 288 && d < 288 && 288 <= s.running[c]
    requires s.tcbs[s.running[c]].link == On(RunnableOn(c))
    requires s.tcbs[s.running[c]].intent == Intention(false, false, false) && Gettable(s, s.running[c])
    ensures var t := s.running[c];
            var s2 := Ask(s, d, t, s.tcbs[t].intent.(blocked := true), won);
            var r := Switch(s2, c, t, won, luck);
            && SwitchSafe(s2, c, t) && Inv(r) && r.running[c] == t
            && r.tcbs[t].link == On(BlockedOn(c)) && r.tcbs[t].intent == Intention(false, false, false)
  {
    var t := s.running[c];
    var intent := s.tcbs[t].intent.(blocked := true);
    AskInv(s, d, t, intent, won);
    AskIs(s, d, t, intent, won);
    ResumeParked(WithIntent(s, t, intent), c, won, luck);
  }

  lemma ResumeParked(s: State, c: nat, won: bool, luck: Luck)
    requires Inv(s) && c < 288
    requires s.tcbs[s.running[c]].link == On(RunnableOn(c)) && s.tcbs[s.running[c]].intent == Intention(false, true, false)
    ensures var t := s.running[c]; var r := Switch(s, c, t, won, luck);
            && SwitchSafe(s, c, t) && Inv(r) && r.running[c] == t
            && r.tcbs[t].link == On(BlockedOn(c)) && r.tcbs[t].intent == Intention(false, false, false)
  {
    var t := s.running[c];
    assert ThreadAt(s, t);
    SwitchExact(s, c, t, won, luck);
    RefillInv(s, t);
    var s1 := Refill(s, t);
    PostParks(s1, c, t, won, luck);
    PostChain(s1, c, t, won, luck);
  }

  lemma {:induction false} PassStill(s: State, c: nat, items: seq<nat>, found: Option<nat>, luck: Luck)
    requires Lists(s) && c < 288 && Ahead(s, items, RunnableOn(c)) && s.running[c] !in items
    requires found != Some(s.running[c]) && (found.Some? ==> found.value < |s.tcbs|)
    requires s.tcbs[s.running[c]].link == On(BlockedOn(c))
    ensures var (r, found', exiting) := Pass(s, c, items, found, luck);
            Still(s, r, s.running[c]) && !exiting && found' != Some(s.running[c])
    decreases |items|
  {
    if items != [] {
      var s1, found1 := VisitPicks(s, c, items, found, luck);
      VisitChain(s, c, items[0], found, luck);
      OthersStill(s, s1, items[0], s.running[c]);
      PassStill(s1, c, items[1..], found1, luck);
    }
  }

  lemma AttemptStill(s: State, c: nat, luck: Luck)
    requires Lists(s) && c < 288 && s.tcbs[s.running[c]].link == On(BlockedOn(c))
    ensures var (r, found) := Attempt(s, c, luck);
            Lists(r) && r.running == s.running && Still(s, r, s.running[c]) && found != Some(s.running[c])
  {
    ListAhead(s, RunnableOn(c));
    PassStill(s, c, s.lists[RunnableOn(c)].items, None, luck);
    AttemptChain(s, c, luck);
  }

  lemma FallbackElse(s: State, c: nat)
    requires Lists(s) && c < 288 && 288 <= s.running[c] && s.tcbs[s.running[c]].link == On(BlockedOn(c))
    ensures Fallback(s, c) != s.running[c]
  {
    ListAhead(s, RunnableOn(c));
  }

  lemma SelectStill(s: State, c: nat, luck: Luck, again: Luck)
    requires Lists(s) && c < 288 && 288 <= s.running[c] && s.tcbs[s.running[c]].link == On(BlockedOn(c))
    ensures var (r, next) := Select(s, c, luck, again); Still(s, r, s.running[c]) && next != s.running[c]
  {
    AttemptStill(s, c, luck);
    var (s1, found) := Attempt(s, c, luck);
    FallbackElse(s1, c);
    var items := s1.lists[RunnableOn(c)].items;
    ListAhead(s1, RunnableOn(c));
    RefillAllChain(s1, items, RunnableOn(c));
    var s2 := RefillAll(s1, items);
    assert s.running[c] !in items;
    AttemptStill(s2, c, again);
    FallbackElse(Attempt(s2, c, again).0, c);
  }

  /** The next time that thread blocks, undisturbed, the runnable counter ends one short. */
  lemma BlockedCurrentDrifts(s: State, c: nat, consumed: int, luck: Luck, again: Luck, won: bool)
    requires Inv(s) && c < 288 && 288 <= s.running[c]
    requires s.tcbs[s.running[c]].link == On(BlockedOn(c)) && s.tcbs[s.running[c]].intent == Intention(false, false, false)
    ensures var (s1, next) := Choose(s, c, Intention(false, true, false), consumed, luck, again);
            OneShort(Switch(s1, c, next, won, luck), c)
  {
    var t := s.running[c];
    var intent := Intention(false, true, false);
    ChooseInv(s, c, intent, consumed, luck, again);
    ChooseChain(s, c, intent, consumed, luck, again);
    ChargeChain(s, c, intent, consumed);
    SelectStill(Charge(s, c, intent, consumed), c, luck, again);
    var (s1, next) := Choose(s, c, intent, consumed, luck, again);
    assert ThreadAt(s1, t);
    SwitchDrift(s1, c, next, won, luck);
  }

  /** An idle thread that was asked to block and gives up the processor without asking to run again
      leaves the counter one short, whichever thread comes next. This is why the timer asks for it. */
  lemma IdleAsked(s: State, c: nat, next: nat, won: bool, luck: Luck)
    requires Inv(s) && c < 288 && s.running[c] == c && next < |s.tcbs|
    requires s.tcbs[c].intent.blocked && !s.tcbs[c].intent.ready
    ensures OneShort(Switch(s, c, next, won, luck), c)
  {
    assert ThreadAt(s, c);
    if next != c {
      SwitchDrift(s, c, next, won, luck);
    } else {
      RefillInv(s, c);
      PostDrift(Refill(s, c), c, c, won, luck);
      assert Drift(Refill(s, c), RunnableOn(c)) == 0;
    }
  }

  // ----- which calls are safe

  /** Every list counter is the length of its list. */
  ghost predicate Exact(s: State) {
    Shape(s) && forall id {:trigger s.lists[id]} :: Known(id) ==> s.lists[id].count == |s.lists[id].items|
  }

  /** The run leads on from world w, and no call of it disturbs anybody. */
  ghost predicate Follows(w: World, run: seq<World>, calls: seq<Call>) {
    Path(Step, run, calls) && run[0] == w && Orderly(run, calls, |calls|)
  }

  ghost predicate StaysExact(w: World) {
    forall run: seq<World>, calls: seq<Call> {:trigger Follows(w, run, calls)} :: Follows(w, run, calls) ==>
      Exact(run[|calls|].s)
  }

  /** After a call, whatever the cores do next without disturbing anybody, all counters stay exact, iff
      the call itself disturbs nobody. */
  lemma CallExact(w: World, call: Call)
    requires WorldInv(w) && Callable(w, call)
    ensures StaysExact(Apply(w, call)) <==> !Disturbs(w, call)
  {
    var w1 := Apply(w, call);
    if Disturbs(w, call) {
      var run, calls := Harm(w, call);
      assert Follows(w1, run, calls) && !Exact(run[|calls|].s);
    } else {
      StepKeepsInv(w, call);
      OrderStays(w1);
    }
  }

  lemma OrderStays(w: World)
    requires WorldInv(w)
    ensures StaysExact(w)
  {
    forall run: seq<World>, calls: seq<Call> | Follows(w, run, calls) ensures Exact(run[|calls|].s) {
      PathKeepsInv(run, calls, |calls|);
      CountersExact(run[|calls|]);
    }
  }

  /** After a call that disturbs, one or two further calls bring a counter out of step. */
  lemma Harm(w: World, call: Call) returns (run: seq<World>, calls: seq<Call>)
    requires WorldInv(w) && Callable(w, call) && Disturbs(w, call)
    ensures Follows(Apply(w, call), run, calls) && !Exact(run[|calls|].s)
  {
    var c :| MidSwitch(w, c, call.tid);
    var luck := Luck(_ => true, _ => true);
    assert CoreOk(w, c);
    if w.pending[c] == Some(call.tid) {
      run, calls := HarmLater(w, call, c, luck);
    } else {
      run, calls := HarmNow(w, call, c, luck);
    }
  }

  /** The suspended thread has left its core's runnable list: the switch leaves the counter one short. */
  lemma DisturbedDrifts(w: World, call: Call, c: nat, won: bool, luck: Luck)
    requires WorldInv(w) && Callable(w, call) && call.Suspend? && c < 288
    requires MidSwitch(w, c, call.tid) && w.pending[c] != Some(call.tid) && !w.s.tcbs[call.tid].intent.ready
    ensures var s2 := Apply(w, call).s;
            Inv(s2) && OneShort(Switch(s2, c, w.pending[c].value, won, luck), c)
  {
    var t := call.tid;
    var intent := w.s.tcbs[t].intent.(blocked := true);
    AskInv(w.s, call.core, t, intent, call.won);
    AskIs(w.s, call.core, t, intent, call.won);
    assert CoreOk(w, c) && ThreadAt(w.s, t);
    SwitchDrift(WithIntent(w.s, t, intent), c, w.pending[c].value, won, luck);
  }

  lemma FollowsStart(w: World)
    ensures Follows(w, [w], [])
  {
  }

  lemma FollowsNext(w: World, run: seq<World>, calls: seq<Call>, call: Call, w': World)
    requires Follows(w, run, calls) && Step(run[|calls|], call, w') && Sound(run[|calls|]) && !call.Suspend?
    ensures Follows(w, run + [w'], calls + [call]) && (run + [w'])[|calls + [call]|] == w'
  {
    Extend(Step, run, calls, call, w');
    OrderlyNext(run, calls, call, w');
  }

  lemma OrderlyNext(run: seq<World>, calls: seq<Call>, call: Call, w': World)
    requires Orderly(run, calls, |calls|) && Sound(run[|calls|]) && !call.Suspend?
    ensures Orderly(run + [w'], calls + [call], |calls| + 1)
  {
    forall i: nat | i < |calls| + 1
      ensures Sound((run + [w'])[i]) && !Disturbs((run + [w'])[i], (calls + [call])[i])
    {
      if i < |calls| {
        assert (run + [w'])[i] == run[i] && (calls + [call])[i] == calls[i];
      } else {
        assert (run + [w'])[i] == run[|calls|] && (calls + [call])[i] == call;
      }
    }
  }

  lemma HarmNow(w: World, call: Call, c: nat, luck: Luck) returns (run: seq<World>, calls: seq<Call>)
    requires WorldInv(w) && Callable(w, call) && call.Suspend? && c < 288
    requires MidSwitch(w, c, call.tid) && w.pending[c] != Some(call.tid) && !w.s.tcbs[call.tid].intent.ready
    ensures Follows(Apply(w, call), run, calls) && !Exact(run[|calls|].s)
  {
    var w2 := Shortens(w, call, c, luck);
    run, calls := OneFurther(Apply(w, call), ScheduleIn(c, true, luck), w2);
    ShortNotExact(w2.s, c);
  }

  lemma OneFurther(w: World, call: Call, w': World) returns (run: seq<World>, calls: seq<Call>)
    requires Step(w, call, w') && Sound(w) && !call.Suspend?
    ensures Follows(w, run, calls) && run[|calls|] == w'
  {
    FollowsStart(w);
    FollowsNext(w, [w], [], call, w');
    run, calls := [w] + [w'], [] + [call];
  }

  lemma Shortens(w: World, call: Call, c: nat, luck: Luck) returns (w2: World)
    requires WorldInv(w) && Callable(w, call) && call.Suspend? && c < 288
    requires MidSwitch(w, c, call.tid) && w.pending[c] != Some(call.tid) && !w.s.tcbs[call.tid].intent.ready
    ensures Sound(Apply(w, call)) && Step(Apply(w, call), ScheduleIn(c, true, luck), w2)
    ensures Shape(w2.s) && OneShort(w2.s, c)
  {
    DisturbedDrifts(w, call, c, true, luck);
    assert Apply(w, call).pending == w.pending;
    w2 := InWorld(Apply(w, call), c, luck);
  }

  lemma ShortNotExact(s: State, c: nat)
    requires Shape(s) && c < 288 && OneShort(s, c)
    ensures !Exact(s)
  {
    assert Known(RunnableOn(c));
  }

  /** The suspended thread was chosen again: the switch leaves it current on the blocked list, and its
      next block leaves the counter one short. */
  lemma HarmLater(w: World, call: Call, c: nat, luck: Luck) returns (run: seq<World>, calls: seq<Call>)
    requires WorldInv(w) && Callable(w, call) && call.Suspend? && c < 288
    requires MidSwitch(w, c, call.tid) && w.pending[c] == Some(call.tid) && !w.s.tcbs[call.tid].intent.ready
    ensures Follows(Apply(w, call), run, calls) && !Exact(run[|calls|].s)
  {
    var w2 := RunsOn(w, call, c, luck);
    run, calls := OneFurther(Apply(w, call), ScheduleIn(c, true, luck), w2);
    var w3 := BlocksAgain(w2, c, luck);
    FollowsNext(Apply(w, call), run, calls, Schedule(c, BLOCK, 0, luck, luck, true), w3);
    run, calls := run + [w3], calls + [Schedule(c, BLOCK, 0, luck, luck, true)];
    ShortNotExact(w3.s, c);
  }

  lemma RunsOn(w: World, call: Call, c: nat, luck: Luck) returns (w2: World)
    requires WorldInv(w) && Callable(w, call) && call.Suspend? && c < 288
    requires MidSwitch(w, c, call.tid) && w.pending[c] == Some(call.tid) && !w.s.tcbs[call.tid].intent.ready
    ensures Sound(Apply(w, call)) && Step(Apply(w, call), ScheduleIn(c, true, luck), w2)
    ensures Sound(w2) && w2.pending[c] == None && Inv(w2.s) && w2.s.running[c] == call.tid && 288 <= call.tid
    ensures w2.s.tcbs[call.tid].link == On(BlockedOn(c)) && w2.s.tcbs[call.tid].intent == Intention(false, false, false)
  {
    var t := call.tid;
    assert CoreOk(w, c);
    assert w.s.tcbs[t].intent == Intention(false, false, false);
    SuspendOwnChoice(w.s, c, call.core, true, luck);
    var w1 := Apply(w, call);
    AskIs(w.s, call.core, t, w.s.tcbs[t].intent.(blocked := true), call.won);
    AskIs(w.s, call.core, t, w.s.tcbs[t].intent.(blocked := true), true);
    w2 := InWorld(w1, c, luck);
  }

  lemma BlocksAgain(w: World, c: nat, luck: Luck) returns (w': World)
    requires Sound(w) && c < 288 && w.pending[c] == None && Inv(w.s) && 288 <= w.s.running[c]
    requires w.s.tcbs[w.s.running[c]].link == On(BlockedOn(c))
    requires w.s.tcbs[w.s.running[c]].intent == Intention(false, false, false)
    ensures Step(w, Schedule(c, BLOCK, 0, luck, luck, true), w') && Shape(w'.s) && OneShort(w'.s, c)
  {
    BlockedCurrentDrifts(w.s, c, 0, luck, luck, true);
    w' := Apply(w, Schedule(c, BLOCK, 0, luck, luck, true));
  }

  // ----- a wake-up at the wrong moment

  /** The blocked thread x on core c's runnable list again, ready and with nothing asked of it. */
  function Woken(x: Tcb, c: nat): Tcb {
    x.(link := On(RunnableOn(c)), state := Ready, intent := Intention(false, false, false))
  }

  lemma {:induction false} WakeAllTakes(s: State, c: nat, items: seq<nat>, luck: Luck, t: nat, x: Tcb)
    requires Lists(s) && c < 288 && Ahead(s, items, BlockedOn(c)) && t < |s.tcbs| && x.intent.ready && !x.intent.exited
    requires s.tcbs[t] == if t in items then x else Woken(x, c)
    ensures WakeAll(s, c, items, luck).tcbs[t] == Woken(x, c)
    decreases |items|
  {
    if items != [] {
      WakeOneChain(s, c, items[0], luck);
      var s1 := WakeOne(s, c, items[0], luck);
      if t == items[0] {
        UnblockChain(s, c, t);
      } else {
        assert Close(s.tcbs[t], s1.tcbs[t]) && (t in items <==> t in items[1..]);
      }
      AheadNext(s, s1, items, BlockedOn(c));
      assert t == items[0] ==> t !in items[1..];
      WakeAllTakes(s1, c, items[1..], luck, t, x);
    }
  }

  /** Everything after the handling of the previous thread wakes a thread that is asked to run. */
  lemma TailTakes(s: State, c: nat, won: bool, luck: Luck, t: nat)
    requires Lists(s) && c < 288 && t < |s.tcbs| && s.tcbs[t].link == On(BlockedOn(c)) && Drift(s, BlockedOn(c)) == 0
    requires s.tcbs[t].intent.ready && !s.tcbs[t].intent.exited
    ensures Wake(Pull(s, c, won), c, luck).tcbs[t] == Woken(s.tcbs[t], c)
  {
    PullStill(s, c, won, t);
    PullChain(s, c, won);
    var s1 := Pull(s, c, won);
    assert Drift(s1, BlockedOn(c)) == 0 && ListOk(s1, BlockedOn(c));
    ListAhead(s1, BlockedOn(c));
    WakeAllTakes(s1, c, s1.lists[BlockedOn(c)].items, luck, t, s.tcbs[t]);
  }

  /** post_context_switch makes a blocked thread that is asked to run runnable, iff it is not the very
      thread that the core switches from. That one stays blocked, and the request is gone. */
  lemma WakeExact(s: State, c: nat, p: nat, won: bool, luck: Luck, t: nat)
    requires Inv(s) && c < 288 && p < |s.tcbs| && Safe(s, c, p) && t < |s.tcbs|
    requires s.tcbs[t].link == On(BlockedOn(c)) && s.tcbs[t].intent.ready && !s.tcbs[t].intent.exited
    ensures var y := Post(s, c, p, won, luck).tcbs[t]; if t != p then y == Woken(s.tcbs[t], c) else Resting(y, c)
  {
    PostPrevChain(s, c, p, luck.free(p));
    var s1 := PostPrev(s, c, p, luck.free(p));
    assert ThreadAt(s, t) && Drift(s, BlockedOn(c)) == 0 && Drift(s1, BlockedOn(c)) == 0;
    if t == p {
      TailStill(s1, c, won, luck, t);
    } else {
      PostPrevElse(s, c, p, luck.free(p), t);
      TailTakes(s1, c, won, luck, t);
    }
  }

  lemma PostPrevElse(s: State, c: nat, p: nat, won: bool, t: nat)
    requires Lists(s) && c < 288 && p < |s.tcbs| && Safe(s, c, p) && t < |s.tcbs| && t != p && !OnFree(s.tcbs[t])
    ensures Still(s, PostPrev(s, c, p, won), t)
  {
    var x := s.tcbs[p];
    if Live(x.state) && !x.intent.ready {
      if x.intent.blocked {
        BlockChain(s, c, p);
        OthersStill(s, Block(s, c, p), p, t);
      } else if x.intent.exited && s.running[c] != p {
        LeaveChain(s, c, p, RunnableOn(c), won);
        OthersStill(s, Leave(s, c, p, RunnableOn(c), won), p, t);
      }
    }
  }

  /** When the current thread of core c blocks and another core wakes it up between the two halves of
      schedule, the wake-up is lost: the thread ends blocked, and nothing asks it to run. */
  lemma WakeUpLost(s: State, c: nat, consumed: int, luck: Luck, again: Luck, d: nat, won: bool)
    requires Inv(s) && c < 288 && d < 288 && 288 <= s.running[c]
    requires s.tcbs[s.running[c]].link == On(RunnableOn(c))
    requires s.tcbs[s.running[c]].intent == Intention(false, false, false)
    ensures var t := s.running[c];
            var (s1, next) := Choose(s, c, BLOCK, consumed, luck, again);
            && Gettable(s1, t) && next < |s1.tcbs|
            && var r := Switch(Ask(s1, d, t, s1.tcbs[t].intent.(ready := true), won), c, next, won, luck);
               Inv(r) && r.running[c] != t && Resting(r.tcbs[t], c)
  {
    var t := s.running[c];
    ChooseInv(s, c, BLOCK, consumed, luck, again);
    ChargeChain(s, c, BLOCK, consumed);
    SelectParks(Charge(s, c, BLOCK, consumed), c, luck, again);
    ChooseChain(s, c, BLOCK, consumed, luck, again);
    var (s1, next) := Choose(s, c, BLOCK, consumed, luck, again);
    WokenSwitch(s1, c, next, d, won, luck);
  }

  lemma WokenSwitch(s: State, c: nat, next: nat, d: nat, won: bool, luck: Luck)
    requires Inv(s) && c < 288 && d < 288 && 288 <= s.running[c] != next && next < |s.tcbs|
    requires Parked(s.tcbs[s.running[c]], c)
    ensures var t := s.running[c];
            var r := Switch(Ask(s, d, t, s.tcbs[t].intent.(ready := true), won), c, next, won, luck);
            Inv(r) && r.running[c] != t && Resting(r.tcbs[t], c)
  {
    var t := s.running[c];
    var intent := s.tcbs[t].intent.(ready := true);
    AskInv(s, d, t, intent, won);
    AskIs(s, d, t, intent, won);
    var s1 := Refill(WithIntent(s, t, intent), next);
    RefillInv(WithIntent(s, t, intent), next);
    EnterInv(s1, c, next);
    WakeExact(Enter(s1, c, next), c, t, won, luck, t);
    PostChain(Enter(s1, c, next), c, t, won, luck);
  }

  // ----- a run that gets there

  /** Block 288 is a ready thread for core 0 that runs nothing yet. */
  ghost predicate Fresh288(s: State, link: ListId)
    requires Shape(s)
  {
    && 288 < |s.tcbs| && s.running[0] == 0 && s.tcbs[0].intent == Intention(false, false, false)
    && s.tcbs[288].link == On(link) && s.tcbs[288].state == Ready && s.tcbs[288].slice == 10
    && 0 !in s.tcbs[288].forbidden && s.tcbs[288].runningCore == 0
    && s.tcbs[288].intent == Intention(false, false, false)
  }

  ghost predicate Holds(s: State, migrating: seq<nat>, runnable: seq<nat>)
    requires Shape(s)
  {
    && s.lists[Migrating] == CountedList(migrating, |migrating|)
    && s.lists[RunnableOn(0)] == CountedList(runnable, |runnable|)
    && s.lists[BlockedOn(0)] == CountedList([], 0)
  }

  lemma TakeStage(s: State)
    requires Shape(s) && 288 < |s.tcbs| && s.tcbs[288].link == On(GlobalFree) && Holds(s, [], [])
    ensures var r := Claim(Take(s, 288, GlobalFree), 288);
            Holds(r, [], []) && r.running == s.running && r.tcbs[0] == s.tcbs[0]
  {
  }

  lemma AllocStage(s: State)
    requires Initial(s) && 288 < |s.tcbs|
    ensures HasFree(s, 0)
    ensures var (r, found) := Alloc(s, 0);
            && found == Some(288) && Lists(r) && r.running[0] == 0 && Holds(r, [], [])
            && r.tcbs[0] == s.tcbs[0] && r.tcbs[288] == Fresh(s.tcbs[288])
  {
    AllocIs(s);
    TakeStage(s);
  }

  lemma AllocIs(s: State)
    requires Initial(s) && 288 < |s.tcbs|
    ensures Holds(s, [], []) && HasFree(s, 0)
    ensures Alloc(s, 0) == (Claim(Take(s, 288, GlobalFree), 288), Some(288))
    ensures Lists(Alloc(s, 0).0) && Alloc(s, 0).0.tcbs[288] == Fresh(s.tcbs[288])
  {
    InitialInv(s);
    InitialLists(s);
    AllocOk(s, 0);
  }

  lemma InitialLists(s: State)
    requires Initial(s) && 288 < |s.tcbs|
    ensures Holds(s, [], []) && s.lists[LocalFree(0)] == CountedList([], 0)
    ensures s.lists[GlobalFree].items != [] && s.lists[GlobalFree].items[0] == 288
  {
    assert Known(RunnableOn(0)) && Known(BlockedOn(0)) && Known(LocalFree(0));
  }

  lemma LaunchStage(s: State)
    requires Lists(s) && 288 < |s.tcbs| && s.running[0] == 0 && s.tcbs[0].intent == Intention(false, false, false)
    requires s.tcbs[288] == Fresh(s.tcbs[288]) && Holds(s, [], [])
    ensures var r := Launch(s, 288, 0); Fresh288(r, Migrating) && Holds(r, [288], [])
  {
    LaunchOk(s, 288, 0);
  }

  lemma CreateStage(s: State)
    requires Initial(s) && 288 < |s.tcbs|
    ensures HasFree(s, 0)
    ensures var r := Create(s, 0, 0, true); Fresh288(r, Migrating) && Holds(r, [288], [])
  {
    AllocStage(s);
    var s1 := Alloc(s, 0).0;
    LaunchStage(s1);
    CreateIs(s1, 0, 288, 0, true);
  }

  const READY := Intention(true, false, false)
  const BLOCK := Intention(false, true, false)

  lemma ChooseNobody(s: State, luck: Luck)
    requires Shape(s) && Fresh288(s, Migrating) && Holds(s, [288], [])
    ensures Choose(s, 0, READY, 0, luck, luck) == (Charge(s, 0, READY, 0), 0)
  {
  }

  lemma AdoptStage(s: State)
    requires Lists(s) && Fresh288(s, Migrating) && Holds(s, [288], [])
    ensures var r := Adopt(s, 0, 288);
            Fresh288(r, RunnableOn(0)) && Holds(r, [], [288]) && r.running == s.running && r.tcbs[0] == s.tcbs[0]
  {
    AdoptChain(s, 0, 288);
    AdoptLists(s, 288, []);
    assert Close(s.tcbs[0], Adopt(s, 0, 288).tcbs[0]);
    assert [] + [288] == [288];
  }

  lemma AdoptLists(s: State, t: nat, items: seq<nat>)
    requires Shape(s) && t < |s.tcbs| && s.tcbs[t].link == On(Migrating) && Holds(s, [t], items)
    ensures Holds(Adopt(s, 0, t), [], items + [t])
  {
    TakeLists(s, t, items);
    var s1 := Take(s, t, Migrating);
    var s2 := SetTcb(s1, t, s1.tcbs[t].(runningCore := 0));
    GiveIs(s2, t, RunnableOn(0));
  }

  lemma TakeLists(s: State, t: nat, items: seq<nat>)
    requires Shape(s) && t < |s.tcbs| && s.tcbs[t].link == On(Migrating) && Holds(s, [t], items)
    ensures Holds(Take(s, t, Migrating), [], items)
  {
    assert Without([t], t) == [];
    var s1 := Count(s, Migrating, -1);
    assert s1.lists[Migrating] == CountedList([t], 0);
  }

  /** Core 0 adopts the one thread that waits for it. */
  lemma PullStage(s: State, t: nat, items: seq<nat>)
    requires Shape(s) && t < |s.tcbs| && s.tcbs[t].link == On(Migrating) && s.tcbs[t].runningCore == 0
    requires Holds(s, [t], items) && |items| < 2
    ensures Pull(s, 0, true) == Adopt(s, 0, t)
  {
    AdoptLists(s, t, items);
    var r := Adopt(s, 0, t);
    assert [t][1..] == [];
    assert AdoptOwn(r, 0, []) == (r, false);
    assert AdoptOwn(s, 0, [t]) == (r, false);
  }

  /** Core 0 takes the new thread over while it runs its idle thread. */
  lemma FirstSwitch(s: State, luck: Luck)
    requires Inv(s) && Fresh288(s, Migrating) && Holds(s, [288], [])
    ensures var r := Switch(Charge(s, 0, READY, 0), 0, 0, true, luck);
            Fresh288(r, RunnableOn(0)) && Holds(r, [], [288])
  {
    assert ThreadAt(s, 0);
    ChargeChain(s, 0, READY, 0);
    var s1 := Refill(Charge(s, 0, READY, 0), 0);
    RefillChain(Charge(s, 0, READY, 0), 0);
    FirstPost(s1, luck);
  }

  lemma FirstPost(s: State, luck: Luck)
    requires Lists(s) && 288 < |s.tcbs| && s.running[0] == 0 && s.tcbs[0].intent == READY && Live(s.tcbs[0].state)
    requires Fresh288(s.(tcbs := s.tcbs[0 := s.tcbs[0].(intent := Intention(false, false, false))]), Migrating)
    requires Holds(s, [288], [])
    ensures var r := Resume(Post(s, 0, 0, true, luck), 0);
            Fresh288(r, RunnableOn(0)) && Holds(r, [], [288])
  {
    var x := s.tcbs[0].(state := Ready, intent := Intention(false, false, false));
    SetChain(s, 0, x);
    var s1 := PostPrev(s, 0, 0, luck.free(0));
    assert s1 == SetTcb(s, 0, x);
    PullStage(s1, 288, []);
    AdoptStage(s1);
  }

  lemma ChooseThread(s: State, luck: Luck)
    requires Shape(s) && Fresh288(s, RunnableOn(0)) && Holds(s, [], [288])
    ensures var s1 := Charge(s, 0, READY, 0);
            Choose(s, 0, READY, 0, luck, luck) == (SetTcb(s1, 288, s1.tcbs[288].(state := Running)), 288)
  {
    var s1 := Charge(s, 0, READY, 0);
    var s2 := SetTcb(s1, 288, s1.tcbs[288].(state := Running));
    assert [288][1..] == [];
    assert Visit(s1, 0, 288, None, luck) == (s2, Some(288));
    assert Pass(s2, 0, [], Some(288), luck) == (s2, Some(288), false);
    assert Pass(s1, 0, [288], None, luck) == (s2, Some(288), false);
  }

  /** Core 0 switches from its idle thread to the new one. */
  lemma SecondSwitch(s: State, luck: Luck)
    requires Shape(s) && 288 < |s.tcbs| && s.running[0] == 0 && s.tcbs[0].intent == READY && Live(s.tcbs[0].state)
    requires s.tcbs[288].link == On(RunnableOn(0)) && s.tcbs[288].intent == Intention(false, false, false)
    requires s.tcbs[288].state == Running && s.tcbs[288].slice == 10 && Holds(s, [], [288])
    ensures var r := Switch(s, 0, 288, true, luck);
            && r.running[0] == 288 && r.tcbs[288] == s.tcbs[288].(runningCore := 0) && Holds(r, [], [288])
  {
    var s1 := Enter(Refill(s, 288), 0, 288);
    var s2 := PostPrev(s1, 0, 0, luck.free(0));
    assert s2.lists == s.lists;
    assert Pull(s2, 0, true) == s2 && Wake(s2, 0, luck) == s2;
  }

  /** Block 289, if there is one, is free. */
  predicate Spare(s: State) {
    289 < |s.tcbs| ==> s.tcbs[289].link == On(GlobalFree)
  }

  lemma GentleSpare(s: State, r: State, touched: set<ListId>)
    requires Gentle(s, r, touched) && Spare(s)
    ensures Spare(r)
  {
    if 289 < |s.tcbs| { assert Spared(289, s.tcbs[289], r.tcbs[289], touched); }
  }

  lemma CreateSpare(s: State)
    requires Initial(s) && 288 < |s.tcbs|
    ensures Spare(Create(s, 0, 0, true)) && |Create(s, 0, 0, true).tcbs| == |s.tcbs|
  {
    AllocIs(s);
    InitialInv(s);
    CreateInv(s, 0, 0, true);
    if 289 < |s.tcbs| { assert Close(s.tcbs[289], Create(s, 0, 0, true).tcbs[289]); }
  }

  lemma CreateWorld(w: World) returns (w': World)
    requires Start(w) && 288 < |w.s.tcbs|
    ensures Step(w, CreateThread(0, 0, true), w') && WorldInv(w') && w'.pending == w.pending
    ensures Fresh288(w'.s, Migrating) && Holds(w'.s, [288], []) && Spare(w'.s) && |w'.s.tcbs| == |w.s.tcbs|
  {
    StartInv(w);
    CreateStage(w.s);
    CreateSpare(w.s);
    var call := CreateThread(0, 0, true);
    w' := Apply(w, call);
    StepKeepsInv(w, call);
  }

  /** One whole schedule of core 0, as a step of the run. */
  lemma ScheduleWorld(w: World, luck: Luck) returns (w': World)
    requires WorldInv(w) && w.pending[0] == None
    ensures Step(w, Schedule(0, READY, 0, luck, luck, true), w') && WorldInv(w') && w'.pending == w.pending
    ensures var (s1, next) := Choose(w.s, 0, READY, 0, luck, luck); w'.s == Switch(s1, 0, next, true, luck)
    ensures |w'.s.tcbs| == |w.s.tcbs| && (Spare(w.s) ==> Spare(w'.s))
  {
    ScheduleStep(w, 0, READY, 0, luck, luck, true);
    assert CoreOk(w, 0);
    ScheduleGentle(w.s, 0, READY, 0, luck, luck, true);
    w' := Apply(w, Schedule(0, READY, 0, luck, luck, true));
    if Spare(w.s) { GentleSpare(w.s, w'.s, Own(0)); }
  }

  lemma AdoptWorld(w: World, luck: Luck) returns (w': World)
    requires WorldInv(w) && w.pending[0] == None && Fresh288(w.s, Migrating) && Holds(w.s, [288], []) && Spare(w.s)
    ensures Step(w, Schedule(0, READY, 0, luck, luck, true), w') && WorldInv(w') && w'.pending == w.pending
    ensures Fresh288(w'.s, RunnableOn(0)) && Holds(w'.s, [], [288]) && Spare(w'.s) && |w'.s.tcbs| == |w.s.tcbs|
  {
    w' := ScheduleWorld(w, luck);
    ChooseNobody(w.s, luck);
    FirstSwitch(w.s, luck);
  }

  /** Block 288 runs on core 0, and nobody has asked it anything. */
  ghost predicate Runs288(s: State) {
    && Inv(s) && 288 < |s.tcbs| && s.running[0] == 288 && s.tcbs[288].link == On(RunnableOn(0))
    && s.tcbs[288].intent == Intention(false, false, false) && s.tcbs[288].state == Running && s.tcbs[288].slice == 10
    && Holds(s, [], [288])
  }

  lemma EnterWorld(w: World, luck: Luck) returns (w': World)
    requires WorldInv(w) && w.pending[0] == None && Fresh288(w.s, RunnableOn(0)) && Holds(w.s, [], [288]) && Spare(w.s)
    ensures Step(w, Schedule(0, READY, 0, luck, luck, true), w') && w'.pending == w.pending && Runs288(w'.s)
    ensures WorldInv(w') && Spare(w'.s) && |w'.s.tcbs| == |w.s.tcbs|
  {
    assert ThreadAt(w.s, 0);
    ChooseThread(w.s, luck);
    SecondSwitch(Choose(w.s, 0, READY, 0, luck, luck).0, luck);
    w' := ScheduleWorld(w, luck);
  }

  /** What the suspended switch does, as steps of the run. */
  lemma BlockWorld(w: World, luck: Luck) returns (w1: World)
    requires Sound(w) && w.pending[0] == None && w.pending[1] == None && Runs288(w.s)
    ensures Step(w, ScheduleOut(0, BLOCK, 0, luck, luck), w1)
    ensures Sound(w1) && Inv(w1.s) && Gettable(w1.s, 288) && w1.pending[1] == None && w1.pending[0].Some?
    ensures var s2 := Ask(w1.s, 1, 288, w1.s.tcbs[288].intent.(blocked := true), true);
            w1.pending[0].value < |s2.tcbs| && OneShort(Switch(s2, 0, w1.pending[0].value, true, luck), 0)
  {
    w1 := OutWorld(w, luck);
    SuspendDuringSwitch(w.s, 0, 0, luck, luck, 1, true);
  }

  lemma OutWorld(w: World, luck: Luck) returns (w1: World)
    requires Sound(w) && w.pending[0] == None && w.s.running[0] == 288
    ensures Step(w, ScheduleOut(0, BLOCK, 0, luck, luck), w1) && Sound(w1)
    ensures var (s1, next) := Choose(w.s, 0, BLOCK, 0, luck, luck); w1 == World(s1, w.pending[0 := Some(next)])
  {
    w1 := Apply(w, ScheduleOut(0, BLOCK, 0, luck, luck));
  }

  lemma SuspendWorld(w: World, luck: Luck) returns (w1: World)
    requires Sound(w) && Gettable(w.s, 288) && w.pending[1] == None
    ensures Step(w, Suspend(1, 288, true), w1) && Sound(w1) && w1.pending == w.pending
    ensures w1.s == Ask(w.s, 1, 288, w.s.tcbs[288].intent.(blocked := true), true)
  {
    w1 := Apply(w, Suspend(1, 288, true));
  }

  lemma InWorld(w: World, c: nat, luck: Luck) returns (w1: World)
    requires Sound(w) && c < 288 && w.pending[c].Some?
    ensures Step(w, ScheduleIn(c, true, luck), w1) && Sound(w1)
    ensures w1 == World(Switch(w.s, c, w.pending[c].value, true, luck), w.pending[c := None])
  {
    w1 := Apply(w, ScheduleIn(c, true, luck));
  }

  /** The calls up to the moment at which block 288 runs on core 0. */
  lemma ReachRunning(w0: World, luck: Luck) returns (run: seq<World>, calls: seq<Call>)
    requires Start(w0) && 288 < |w0.s.tcbs|
    ensures Path(Step, run, calls) && run[0] == w0
    ensures var w := run[|calls|];
            WorldInv(w) && w.pending == w0.pending && Runs288(w.s) && Spare(w.s) && |w.s.tcbs| == |w0.s.tcbs|
  {
    var w1 := CreateWorld(w0);
    Extend(Step, [w0], [], CreateThread(0, 0, true), w1);
    run, calls := [w0] + [w1], [] + [CreateThread(0, 0, true)];
    run, calls := ReachAdopted(run, calls, luck);
    var w3 := EnterWorld(run[|calls|], luck);
    Extend(Step, run, calls, Schedule(0, READY, 0, luck, luck, true), w3);
    run, calls := run + [w3], calls + [Schedule(0, READY, 0, luck, luck, true)];
  }

  lemma ReachAdopted(run: seq<World>, calls: seq<Call>, luck: Luck) returns (run': seq<World>, calls': seq<Call>)
    requires Path(Step, run, calls)
    requires var w := run[|calls|];
             WorldInv(w) && w.pending[0] == None && Fresh288(w.s, Migrating) && Holds(w.s, [288], []) && Spare(w.s)
    ensures Path(Step, run', calls') && run'[0] == run[0]
    ensures var w := run'[|calls'|];
            && WorldInv(w) && w.pending == run[|calls|].pending && |w.s.tcbs| == |run[|calls|].s.tcbs|
            && Fresh288(w.s, RunnableOn(0)) && Holds(w.s, [], [288]) && Spare(w.s)
  {
    var w := AdoptWorld(run[|calls|], luck);
    Extend(Step, run, calls, Schedule(0, READY, 0, luck, luck, true), w);
    run', calls' := run + [w], calls + [Schedule(0, READY, 0, luck, luck, true)];
  }

  lemma ReachDrift(run: seq<World>, calls: seq<Call>, luck: Luck) returns (run': seq<World>, calls': seq<Call>)
    requires Path(Step, run, calls)
    requires var w := run[|calls|]; Sound(w) && w.pending[0] == None && w.pending[1] == None && Runs288(w.s)
    ensures Path(Step, run', calls') && run'[0] == run[0]
    ensures Shape(run'[|calls'|].s) && OneShort(run'[|calls'|].s, 0)
  {
    var w1 := BlockWorld(run[|calls|], luck);
    Extend(Step, run, calls, ScheduleOut(0, BLOCK, 0, luck, luck), w1);
    run', calls' := run + [w1], calls + [ScheduleOut(0, BLOCK, 0, luck, luck)];
    run', calls' := ReachSuspended(run', calls', luck);
  }

  lemma ReachSuspended(run: seq<World>, calls: seq<Call>, luck: Luck) returns (run': seq<World>, calls': seq<Call>)
    requires Path(Step, run, calls)
    requires var w := run[|calls|];
             && Sound(w) && Inv(w.s) && Gettable(w.s, 288) && w.pending[1] == None && w.pending[0].Some?
             && var s2 := Ask(w.s, 1, 288, w.s.tcbs[288].intent.(blocked := true), true);
                w.pending[0].value < |s2.tcbs| && OneShort(Switch(s2, 0, w.pending[0].value, true, luck), 0)
    ensures Path(Step, run', calls') && run'[0] == run[0]
    ensures Shape(run'[|calls'|].s) && OneShort(run'[|calls'|].s, 0)
  {
    var w2 := SuspendWorld(run[|calls|], luck);
    Extend(Step, run, calls, Suspend(1, 288, true), w2);
    run', calls' := run + [w2], calls + [Suspend(1, 288, true)];
    var w3 := InWorld(w2, 0, luck);
    Extend(Step, run', calls', ScheduleIn(0, true, luck), w3);
    run', calls' := run' + [w3], calls' + [ScheduleIn(0, true, luck)];
  }

  /** A run from the initial state, with one thread and one suspension at the wrong moment, that ends
      with core 0's runnable counter one short. */
  lemma DriftReached(w0: World, luck: Luck) returns (run: seq<World>, calls: seq<Call>)
    requires Start(w0) && 288 < |w0.s.tcbs|
    ensures Run(run, calls) && run[0] == w0 && Shape(run[|calls|].s) && OneShort(run[|calls|].s, 0)
  {
    run, calls := ReachRunning(w0, luck);
    run, calls := ReachDrift(run, calls, luck);
  }
}
