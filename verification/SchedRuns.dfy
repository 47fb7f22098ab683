/** Runs of the scheduler on all cores: every block stays in one place, every counter right, every
    reference accounted for, and every core's current thread its own. */
module SchedRuns {
  import opened Options
  import opened Seqs
  import opened SchedSpec
  import opened SchedInv
  import opened SchedSteps
  import opened SchedOps
  import opened SchedCurrent
  import opened Paths

  /** The state and, for each core between the halves of schedule, the thread it has chosen. */
  datatype World = World(s: State, pending: seq<Option<nat>>)

  /** Calls by a core. Schedule is the whole of schedule; ScheduleOut and ScheduleIn are its two
      halves, between which other cores may act. */
  datatype Call =
    | CreateThread(core: nat, target: int, won: bool)
    | GetRef(core: nat, tid: nat)
    | PutRef(core: nat, tid: nat, won: bool)
    | Suspend(core: nat, tid: nat, won: bool)
    | WakeUp(core: nat, tid: nat, won: bool)
    | ExitSelf(core: nat, won: bool)
    | Schedule(core: nat, intent: Intention, consumed: int, luck: Luck, again: Luck, won: bool)
    | ScheduleOut(core: nat, intent: Intention, consumed: int, luck: Luck, again: Luck)
    | ScheduleIn(core: nat, won: bool, luck: Luck)

  ghost predicate Sound(w: World) {
    && Shape(w.s) && |w.pending| == 288
    && forall c :: 0 <= c < 288 && w.pending[c].Some? ==> w.pending[c].value < |w.s.tcbs|
  }

  /** What callers owe: a core that is between the halves of schedule makes no other call, a create
      finds a free block, a put gives back a reference that was handed out, requests name an allocated
      thread, and an idle thread gives up the processor only to run again, as the timer does. */
  ghost predicate Callable(w: World, call: Call)
    requires Sound(w)
  {
    && call.core < 288 && (w.pending[call.core].Some? <==> call.ScheduleIn?)
    && match call
       case CreateThread(c, _, _) => HasFree(w.s, c)
       case PutRef(_, t, _) => t < |w.s.tcbs| && w.s.gets[t] > 0
       case Suspend(_, t, _) => Gettable(w.s, t)
       case WakeUp(_, t, _) => Gettable(w.s, t)
       case ExitSelf(c, _) => Gettable(w.s, w.s.running[c])
       case Schedule(c, intent, _, _, _, _) => w.s.running[c] == c ==> intent.ready
       case ScheduleOut(c, intent, _, _, _) => w.s.running[c] == c ==> intent.ready
       case _ => true
  }

  ghost function Apply(w: World, call: Call): (r: World)
    requires Sound(w) && Callable(w, call)
    ensures Sound(r)
  {
    var s := w.s;
    match call
    case CreateThread(c, target, won) => w.(s := Create(s, c, target, won))
    case GetRef(_, t) => w.(s := GetTcb(s, t))
    case PutRef(c, t, won) => w.(s := PutTcb(s, c, t, won))
    case Suspend(c, t, won) => w.(s := Ask(s, c, t, s.tcbs[t].intent.(blocked := true), won))
    case WakeUp(c, t, won) => w.(s := Ask(s, c, t, s.tcbs[t].intent.(ready := true), won))
    case ExitSelf(c, won) => w.(s := Ask(s, c, s.running[c], Intention(false, false, true), won))
    case Schedule(c, intent, consumed, luck, again, won) =>
      var (s1, next) := Choose(s, c, intent, consumed, luck, again);
      w.(s := Switch(s1, c, next, won, luck))
    case ScheduleOut(c, intent, consumed, luck, again) =>
      var (s1, next) := Choose(s, c, intent, consumed, luck, again);
      World(s1, w.pending[c := Some(next)])
    case ScheduleIn(c, won, luck) =>
      World(Switch(s, c, w.pending[c].value, won, luck), w.pending[c := None])
  }

  /** The call asks a thread to block that its core is just switching and that is not asked to run. */
  ghost predicate Disturbs(w: World, call: Call)
    requires Sound(w)
  {
    call.Suspend? && call.tid < |w.s.tcbs| && !w.s.tcbs[call.tid].intent.ready && exists c :: MidSwitch(w, c, call.tid)
  }

  /** Core c is between the halves of schedule, t is its current thread, and t was chosen again or is
      no longer on the core's runnable list. */
  predicate MidSwitch(w: World, c: int, t: nat) {
    && 0 <= c < |w.pending| && c < |w.s.running| && t < |w.s.tcbs|
    && w.pending[c].Some? && w.s.running[c] == t
    && (w.pending[c] == Some(t) || w.s.tcbs[t].link != On(RunnableOn(c)))
  }

  /** Each core is where it should be. */
  ghost predicate CoreOk(w: World, c: nat)
    requires Sound(w) && c < 288
  {
    match w.pending[c]
    case None => Current(w.s, c)
    case Some(next) => Between(w.s, c, next)
  }

  ghost predicate WorldInv(w: World) {
    && Sound(w) && Inv(w.s) && Homes(w.s)
    && forall c: nat {:trigger CoreOk(w, c)} :: c < 288 ==> CoreOk(w, c)
  }

  // ----- what a call of one core does to the others

  /** Core c, whose lists are not touched, stays where it should be. */
  lemma CoreKept(w: World, w': World, touched: set<ListId>, c: nat)
    requires Sound(w) && Sound(w') && Threads(w.s) && c < 288 && CoreOk(w, c)
    requires w'.pending[c] == w.pending[c] && w'.s.running[c] == w.s.running[c]
    requires Gentle(w.s, w'.s, touched) && RunnableOn(c) !in touched && BlockedOn(c) !in touched
    ensures CoreOk(w', c)
  {
    var t := w.s.running[c];
    IdleOwner(w.s, c);
    assert Spared(t, w.s.tcbs[t], w'.s.tcbs[t], touched);
    if w.pending[c].Some? {
      var next := w.pending[c].value;
      assert Spared(next, w.s.tcbs[next], w'.s.tcbs[next], touched);
    }
  }

  /** A call of core d that touches only its own lists keeps the world in order. */
  lemma CallInv(w: World, w': World, d: nat)
    requires WorldInv(w) && Sound(w') && Inv(w'.s) && Gentle(w.s, w'.s, Own(d))
    requires forall c :: 0 <= c < 288 && c != d ==> w'.pending[c] == w.pending[c] && w'.s.running[c] == w.s.running[c]
    requires d < 288 ==> CoreOk(w', d)
    ensures WorldInv(w')
  {
    GentleHomes(w.s, w'.s, Own(d));
    forall c: nat | c < 288 ensures CoreOk(w', c) {
      if c != d {
        assert CoreOk(w, c);
        CoreKept(w, w', Own(d), c);
      }
    }
  }

  /** A call that touches no core's lists. Core 288 does not exist. */
  lemma QuietCall(w: World, r: State)
    requires WorldInv(w) && Sound(w.(s := r)) && Inv(r) && Gentle(w.s, r, {}) && r.running == w.s.running
    ensures WorldInv(w.(s := r))
  {
    GentleMore(w.s, r, {}, Own(288));
    CallInv(w, w.(s := r), 288);
  }

  // ----- each call

  lemma CreateStep(w: World, c: nat, target: int, won: bool)
    requires WorldInv(w) && c < 288 && HasFree(w.s, c)
    ensures WorldInv(w.(s := Create(w.s, c, target, won)))
  {
    CreateInv(w.s, c, target, won);
    var t := Alloc(w.s, c).1.value;
    assert ThreadAt(w.s, t);
    NewThread(w, Create(w.s, c, target, won), t);
  }

  /** A thread made from a free block disturbs nobody. */
  lemma NewThread(w: World, r: State, t: nat)
    requires WorldInv(w) && Inv(r) && 288 <= t < |w.s.tcbs| && Others(w.s, r, t) && OnFree(w.s.tcbs[t]) && AtHome(t, r.tcbs[t])
    ensures WorldInv(w.(s := r))
  {
    forall u: nat | u < |r.tcbs| ensures AtHome(u, r.tcbs[u]) {
      assert AtHome(u, w.s.tcbs[u]);
      if u != t { assert Close(w.s.tcbs[u], r.tcbs[u]); }
    }
    forall c: nat | c < 288 ensures CoreOk(w.(s := r), c) {
      assert CoreOk(w, c);
      KeptThread(w.s, r, t, w.s.running[c]);
      if w.pending[c].Some? { KeptThread(w.s, r, t, w.pending[c].value); }
    }
  }

  lemma KeptThread(s: State, r: State, t: nat, u: nat)
    requires Shape(s) && Shape(r) && Threads(s) && t < |s.tcbs| && u < |s.tcbs| && Others(s, r, t) && OnFree(s.tcbs[t])
    ensures !OnFree(s.tcbs[u]) ==> r.tcbs[u] == s.tcbs[u]
    ensures u < 288 ==> r.tcbs[u] == s.tcbs[u]
  {
    assert ThreadAt(s, u);
    if u != t { assert Close(s.tcbs[u], r.tcbs[u]); }
  }

  lemma GetStep(w: World, t: nat)
    requires WorldInv(w)
    ensures WorldInv(w.(s := GetTcb(w.s, t)))
  {
    GetInv(w.s, t);
    var r := GetTcb(w.s, t);
    assert Gentle(w.s, r, {});
    QuietCall(w, r);
  }

  lemma PutStep(w: World, c: nat, t: nat, won: bool)
    requires WorldInv(w) && c < 288 && t < |w.s.tcbs| && w.s.gets[t] > 0
    ensures WorldInv(w.(s := PutTcb(w.s, c, t, won)))
  {
    PutInv(w.s, c, t, won);
    var r := PutTcb(w.s, c, t, won);
    assert ThreadAt(w.s, t);
    GentleOne(w.s, r, t, {});
    QuietCall(w, r);
  }

  /** A request that leaves the asked thread calm where that matters keeps the world in order. */
  lemma AskStep(w: World, c: nat, t: nat, intent: Intention, won: bool)
    requires WorldInv(w) && c < 288 && Gettable(w.s, t)
    requires forall d: nat {:trigger CoreOk(w, d)} :: d < 288 ==> CoreOk(w.(s := WithIntent(w.s, t, intent)), d)
    ensures WorldInv(w.(s := Ask(w.s, c, t, intent, won)))
  {
    AskInv(w.s, c, t, intent, won);
    AskIs(w.s, c, t, intent, won);
    var r := WithIntent(w.s, t, intent);
    forall u: nat | u < |r.tcbs| ensures AtHome(u, r.tcbs[u]) { assert AtHome(u, w.s.tcbs[u]); }
    forall d: nat | d < 288 ensures CoreOk(w.(s := r), d) { assert CoreOk(w, d); }
  }

  lemma SuspendStep(w: World, c: nat, t: nat, won: bool)
    requires WorldInv(w) && c < 288 && Gettable(w.s, t) && !Disturbs(w, Suspend(c, t, won))
    ensures WorldInv(w.(s := Ask(w.s, c, t, w.s.tcbs[t].intent.(blocked := true), won)))
  {
    var intent := w.s.tcbs[t].intent.(blocked := true);
    forall d: nat | d < 288 ensures CoreOk(w.(s := WithIntent(w.s, t, intent)), d) {
      assert CoreOk(w, d);
      assert !w.s.tcbs[t].intent.ready ==> !MidSwitch(w, d, t);
    }
    AskStep(w, c, t, intent, won);
  }

  lemma WakeUpStep(w: World, c: nat, t: nat, won: bool)
    requires WorldInv(w) && c < 288 && Gettable(w.s, t)
    ensures WorldInv(w.(s := Ask(w.s, c, t, w.s.tcbs[t].intent.(ready := true), won)))
  {
    var intent := w.s.tcbs[t].intent.(ready := true);
    forall d: nat | d < 288 ensures CoreOk(w.(s := WithIntent(w.s, t, intent)), d) { assert CoreOk(w, d); }
    AskStep(w, c, t, intent, won);
  }

  lemma ExitStep(w: World, c: nat, won: bool)
    requires WorldInv(w) && c < 288 && w.pending[c].None? && Gettable(w.s, w.s.running[c])
    ensures WorldInv(w.(s := Ask(w.s, c, w.s.running[c], Intention(false, false, true), won)))
  {
    var t, intent := w.s.running[c], Intention(false, false, true);
    forall d: nat | d < 288 ensures CoreOk(w.(s := WithIntent(w.s, t, intent)), d) {
      assert CoreOk(w, d);
      if d != c { OneCore(w, c, d); }
    }
    AskStep(w, c, t, intent, won);
  }

  /** No thread is current on two cores. */
  lemma OneCore(w: World, c: nat, d: nat)
    requires WorldInv(w) && c < 288 && d < 288 && c != d
    ensures w.s.running[c] != w.s.running[d]
  {
    assert CoreOk(w, c) && CoreOk(w, d);
  }

  /** The core that the current thread names as its own is the core it runs on, which is where the
      kernel's code takes the core number from. */
  lemma CoreNumber(w: World, c: nat)
    requires WorldInv(w) && c < 288
    ensures w.s.tcbs[w.s.running[c]].runningCore == c
  {
    assert CoreOk(w, c) && AtHome(w.s.running[c], w.s.tcbs[w.s.running[c]]);
  }

  lemma OutStep(w: World, c: nat, intent: Intention, consumed: int, luck: Luck, again: Luck)
    requires WorldInv(w) && c < 288 && w.pending[c].None? && (w.s.running[c] == c ==> intent.ready)
    ensures var (s1, next) := Choose(w.s, c, intent, consumed, luck, again);
            WorldInv(World(s1, w.pending[c := Some(next)]))
  {
    assert CoreOk(w, c);
    ChooseInv(w.s, c, intent, consumed, luck, again);
    ChooseBetween(w.s, c, intent, consumed, luck, again);
    var (s1, next) := Choose(w.s, c, intent, consumed, luck, again);
    CallInv(w, World(s1, w.pending[c := Some(next)]), c);
  }

  lemma AfterSwitch(w: World, c: nat, won: bool, luck: Luck)
    requires WorldInv(w) && c < 288 && w.pending[c].Some?
    ensures var r := Switch(w.s, c, w.pending[c].value, won, luck);
            && Inv(r) && Gentle(w.s, r, Own(c)) && r.running == w.s.running[c := w.pending[c].value] && Current(r, c)
  {
    assert CoreOk(w, c);
    SwitchCurrent(w.s, c, w.pending[c].value, won, luck);
  }

  lemma InStep(w: World, c: nat, won: bool, luck: Luck)
    requires WorldInv(w) && c < 288 && w.pending[c].Some?
    ensures WorldInv(World(Switch(w.s, c, w.pending[c].value, won, luck), w.pending[c := None]))
  {
    AfterSwitch(w, c, won, luck);
    CallInv(w, World(Switch(w.s, c, w.pending[c].value, won, luck), w.pending[c := None]), c);
  }

  /** The whole of schedule, from any state in order. */
  lemma ScheduleStep(w: World, c: nat, intent: Intention, consumed: int, luck: Luck, again: Luck, won: bool)
    requires WorldInv(w) && c < 288 && w.pending[c].None? && (w.s.running[c] == c ==> intent.ready)
    ensures var (s1, next) := Choose(w.s, c, intent, consumed, luck, again);
            WorldInv(w.(s := Switch(s1, c, next, won, luck)))
  {
    OutStep(w, c, intent, consumed, luck, again);
    var (s1, next) := Choose(w.s, c, intent, consumed, luck, again);
    var w1 := World(s1, w.pending[c := Some(next)]);
    InStep(w1, c, won, luck);
    assert w1.pending[c := None] == w.pending;
  }

  ghost predicate AllCurrent(s: State)
    requires Shape(s)
  {
    forall c: nat {:trigger Current(s, c)} :: c < 288 ==> Current(s, c)
  }

  /** The whole of schedule keeps the invariant, every core's current thread its own and every thread
      at home, whatever the caller's intention and whatever the locks do; only an idle thread must ask
      to run again. */
  lemma ScheduleKeeps(s: State, c: nat, intent: Intention, consumed: int, luck: Luck, again: Luck, won: bool)
    requires Inv(s) && Homes(s) && AllCurrent(s) && c < 288 && (s.running[c] == c ==> intent.ready)
    ensures var (s1, next) := Choose(s, c, intent, consumed, luck, again);
            var r := Switch(s1, c, next, won, luck);
            Inv(r) && Homes(r) && AllCurrent(r) && r.running == s.running[c := next]
  {
    var w := World(s, seq(288, _ => None));
    forall d: nat | d < 288 ensures CoreOk(w, d) { assert Current(s, d); }
    ScheduleStep(w, c, intent, consumed, luck, again, won);
    var (s1, next) := Choose(s, c, intent, consumed, luck, again);
    var r := Switch(s1, c, next, won, luck);
    forall d: nat | d < 288 ensures Current(r, d) { assert CoreOk(w.(s := r), d); }
    ScheduleRunning(s, c, intent, consumed, luck, again, won);
  }

  lemma ScheduleRunning(s: State, c: nat, intent: Intention, consumed: int, luck: Luck, again: Luck, won: bool)
    requires Inv(s) && Homes(s) && c < 288 && Current(s, c) && (s.running[c] == c ==> intent.ready)
    ensures var (s1, next) := Choose(s, c, intent, consumed, luck, again);
            Switch(s1, c, next, won, luck).running == s.running[c := next]
  {
    ChooseInv(s, c, intent, consumed, luck, again);
    ChooseBetween(s, c, intent, consumed, luck, again);
    var (s1, next) := Choose(s, c, intent, consumed, luck, again);
    SwitchCurrent(s1, c, next, won, luck);
  }

  lemma StepKeepsInv(w: World, call: Call)
    requires WorldInv(w) && Callable(w, call) && !Disturbs(w, call)
    ensures WorldInv(Apply(w, call))
  {
    match call
    case CreateThread(c, target, won) => CreateStep(w, c, target, won);
    case GetRef(_, t) => GetStep(w, t);
    case PutRef(c, t, won) => PutStep(w, c, t, won);
    case Suspend(c, t, won) => SuspendStep(w, c, t, won);
    case WakeUp(c, t, won) => WakeUpStep(w, c, t, won);
    case ExitSelf(c, won) => ExitStep(w, c, won);
    case Schedule(c, intent, consumed, luck, again, won) => ScheduleStep(w, c, intent, consumed, luck, again, won);
    case ScheduleOut(c, intent, consumed, luck, again) => OutStep(w, c, intent, consumed, luck, again);
    case ScheduleIn(c, won, luck) => InStep(w, c, won, luck);
  }

  // ----- runs

  /** After thread_init, sched_init and setup_idle_thread on every core: every block is free, every
      core runs its idle thread. */
  ghost predicate Initial(s: State) {
    && Shape(s) && !s.halted && (forall c :: 0 <= c < 288 ==> s.running[c] == c)
    && (forall t :: 0 <= t < 288 ==>
          && s.tcbs[t].link == Off && s.tcbs[t].state == Running && s.tcbs[t].refc == 1 && s.gets[t] == 0
          && s.tcbs[t].intent == Intention(false, false, false) && s.tcbs[t].runningCore == t)
    && (forall t :: 288 <= t < |s.tcbs| ==>
          && s.tcbs[t].state == NotAlloc && s.tcbs[t].refc == 0 && s.tcbs[t].gen == 0
          && s.tcbs[t].link == On(GlobalFree) && s.gets[t] == 0 && s.allocs[t] == 0)
    && s.lists[GlobalFree] == CountedList(seq(|s.tcbs| - 288, i requires i >= 0 => 288 + i), |s.tcbs| - 288)
    && (forall id :: Known(id) && id != GlobalFree ==> s.lists[id] == CountedList([], 0))
  }

  lemma InitialInv(s: State)
    requires Initial(s)
    ensures Inv(s)
  {
    forall id | Known(id) ensures ListOk(s, id) {
      if id == GlobalFree { InitialFree(s); }
    }
    forall t: nat | t < |s.tcbs| ensures ThreadAt(s, t) {}
    forall c: nat | c < 288 ensures Load(s, c) <= 2048 {
      assert Known(RunnableOn(c)) && Known(BlockedOn(c));
    }
  }

  lemma InitialFree(s: State)
    requires Initial(s)
    ensures ListOk(s, GlobalFree)
  {
    var items := s.lists[GlobalFree].items;
    forall t: nat ensures t in items <==> t < |s.tcbs| && s.tcbs[t].link == On(GlobalFree) {
      if 288 <= t < |s.tcbs| { assert items[t - 288] == t; }
    }
  }

  ghost predicate Step(w: World, call: Call, w': World) {
    Sound(w) && Callable(w, call) && w' == Apply(w, call)
  }

  ghost predicate Start(w: World) {
    Initial(w.s) && |w.pending| == 288 && forall c :: 0 <= c < 288 ==> w.pending[c] == None
  }

  ghost predicate Run(run: seq<World>, calls: seq<Call>) {
    Path(Step, run, calls) && Start(run[0])
  }

  /** The first n calls disturb nobody. */
  ghost predicate Orderly(run: seq<World>, calls: seq<Call>, n: nat) {
    n < |run| == |calls| + 1 && forall i: nat :: i < n ==> Sound(run[i]) && !Disturbs(run[i], calls[i])
  }

  lemma StartInv(w: World)
    requires Start(w)
    ensures WorldInv(w)
  {
    InitialInv(w.s);
    forall u: nat | u < |w.s.tcbs| ensures AtHome(u, w.s.tcbs[u]) {}
    forall c: nat | c < 288 ensures CoreOk(w, c) {}
  }

  lemma NextInv(run: seq<World>, calls: seq<Call>, i: nat)
    requires Path(Step, run, calls) && 0 < i < |run| && Orderly(run, calls, i) && WorldInv(run[i - 1])
    ensures WorldInv(run[i])
  {
    PathStep(Step, run, calls, i);
    StepInv(run[i - 1], calls[i - 1], run[i]);
  }

  lemma StepInv(w: World, call: Call, w': World)
    requires WorldInv(w) && Step(w, call, w') && !Disturbs(w, call)
    ensures WorldInv(w')
  {
    StepKeepsInv(w, call);
  }

  /** From a world in order, calls that disturb nobody lead only to worlds in order, in any
      interleaving of the cores' calls and of the halves of schedule. */
  lemma {:induction false} PathKeepsInv(run: seq<World>, calls: seq<Call>, i: nat)
    requires Path(Step, run, calls) && Orderly(run, calls, i) && WorldInv(run[0])
    ensures WorldInv(run[i])
  {
    if i > 0 {
      PathKeepsInv(run, calls, i - 1);
      NextInv(run, calls, i);
    }
  }

  /** Every run in which nobody is disturbed keeps the world in order. */
  lemma RunKeepsInv(run: seq<World>, calls: seq<Call>, i: nat)
    requires Run(run, calls) && Orderly(run, calls, i)
    ensures WorldInv(run[i])
  {
    StartInv(run[0]);
    PathKeepsInv(run, calls, i);
  }

  /** None of the first n calls is a half of schedule. */
  ghost predicate WholeRun(run: seq<World>, calls: seq<Call>, n: nat) {
    n < |run| == |calls| + 1 && forall i: nat :: i < n ==> !calls[i].ScheduleOut? && !calls[i].ScheduleIn?
  }

  lemma {:induction false} NonePending(run: seq<World>, calls: seq<Call>, n: nat, i: nat)
    requires Run(run, calls) && WholeRun(run, calls, n) && i <= n
    ensures |run[i].pending| == 288 && forall c :: 0 <= c < 288 ==> run[i].pending[c] == None
  {
    if i > 0 {
      NonePending(run, calls, n, i - 1);
      SamePending(run, calls, n, i);
    }
  }

  lemma SamePending(run: seq<World>, calls: seq<Call>, n: nat, i: nat)
    requires Run(run, calls) && WholeRun(run, calls, n) && 0 < i <= n
    ensures Sound(run[i - 1]) && run[i].pending == run[i - 1].pending
  {
    PathStep(Step, run, calls, i);
    WholePending(run[i - 1], calls[i - 1], run[i]);
  }

  lemma WholePending(w: World, call: Call, w': World)
    requires Step(w, call, w') && !call.ScheduleOut? && !call.ScheduleIn?
    ensures Sound(w) && w'.pending == w.pending
  {
  }

  /** When schedule is one call, nobody is ever disturbed: every such run keeps the world in order,
      whoever suspends whom. */
  lemma WholeRunKeepsInv(run: seq<World>, calls: seq<Call>, i: nat)
    requires Run(run, calls) && WholeRun(run, calls, i)
    ensures WorldInv(run[i])
  {
    forall j: nat | j < i ensures Sound(run[j]) && !Disturbs(run[j], calls[j]) {
      NonePending(run, calls, i, j);
      SamePending(run, calls, i, j + 1);
    }
    RunKeepsInv(run, calls, i);
  }

  // ----- what it means

  /** Each non-idle block is on exactly one list, once, or has exited and is held only by
      outstanding references; it is on a free list exactly when it is not allocated; it has been
      freed once per allocation, save the current one; and its references are accounted for. */
  lemma OnePlace(w: World, t: nat) returns (place: Option<ListId>)
    requires WorldInv(w) && 288 <= t < |w.s.tcbs|
    ensures place.Some? ==> Known(place.value)
    ensures forall id :: Known(id) ==> multiset(w.s.lists[id].items)[t] == if place == Some(id) then 1 else 0
    ensures place.None? <==> w.s.tcbs[t].state == Exited
    ensures place.None? ==> w.s.gets[t] > 0
    ensures w.s.tcbs[t].state == NotAlloc <==> place.Some? && IsFree(place.value)
    ensures w.s.allocs[t] == w.s.tcbs[t].gen + if w.s.tcbs[t].state == NotAlloc then 0 else 1
    ensures w.s.tcbs[t].refc == w.s.gets[t] + if Live(w.s.tcbs[t].state) then 1 else 0
  {
    var s := w.s;
    assert ThreadAt(s, t);
    place := match s.tcbs[t].link case Off => None case On(id) => Some(id);
    forall id | Known(id) ensures multiset(s.lists[id].items)[t] == if place == Some(id) then 1 else 0 {
      assert ListOk(s, id);
      Occurs(s.lists[id].items, t);
    }
  }

  lemma {:induction false} Occurs(items: seq<nat>, t: nat)
    requires NoDup(items)
    ensures multiset(items)[t] == if t in items then 1 else 0
  {
    if items != [] {
      assert items == [items[0]] + items[1..];
      Occurs(items[1..], t);
      assert items[0] !in items[1..];
    }
  }

  /** List counters are exact, no core is over its limit, and no debug_halt was reached. */
  lemma CountersExact(w: World)
    requires WorldInv(w)
    ensures !w.s.halted
    ensures forall id :: Known(id) ==> w.s.lists[id].count == |w.s.lists[id].items|
    ensures forall c :: 0 <= c < 288 ==>
              |w.s.lists[RunnableOn(c)].items| + |w.s.lists[BlockedOn(c)].items| <= 2048
  {
    var s := w.s;
    forall id | Known(id) ensures s.lists[id].count == |s.lists[id].items| { assert Drift(s, id) == 0; }
    forall c | 0 <= c < 288 ensures |s.lists[RunnableOn(c)].items| + |s.lists[BlockedOn(c)].items| <= 2048 {
      assert Load(s, c) <= 2048;
    }
  }

  /** The scheduler over every run: at every point of every orderly run, and so of every run in
      which schedule is one call, the counters are exact and each block is in one place. */
  lemma EveryRun(run: seq<World>, calls: seq<Call>, i: nat, t: nat) returns (place: Option<ListId>)
    requires Run(run, calls) && (Orderly(run, calls, i) || WholeRun(run, calls, i))
    requires i < |run| && 288 <= t < |run[i].s.tcbs|
    ensures WorldInv(run[i]) && !run[i].s.halted
    ensures forall id :: Known(id) ==> run[i].s.lists[id].count == |run[i].s.lists[id].items|
    ensures forall c, d :: 0 <= c < d < 288 ==> run[i].s.running[c] != run[i].s.running[d]
    ensures forall id :: Known(id) ==> multiset(run[i].s.lists[id].items)[t] == if place == Some(id) then 1 else 0
    ensures place.None? ==> run[i].s.tcbs[t].state == Exited && run[i].s.gets[t] > 0
  {
    if Orderly(run, calls, i) { RunKeepsInv(run, calls, i); } else { WholeRunKeepsInv(run, calls, i); }
    CountersExact(run[i]);
    forall c, d | 0 <= c < d < 288 ensures run[i].s.running[c] != run[i].s.running[d] { OneCore(run[i], c, d); }
    place := OnePlace(run[i], t);
  }

  // ----- where a thread may run

  /** Only the call that makes a thread of block t changes where the thread may run. */
  lemma StepMask(w: World, call: Call, t: nat)
    requires WorldInv(w) && Callable(w, call) && !Disturbs(w, call) && t < |w.s.tcbs|
    requires call.CreateThread? ==> !OnFree(w.s.tcbs[t])
    ensures SameMask(w.s, Apply(w, call).s, t)
  {
    match call
    case CreateThread(c, target, won) => CreateMask(w.s, c, target, won, t);
    case GetRef(_, u) =>
    case PutRef(c, u, won) => PutMask(w.s, c, u, won, t);
    case Suspend(c, u, won) => AskIs(w.s, c, u, w.s.tcbs[u].intent.(blocked := true), won);
    case WakeUp(c, u, won) => AskIs(w.s, c, u, w.s.tcbs[u].intent.(ready := true), won);
    case ExitSelf(c, won) => AskIs(w.s, c, w.s.running[c], Intention(false, false, true), won);
    case Schedule(c, intent, consumed, luck, again, won) => ScheduleMask(w, c, intent, consumed, luck, again, won, t);
    case ScheduleOut(c, intent, consumed, luck, again) => OutMask(w, c, intent, consumed, luck, again, t);
    case ScheduleIn(c, won, luck) => InMask(w, c, won, luck, t);
  }

  predicate SameMask(s: State, r: State, t: nat) {
    t < |s.tcbs| == |r.tcbs| && r.tcbs[t].forbidden == s.tcbs[t].forbidden
  }

  lemma CreateMask(s: State, c: nat, target: int, won: bool, t: nat)
    requires Inv(s) && c < 288 && HasFree(s, c) && t < |s.tcbs| && !OnFree(s.tcbs[t])
    ensures SameMask(s, Create(s, c, target, won), t)
  {
    CreateInv(s, c, target, won);
    KeptThread(s, Create(s, c, target, won), Alloc(s, c).1.value, t);
  }

  lemma PutMask(s: State, c: nat, u: nat, won: bool, t: nat)
    requires Inv(s) && c < 288 && u < |s.tcbs| && s.gets[u] > 0 && t < |s.tcbs|
    ensures SameMask(s, PutTcb(s, c, u, won), t)
  {
    PutInv(s, c, u, won);
    var r := PutTcb(s, c, u, won);
    assert ThreadAt(s, u);
    if t != u {
      assert Close(s.tcbs[t], r.tcbs[t]);
    } else if s.tcbs[u].refc == 1 {
      var s0 := s.(gets := s.gets[u := s.gets[u] - 1]);
      SameLists(s, s0);
      DropOk(s0, c, u, won);
    }
  }

  lemma OutMask(w: World, c: nat, intent: Intention, consumed: int, luck: Luck, again: Luck, t: nat)
    requires WorldInv(w) && c < 288 && w.pending[c].None? && (w.s.running[c] == c ==> intent.ready) && t < |w.s.tcbs|
    ensures SameMask(w.s, Choose(w.s, c, intent, consumed, luck, again).0, t)
  {
    assert CoreOk(w, c);
    ChooseBetween(w.s, c, intent, consumed, luck, again);
    assert Spared(t, w.s.tcbs[t], Choose(w.s, c, intent, consumed, luck, again).0.tcbs[t], Own(c));
  }

  lemma InMask(w: World, c: nat, won: bool, luck: Luck, t: nat)
    requires WorldInv(w) && c < 288 && w.pending[c].Some? && t < |w.s.tcbs|
    ensures SameMask(w.s, Switch(w.s, c, w.pending[c].value, won, luck), t)
  {
    AfterSwitch(w, c, won, luck);
    assert Spared(t, w.s.tcbs[t], Switch(w.s, c, w.pending[c].value, won, luck).tcbs[t], Own(c));
  }

  lemma ScheduleMask(w: World, c: nat, intent: Intention, consumed: int, luck: Luck, again: Luck, won: bool, t: nat)
    requires WorldInv(w) && c < 288 && w.pending[c].None? && (w.s.running[c] == c ==> intent.ready) && t < |w.s.tcbs|
    ensures var (s1, next) := Choose(w.s, c, intent, consumed, luck, again);
            SameMask(w.s, Switch(s1, c, next, won, luck), t)
  {
    OutMask(w, c, intent, consumed, luck, again, t);
    OutStep(w, c, intent, consumed, luck, again);
    var (s1, next) := Choose(w.s, c, intent, consumed, luck, again);
    InMask(World(s1, w.pending[c := Some(next)]), c, won, luck, t);
  }

  /** Call i of the run makes a thread for core k from block t, which is not freed again up to world j. */
  ghost predicate MadeFor(run: seq<World>, calls: seq<Call>, i: nat, j: nat, t: nat, k: int) {
    && i < j < |run| == |calls| + 1 && calls[i].CreateThread? && calls[i].target == k && calls[i].core < 288
    && Shape(run[i].s) && HasFree(run[i].s, calls[i].core) && t == FirstFree(run[i].s, calls[i].core)
    && forall m: nat :: i < m <= j ==> t < |run[m].s.tcbs| && !OnFree(run[m].s.tcbs[t])
  }

  /** Forbidden on every core but k, or on none if k is -1. */
  ghost predicate Bound(x: Tcb, k: int) {
    forall d: nat :: d < 288 ==> (d in x.forbidden <==> k != -1 && d != k)
  }

  lemma {:induction false} MaskStays(run: seq<World>, calls: seq<Call>, i: nat, j: nat, t: nat, k: int)
    requires Run(run, calls) && Orderly(run, calls, j) && MadeFor(run, calls, i, j, t, k)
    ensures 288 <= t && Bound(run[j].s.tcbs[t], k)
    decreases j
  {
    if j == i + 1 {
      FirstMask(run, calls, i, t, k);
    } else {
      MadeBefore(run, calls, i, j, t, k);
      MaskStays(run, calls, i, j - 1, t, k);
      LaterMask(run, calls, j, t);
    }
  }

  lemma MadeBefore(run: seq<World>, calls: seq<Call>, i: nat, j: nat, t: nat, k: int)
    requires MadeFor(run, calls, i, j, t, k) && Orderly(run, calls, j) && j > i + 1
    ensures MadeFor(run, calls, i, j - 1, t, k) && Orderly(run, calls, j - 1)
    ensures t < |run[j - 1].s.tcbs| && !OnFree(run[j - 1].s.tcbs[t])
  {
  }

  lemma NextMask(run: seq<World>, calls: seq<Call>, j: nat, t: nat)
    requires Path(Step, run, calls) && 0 < j < |run| && Orderly(run, calls, j) && WorldInv(run[j - 1])
    requires t < |run[j - 1].s.tcbs| && !OnFree(run[j - 1].s.tcbs[t])
    ensures SameMask(run[j - 1].s, run[j].s, t)
  {
    PathStep(Step, run, calls, j);
    MaskKept(run[j - 1], calls[j - 1], run[j], t);
  }

  lemma LaterMask(run: seq<World>, calls: seq<Call>, j: nat, t: nat)
    requires Run(run, calls) && 0 < j < |run| && Orderly(run, calls, j)
    requires t < |run[j - 1].s.tcbs| && !OnFree(run[j - 1].s.tcbs[t])
    ensures SameMask(run[j - 1].s, run[j].s, t)
  {
    RunKeepsInv(run, calls, j - 1);
    NextMask(run, calls, j, t);
  }

  lemma MaskKept(w: World, call: Call, w': World, t: nat)
    requires WorldInv(w) && Step(w, call, w') && !Disturbs(w, call) && t < |w.s.tcbs| && !OnFree(w.s.tcbs[t])
    ensures SameMask(w.s, w'.s, t)
  {
    StepMask(w, call, t);
  }

  lemma FirstMask(run: seq<World>, calls: seq<Call>, i: nat, t: nat, k: int)
    requires Run(run, calls) && Orderly(run, calls, i + 1) && MadeFor(run, calls, i, i + 1, t, k)
    ensures 288 <= t && Bound(run[i + 1].s.tcbs[t], k)
  {
    RunKeepsInv(run, calls, i);
    PathStep(Step, run, calls, i + 1);
    MaskMade(run[i], calls[i], run[i + 1], t, k);
  }

  lemma MaskMade(w: World, call: Call, w': World, t: nat, k: int)
    requires WorldInv(w) && Step(w, call, w') && call.CreateThread? && call.target == k && t == FirstFree(w.s, call.core)
    ensures 288 <= t < |w'.s.tcbs| && Bound(w'.s.tcbs[t], k)
  {
    CreateInv(w.s, call.core, k, call.won);
    AllocOk(w.s, call.core);
  }

  /** A thread made for core k is, for as long as it lives, on core d's lists or current on core d only
      if d is k; one made for no core may be anywhere. */
  lemma StaysOnCore(run: seq<World>, calls: seq<Call>, i: nat, j: nat, t: nat, k: int, d: nat)
    requires Run(run, calls) && Orderly(run, calls, j) && MadeFor(run, calls, i, j, t, k) && d < 288
    ensures Shape(run[j].s)
    ensures run[j].s.tcbs[t].link in {On(RunnableOn(d)), On(BlockedOn(d))} || run[j].s.running[d] == t ==> k == -1 || d == k
  {
    RunKeepsInv(run, calls, j);
    MaskStays(run, calls, i, j, t, k);
    assert CoreOk(run[j], d) && AtHome(t, run[j].s.tcbs[t]);
  }
}
