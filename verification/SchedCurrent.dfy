/** Where the current thread of each core is, before, between and after the halves of schedule. */
module SchedCurrent {
  import opened Options
  import opened SchedSpec
  import opened SchedInv
  import opened SchedSteps
  import opened SchedOps

  /** Not asked to exit, nor to block unless also asked to run. */
  predicate Calm(x: Tcb) {
    !x.intent.exited && (x.intent.blocked ==> x.intent.ready)
  }

  /** An idle thread belongs to its core. Another thread is on the lists of the core it names as its
      own and may run on, or waits for such a core, and its state fits the list. */
  predicate AtHome(u: nat, x: Tcb) {
    && (u < 288 ==> x.link == Off && x.runningCore == u)
    && match x.link
       case On(RunnableOn(c)) => x.runningCore == c && c !in x.forbidden && x.state in {Ready, Running}
       case On(BlockedOn(c)) => x.runningCore == c && c !in x.forbidden && x.state in {Blocked, Ready}
       case On(Migrating) => (x.runningCore >= 0 ==> x.runningCore !in x.forbidden) && x.state == Ready
       case _ => true
  }

  ghost predicate Homes(s: State) {
    forall u: nat {:trigger AtHome(u, s.tcbs[u])} :: u < |s.tcbs| ==> AtHome(u, s.tcbs[u])
  }

  /** The core list a block goes with; an idle thread goes with the blocked list of its core. */
  function Owner(u: nat, x: Tcb): Option<ListId> {
    if u < 288 && x.link == Off then Some(BlockedOn(u))
    else if x.link.On? && (x.link.list.RunnableOn? || x.link.list.BlockedOn?) then Some(x.link.list)
    else None
  }

  /** What a step leaves alone that touches only the blocks of some lists: place, requests and state of
      the blocks of other core lists, and where threads may run. It sends no thread elsewhere, makes no
      thread of another runnable list run, and takes no block from the global free list. */
  predicate Spared(u: nat, x: Tcb, y: Tcb, touched: set<ListId>) {
    && (Owner(u, x).Some? && Owner(u, x).value !in touched ==>
          y.link == x.link && y.intent == x.intent && y.state == x.state)
    && (AtHome(u, x) ==> AtHome(u, y)) && y.forbidden == x.forbidden
    && (x.link == On(GlobalFree) ==> y.link == x.link)
    && (AtHome(u, x) && y.state == Running && RunList(y).Some? && RunList(y).value !in touched ==>
          x.state == Running && x.link == y.link)
  }

  /** The runnable list a block is on, if any. */
  function RunList(x: Tcb): Option<ListId> {
    if x.link.On? && x.link.list.RunnableOn? then Some(x.link.list) else None
  }

  ghost predicate Gentle(s: State, r: State, touched: set<ListId>) {
    |r.tcbs| == |s.tcbs|
    && forall u: nat {:trigger r.tcbs[u]} :: u < |s.tcbs| ==> Spared(u, s.tcbs[u], r.tcbs[u], touched)
  }

  /** The lists of core c. */
  function Own(c: nat): set<ListId> {
    {RunnableOn(c), BlockedOn(c)}
  }

  lemma GentleTrans(s: State, s1: State, r: State, touched: set<ListId>)
    requires Gentle(s, s1, touched) && Gentle(s1, r, touched)
    ensures Gentle(s, r, touched)
  {
    forall u: nat | u < |s.tcbs| ensures Spared(u, s.tcbs[u], r.tcbs[u], touched) {
      assert Spared(u, s.tcbs[u], s1.tcbs[u], touched) && Spared(u, s1.tcbs[u], r.tcbs[u], touched);
    }
  }

  lemma GentleMore(s: State, r: State, touched: set<ListId>, more: set<ListId>)
    requires Gentle(s, r, touched) && touched <= more
    ensures Gentle(s, r, more)
  {
    forall u: nat | u < |s.tcbs| ensures Spared(u, s.tcbs[u], r.tcbs[u], more) {
      assert Spared(u, s.tcbs[u], r.tcbs[u], touched);
    }
  }

  lemma GentleOne(s: State, r: State, t: nat, touched: set<ListId>)
    requires Shape(s) && Shape(r) && t < |s.tcbs| && Others(s, r, t) && Spared(t, s.tcbs[t], r.tcbs[t], touched)
    ensures Gentle(s, r, touched)
  {
    forall u: nat | u < |s.tcbs| ensures Spared(u, s.tcbs[u], r.tcbs[u], touched) {
      if u != t { assert Close(s.tcbs[u], r.tcbs[u]); }
    }
  }

  lemma GentleHomes(s: State, r: State, touched: set<ListId>)
    requires Gentle(s, r, touched) && Homes(s)
    ensures Homes(r)
  {
    forall u: nat | u < |r.tcbs| ensures AtHome(u, r.tcbs[u]) {
      assert AtHome(u, s.tcbs[u]) && Spared(u, s.tcbs[u], r.tcbs[u], touched);
    }
  }

  // ----- the first half

  /** The current thread is still on its core's runnable list, or calm on its blocked list. */
  predicate Placed(x: Tcb, c: nat) {
    x.link == On(RunnableOn(c)) || (x.link == On(BlockedOn(c)) && Calm(x))
  }

  /** A thread at home that is not asked to exit stays with its core and is calm. */
  lemma VisitOwn(s: State, c: nat, t: nat, found: Option<nat>, luck: Luck)
    requires Lists(s) && c < 288 && t < |s.tcbs| && s.tcbs[t].link == On(RunnableOn(c))
    requires !s.tcbs[t].intent.exited && AtHome(t, s.tcbs[t])
    ensures var y := Visit(s, c, t, found, luck).0.tcbs[t];
            Calm(y) && Placed(y, c) && AtHome(t, y)
  {
    if s.tcbs[t].intent.blocked { BlockChain(s, c, t); }
  }

  lemma VisitHome(s: State, c: nat, t: nat, found: Option<nat>, luck: Luck)
    requires Lists(s) && c < 288 && t < |s.tcbs| && s.tcbs[t].link == On(RunnableOn(c)) && AtHome(t, s.tcbs[t])
    ensures var y := Visit(s, c, t, found, luck).0.tcbs[t]; AtHome(t, y) && y.link != On(Migrating)
  {
    if s.tcbs[t].intent.exited {
      LeaveOff(s, c, t, RunnableOn(c), luck.free(t));
    } else {
      VisitOwn(s, c, t, found, luck);
    }
  }

  lemma VisitMask(s: State, c: nat, t: nat, found: Option<nat>, luck: Luck)
    requires Lists(s) && c < 288 && t < |s.tcbs| && s.tcbs[t].link == On(RunnableOn(c))
    ensures var y := Visit(s, c, t, found, luck).0.tcbs[t];
            y.forbidden == s.tcbs[t].forbidden && RunList(y) in {None, Some(RunnableOn(c))}
  {
    var x := s.tcbs[t];
    if x.intent.exited {
      LeaveOff(s, c, t, RunnableOn(c), luck.free(t));
    } else if x.intent.blocked {
      BlockChain(s, c, t);
    } else {
      MigrateChain(s, c, t);
    }
  }

  /** A block of a touched list is spared when it stays at home. */
  lemma TouchedSpared(t: nat, x: Tcb, y: Tcb, id: ListId)
    requires x.link == On(id) && !IsFree(id) && y.forbidden == x.forbidden && (AtHome(t, x) ==> AtHome(t, y))
    requires RunList(y).Some? && RunList(y).value != id ==> y.state != Running
    ensures Spared(t, x, y, {id})
  {
  }

  lemma VisitGentle(s: State, c: nat, t: nat, found: Option<nat>, luck: Luck)
    requires Lists(s) && c < 288 && t < |s.tcbs| && s.tcbs[t].link == On(RunnableOn(c))
    ensures Gentle(s, Visit(s, c, t, found, luck).0, {RunnableOn(c)})
  {
    VisitChain(s, c, t, found, luck);
    VisitMask(s, c, t, found, luck);
    if AtHome(t, s.tcbs[t]) { VisitHome(s, c, t, found, luck); }
    var r := Visit(s, c, t, found, luck).0;
    TouchedSpared(t, s.tcbs[t], r.tcbs[t], RunnableOn(c));
    GentleOne(s, r, t, {RunnableOn(c)});
  }

  /** The thread chosen so far is on core c's runnable list and will not be visited again. */
  ghost predicate Kept1(s: State, c: nat, items: seq<nat>, found: Option<nat>) {
    found.Some? ==> found.value < |s.tcbs| && s.tcbs[found.value].link == On(RunnableOn(c)) && found.value !in items
  }

  lemma {:induction false} PassGentle(s: State, c: nat, items: seq<nat>, found: Option<nat>, luck: Luck)
    requires Lists(s) && c < 288 && Ahead(s, items, RunnableOn(c)) && Kept1(s, c, items, found)
    ensures var (r, chosen, _) := Pass(s, c, items, found, luck);
            Gentle(s, r, {RunnableOn(c)}) && Kept1(r, c, [], chosen)
    decreases |items|
  {
    if items != [] && !(s.tcbs[items[0]].intent.exited && s.running[c] == items[0]) {
      VisitGentle(s, c, items[0], found, luck);
      var s1, found1 := VisitPicks(s, c, items, found, luck);
      assert found1 != found ==> s1.tcbs[items[0]].link == On(RunnableOn(c));
      VisitKept(s, s1, c, items, found, found1);
      PassGentle(s1, c, items[1..], found1, luck);
      GentleTrans(s, s1, Pass(s1, c, items[1..], found1, luck).0, {RunnableOn(c)});
    }
  }

  lemma VisitKept(s: State, s1: State, c: nat, items: seq<nat>, found: Option<nat>, found1: Option<nat>)
    requires Shape(s) && Shape(s1) && items != [] && Ahead(s, items, RunnableOn(c)) && Others(s, s1, items[0])
    requires Kept1(s, c, items, found) && (found1 == found || found1 == Some(items[0]))
    requires found1 != found ==> s1.tcbs[items[0]].link == On(RunnableOn(c))
    ensures Kept1(s1, c, items[1..], found1)
  {
    if found1 == found && found.Some? {
      assert Close(s.tcbs[found.value], s1.tcbs[found.value]);
    }
    assert found1 == Some(items[0]) ==> items[0] !in items[1..];
  }

  lemma {:induction false} PassPlaces(s: State, c: nat, items: seq<nat>, found: Option<nat>, luck: Luck)
    requires Lists(s) && c < 288 && Ahead(s, items, RunnableOn(c)) && (found.Some? ==> found.value < |s.tcbs|)
    requires AtHome(s.running[c], s.tcbs[s.running[c]]) && Placed(s.tcbs[s.running[c]], c)
    ensures Placed(Pass(s, c, items, found, luck).0.tcbs[s.running[c]], c)
    decreases |items|
  {
    var t := s.running[c];
    if items != [] && !(s.tcbs[items[0]].intent.exited && t == items[0]) {
      var s1, found1 := VisitPicks(s, c, items, found, luck);
      if t == items[0] {
        VisitOwn(s, c, t, found, luck);
      } else {
        assert Close(s.tcbs[t], s1.tcbs[t]);
      }
      PassPlaces(s1, c, items[1..], found1, luck);
    }
  }

  /** Core c runs its idle thread or a thread of its own runnable list. */
  predicate Current(s: State, c: nat)
    requires c < |s.running| && s.running[c] < |s.tcbs|
  {
    s.running[c] == c || (288 <= s.running[c] && s.tcbs[s.running[c]].link == On(RunnableOn(c)))
  }

  /** A thread that core c may switch to: its idle thread or one of its runnable list. */
  predicate Next(s: State, c: nat, next: nat) {
    next == c || (288 <= next < |s.tcbs| && s.tcbs[next].link == On(RunnableOn(c)))
  }

  /** Core c is between the halves of schedule and will switch to next. */
  predicate Between(s: State, c: nat, next: nat)
    requires c < |s.running| && s.running[c] < |s.tcbs|
  {
    var t := s.running[c];
    && Next(s, c, next)
    && if t == c then s.tcbs[t].intent.ready
       else 288 <= t && Placed(s.tcbs[t], c) && (next == t ==> Calm(s.tcbs[t]))
  }

  /** Threads on lists are not idle threads. */
  lemma NotIdle(s: State, t: nat)
    requires Shape(s) && Threads(s) && t < |s.tcbs| && s.tcbs[t].link.On?
    ensures 288 <= t
  {
    assert ThreadAt(s, t);
  }

  lemma IdleOwner(s: State, c: nat)
    requires Shape(s) && Threads(s) && c < 288
    ensures s.tcbs[c].link == Off && Owner(c, s.tcbs[c]) == Some(BlockedOn(c))
  {
    assert ThreadAt(s, c);
  }

  /** What one traversal decides is a thread core c may switch to; when it decides for the current
      thread, that one is calm; when it decides nothing, nobody on the list is asked to block or exit. */
  ghost predicate Decision(r: State, c: nat, found: Option<nat>)
    requires c < |r.running| && r.running[c] < |r.tcbs|
  {
    && (found.Some? ==> Next(r, c, found.value))
    && (found.Some? && found.value == r.running[c] != c ==> Calm(r.tcbs[r.running[c]]))
    && (found.None? ==> Cleared(r, c, []))
  }

  /** Where the current thread is during the first half of schedule. */
  predicate Leaving(s: State, c: nat)
    requires c < |s.running| && s.running[c] < |s.tcbs|
  {
    var t := s.running[c];
    if t == c then s.tcbs[t].intent.ready else 288 <= t && Placed(s.tcbs[t], c) && AtHome(t, s.tcbs[t])
  }

  lemma RefillGentle(s: State, t: nat)
    requires Shape(s) && t < |s.tcbs|
    ensures Gentle(s, Refill(s, t), {})
  {
  }

  lemma AttemptDecides(s: State, c: nat, luck: Luck)
    requires Lists(s) && Threads(s) && c < 288 && Leaving(s, c)
    ensures var (r, found) := Attempt(s, c, luck);
            && r.running == s.running && Gentle(s, r, {RunnableOn(c)}) && Decision(r, c, found) && Leaving(r, c)
  {
    var items := s.lists[RunnableOn(c)].items;
    ListAhead(s, RunnableOn(c));
    PassGentle(s, c, items, None, luck);
    PassChain(s, c, items, None, luck);
    var (s1, found, exiting) := Pass(s, c, items, None, luck);
    PassLeaving(s, c, items, luck);
    if exiting {
      RefillGentle(s1, c);
      GentleMore(s1, Refill(s1, c), {}, {RunnableOn(c)});
      GentleTrans(s, s1, Refill(s1, c), {RunnableOn(c)});
    } else {
      assert ListOk(s, RunnableOn(c));
      PassClears(s, c, items, None, luck);
      if found.Some? { NotIdle(s1, found.value); }
    }
  }

  lemma PassLeaving(s: State, c: nat, items: seq<nat>, luck: Luck)
    requires Lists(s) && Threads(s) && c < 288 && Ahead(s, items, RunnableOn(c)) && Leaving(s, c)
    ensures var r := Pass(s, c, items, None, luck).0; r.running == s.running && Leaving(r, c)
  {
    PassGentle(s, c, items, None, luck);
    PassChain(s, c, items, None, luck);
    var t := s.running[c];
    var r := Pass(s, c, items, None, luck).0;
    assert Spared(t, s.tcbs[t], r.tcbs[t], {RunnableOn(c)});
    if t == c { IdleOwner(s, c); } else { PassPlaces(s, c, items, None, luck); }
  }

  lemma FallbackNext(s: State, c: nat)
    requires Lists(s) && Threads(s) && c < 288 && Cleared(s, c, [])
    ensures Decision(s, c, Some(Fallback(s, c)))
  {
    ListAhead(s, RunnableOn(c));
    var next := Fallback(s, c);
    if next != c { NotIdle(s, next); }
  }

  lemma RefillAllGentle(s: State, items: seq<nat>, id: ListId)
    requires Lists(s) && Ahead(s, items, id)
    ensures Gentle(s, RefillAll(s, items), {})
  {
    RefillAllChain(s, items, id);
    var r := RefillAll(s, items);
    forall u: nat | u < |s.tcbs| ensures Spared(u, s.tcbs[u], r.tcbs[u], {}) {
      assert r.tcbs[u] == s.tcbs[u].(slice := r.tcbs[u].slice);
    }
  }

  lemma AgainDecides(s: State, c: nat, luck: Luck)
    requires Lists(s) && Threads(s) && c < 288 && Leaving(s, c)
    ensures var (r, found) := Attempt(RefillAll(s, s.lists[RunnableOn(c)].items), c, luck);
            && r.running == s.running && Gentle(s, r, {RunnableOn(c)}) && Decision(r, c, found) && Leaving(r, c)
  {
    var items := s.lists[RunnableOn(c)].items;
    ListAhead(s, RunnableOn(c));
    RefillAllChain(s, items, RunnableOn(c));
    RefillAllGentle(s, items, RunnableOn(c));
    var s1 := RefillAll(s, items);
    GentleMore(s, s1, {}, {RunnableOn(c)});
    assert s1.tcbs[s.running[c]] == s.tcbs[s.running[c]].(slice := s1.tcbs[s.running[c]].slice);
    AttemptDecides(s1, c, luck);
    GentleTrans(s, s1, Attempt(s1, c, luck).0, {RunnableOn(c)});
  }

  lemma SelectBetween(s: State, c: nat, luck: Luck, again: Luck)
    requires Lists(s) && Threads(s) && c < 288 && Leaving(s, c)
    ensures var (r, next) := Select(s, c, luck, again);
            Gentle(s, r, {RunnableOn(c)}) && r.running == s.running && Between(r, c, next)
  {
    AttemptDecides(s, c, luck);
    AttemptChain(s, c, luck);
    var (s1, found) := Attempt(s, c, luck);
    if found.None? {
      if NoneStarved(s1, s1.lists[RunnableOn(c)].items) {
        FallbackNext(s1, c);
      } else {
        SelectAgain(s, s1, c, again);
      }
    }
  }

  lemma SelectAgain(s: State, s1: State, c: nat, again: Luck)
    requires Lists(s1) && Threads(s1) && c < 288 && Gentle(s, s1, {RunnableOn(c)}) && Leaving(s1, c)
    ensures var (r, found) := Attempt(RefillAll(s1, s1.lists[RunnableOn(c)].items), c, again);
            var next := if found.Some? then found.value else Fallback(r, c);
            Gentle(s, r, {RunnableOn(c)}) && r.running == s1.running && Between(r, c, next)
  {
    AgainDecides(s1, c, again);
    AgainChain(s1, c, again);
    var (r, found) := Attempt(RefillAll(s1, s1.lists[RunnableOn(c)].items), c, again);
    GentleTrans(s, s1, r, {RunnableOn(c)});
    if found.None? { FallbackNext(r, c); }
  }

  /** The first half of schedule on core c: whatever it decides, the second half can follow, and
      nothing changes for other cores. An idle thread gives up the processor only to run again. */
  lemma ChooseBetween(s: State, c: nat, intent: Intention, consumed: int, luck: Luck, again: Luck)
    requires Inv(s) && c < 288 && Homes(s) && Current(s, c) && (s.running[c] == c ==> intent.ready)
    ensures var (r, next) := Choose(s, c, intent, consumed, luck, again);
            Gentle(s, r, Own(c)) && r.running == s.running && Between(r, c, next)
  {
    ChargeChain(s, c, intent, consumed);
    ChargeGentle(s, c, intent, consumed);
    var s1 := Charge(s, c, intent, consumed);
    assert AtHome(s.running[c], s.tcbs[s.running[c]]);
    SelectBetween(s1, c, luck, again);
    var r := Select(s1, c, luck, again).0;
    GentleMore(s1, r, {RunnableOn(c)}, Own(c));
    GentleTrans(s, s1, r, Own(c));
  }

  lemma ChargeGentle(s: State, c: nat, intent: Intention, consumed: int)
    requires Inv(s) && c < 288 && Current(s, c)
    ensures Gentle(s, Charge(s, c, intent, consumed), Own(c))
  {
    IdleOwner(s, c);
  }

  /** While all threads are at home, no thread is sent to the migrating list: the branch of
      select_next_thread that does so is dead. */
  lemma {:induction false} PassKeepsHere(s: State, c: nat, items: seq<nat>, found: Option<nat>, luck: Luck, u: nat)
    requires Lists(s) && c < 288 && Ahead(s, items, RunnableOn(c)) && (found.Some? ==> found.value < |s.tcbs|)
    requires Homes(s) && u < |s.tcbs| && s.tcbs[u].link != On(Migrating)
    ensures Pass(s, c, items, found, luck).0.tcbs[u].link != On(Migrating)
    decreases |items|
  {
    if items != [] && !(s.tcbs[items[0]].intent.exited && s.running[c] == items[0]) {
      var s1, found1 := VisitPicks(s, c, items, found, luck);
      VisitGentle(s, c, items[0], found, luck);
      GentleHomes(s, s1, {RunnableOn(c)});
      VisitHere(s, c, items[0], found, luck, u);
      PassKeepsHere(s1, c, items[1..], found1, luck, u);
    }
  }

  lemma VisitHere(s: State, c: nat, t: nat, found: Option<nat>, luck: Luck, u: nat)
    requires Lists(s) && c < 288 && t < |s.tcbs| && s.tcbs[t].link == On(RunnableOn(c))
    requires Homes(s) && u < |s.tcbs| && s.tcbs[u].link != On(Migrating)
    ensures Visit(s, c, t, found, luck).0.tcbs[u].link != On(Migrating)
  {
    assert AtHome(t, s.tcbs[t]);
    VisitChain(s, c, t, found, luck);
    if u != t {
      assert Close(s.tcbs[u], Visit(s, c, t, found, luck).0.tcbs[u]);
    } else {
      VisitHome(s, c, t, found, luck);
    }
  }

  lemma AttemptKeepsHere(s: State, c: nat, luck: Luck, u: nat)
    requires Lists(s) && c < 288 && Homes(s) && u < |s.tcbs| && s.tcbs[u].link != On(Migrating)
    ensures var r := Attempt(s, c, luck).0; Lists(r) && Homes(r) && r.tcbs[u].link != On(Migrating)
  {
    var items := s.lists[RunnableOn(c)].items;
    ListAhead(s, RunnableOn(c));
    AttemptChain(s, c, luck);
    PassGentle(s, c, items, None, luck);
    PassKeepsHere(s, c, items, None, luck, u);
    var s1 := Pass(s, c, items, None, luck).0;
    GentleHomes(s, s1, {RunnableOn(c)});
    RefillGentle(s1, c);
    GentleHomes(s1, Refill(s1, c), {});
  }

  lemma ChooseKeepsHere(s: State, c: nat, intent: Intention, consumed: int, luck: Luck, again: Luck, u: nat)
    requires Lists(s) && c < 288 && Homes(s) && u < |s.tcbs| && s.tcbs[u].link != On(Migrating)
    ensures Choose(s, c, intent, consumed, luck, again).0.tcbs[u].link != On(Migrating)
  {
    ChargeChain(s, c, intent, consumed);
    var s1 := Charge(s, c, intent, consumed);
    forall v: nat | v < |s1.tcbs| ensures AtHome(v, s1.tcbs[v]) { assert AtHome(v, s.tcbs[v]); }
    SelectKeepsHere(s1, c, luck, again, u);
  }

  lemma SelectKeepsHere(s: State, c: nat, luck: Luck, again: Luck, u: nat)
    requires Lists(s) && c < 288 && Homes(s) && u < |s.tcbs| && s.tcbs[u].link != On(Migrating)
    ensures Select(s, c, luck, again).0.tcbs[u].link != On(Migrating)
  {
    AttemptKeepsHere(s, c, luck, u);
    AgainKeepsHere(Attempt(s, c, luck).0, c, again, u);
  }

  lemma AgainKeepsHere(s: State, c: nat, luck: Luck, u: nat)
    requires Lists(s) && c < 288 && Homes(s) && u < |s.tcbs| && s.tcbs[u].link != On(Migrating)
    ensures Attempt(RefillAll(s, s.lists[RunnableOn(c)].items), c, luck).0.tcbs[u].link != On(Migrating)
  {
    var items := s.lists[RunnableOn(c)].items;
    ListAhead(s, RunnableOn(c));
    RefillAllChain(s, items, RunnableOn(c));
    RefillAllGentle(s, items, RunnableOn(c));
    var s1 := RefillAll(s, items);
    GentleHomes(s, s1, {});
    assert s1.tcbs[u] == s.tcbs[u].(slice := s1.tcbs[u].slice);
    AttemptKeepsHere(s1, c, luck, u);
  }

  // ----- the second half

  /** The thread that core c leaves: its idle thread, asked to run again, or a thread in its place. */
  predicate Departs(s: State, c: nat, p: nat) {
    p < |s.tcbs| && ((p == c && s.tcbs[p].intent.ready) || (288 <= p && Placed(s.tcbs[p], c)))
  }

  /** What happens to it: it stays, or it was not calm and goes to the blocked list or is gone. */
  ghost predicate Handled(x: Tcb, y: Tcb, c: nat) {
    && y.forbidden == x.forbidden
    && (|| (y.link == x.link && y.runningCore == x.runningCore && y.state in {x.state, Ready})
        || (!Calm(x) && x.link.On? && y.link == On(BlockedOn(c)) && y.runningCore == x.runningCore && y.state == Blocked)
        || (!Calm(x) && x.link.On? && (y.link == Off || OnFree(y))))
  }

  lemma PostPrevOwn(s: State, c: nat, p: nat, won: bool)
    requires Lists(s) && c < 288 && Departs(s, c, p)
    ensures Safe(s, c, p) && Others(s, PostPrev(s, c, p, won), p)
    ensures Handled(s.tcbs[p], PostPrev(s, c, p, won).tcbs[p], c)
  {
    var x := s.tcbs[p];
    if Live(x.state) && !x.intent.ready {
      if x.intent.blocked {
        BlockChain(s, c, p);
      } else if x.intent.exited && s.running[c] != p {
        LeaveChain(s, c, p, RunnableOn(c), won);
        LeaveOff(s, c, p, RunnableOn(c), won);
      }
    }
  }

  lemma HandledSpared(s: State, c: nat, p: nat, y: Tcb)
    requires Shape(s) && Threads(s) && c < 288 && Departs(s, c, p) && Handled(s.tcbs[p], y, c)
    ensures Spared(p, s.tcbs[p], y, Own(c))
  {
    if p == c { IdleOwner(s, c); }
  }

  lemma PostPrevGentle(s: State, c: nat, p: nat, won: bool)
    requires Lists(s) && Threads(s) && c < 288 && Departs(s, c, p)
    ensures Gentle(s, PostPrev(s, c, p, won), Own(c))
  {
    PostPrevOwn(s, c, p, won);
    HandledSpared(s, c, p, PostPrev(s, c, p, won).tcbs[p]);
    GentleOne(s, PostPrev(s, c, p, won), p, Own(c));
  }

  lemma AdoptGentle(s: State, c: nat, t: nat)
    requires Lists(s) && c < 288 && t < |s.tcbs| && s.tcbs[t].link == On(Migrating)
    requires s.tcbs[t].runningCore == c || c !in s.tcbs[t].forbidden
    ensures Gentle(s, Adopt(s, c, t), {})
  {
    AdoptChain(s, c, t);
    AdoptHome(s, c, t);
    GentleOne(s, Adopt(s, c, t), t, {});
  }

  lemma AdoptHome(s: State, c: nat, t: nat)
    requires Lists(s) && c < 288 && t < |s.tcbs| && s.tcbs[t].link == On(Migrating)
    requires s.tcbs[t].runningCore == c || c !in s.tcbs[t].forbidden
    ensures Spared(t, s.tcbs[t], Adopt(s, c, t).tcbs[t], {})
  {
    AdoptChain(s, c, t);
    AdoptSpared(t, s.tcbs[t], c);
  }

  lemma AdoptSpared(u: nat, x: Tcb, c: nat)
    requires x.link == On(Migrating) && (x.runningCore == c || c !in x.forbidden)
    ensures Spared(u, x, x.(link := On(RunnableOn(c)), runningCore := c), {})
  {
  }

  lemma {:induction false} AdoptOwnGentle(s: State, c: nat, items: seq<nat>)
    requires Lists(s) && c < 288 && Ahead(s, items, Migrating)
    ensures Gentle(s, AdoptOwn(s, c, items).0, {})
    decreases |items|
  {
    if items != [] {
      var s1 := AdoptOwnStep(s, c, items);
      if s.tcbs[items[0]].runningCore == c { AdoptGentle(s, c, items[0]); }
      if Load(s1, c) != 2048 {
        AdoptOwnGentle(s1, c, items[1..]);
        GentleTrans(s, s1, AdoptOwn(s1, c, items[1..]).0, {});
      }
    }
  }

  lemma {:induction false} AdoptOneGentle(s: State, c: nat, items: seq<nat>)
    requires Lists(s) && c < 288 && Ahead(s, items, Migrating)
    ensures Gentle(s, AdoptOne(s, c, items), {})
    decreases |items|
  {
    if items != [] {
      if c !in s.tcbs[items[0]].forbidden {
        AdoptGentle(s, c, items[0]);
      } else if Load(s, c) != 2048 {
        AdoptOneGentle(s, c, items[1..]);
      }
    }
  }

  lemma PullGentle(s: State, c: nat, won: bool)
    requires Lists(s) && c < 288
    ensures Gentle(s, Pull(s, c, won), {})
  {
    if Load(s, c) < 2048 && s.lists[Migrating].count != 0 && won {
      var items := s.lists[Migrating].items;
      ListAhead(s, Migrating);
      AdoptOwnChain(s, c, items);
      AdoptOwnGentle(s, c, items);
      var (s1, full) := AdoptOwn(s, c, items);
      if !full {
        ListAhead(s1, Migrating);
        AdoptOneGentle(s1, c, s1.lists[Migrating].items);
        GentleTrans(s, s1, AdoptOne(s1, c, s1.lists[Migrating].items), {});
      }
    }
  }

  lemma WakeOneHome(s: State, c: nat, t: nat, luck: Luck)
    requires Lists(s) && c < 288 && t < |s.tcbs| && s.tcbs[t].link == On(BlockedOn(c)) && AtHome(t, s.tcbs[t])
    ensures AtHome(t, WakeOne(s, c, t, luck).tcbs[t])
  {
    if s.tcbs[t].intent.exited {
      if s.running[c] != t { LeaveOff(s, c, t, BlockedOn(c), luck.free(t)); }
    } else if s.tcbs[t].intent.ready {
      UnblockChain(s, c, t);
    }
  }

  lemma WakeOneMask(s: State, c: nat, t: nat, luck: Luck)
    requires Lists(s) && c < 288 && t < |s.tcbs| && s.tcbs[t].link == On(BlockedOn(c))
    ensures var y := WakeOne(s, c, t, luck).tcbs[t];
            y.forbidden == s.tcbs[t].forbidden && (RunList(y).Some? ==> y.state == Ready)
  {
    if s.tcbs[t].intent.exited {
      if s.running[c] != t { LeaveOff(s, c, t, BlockedOn(c), luck.free(t)); }
    } else if s.tcbs[t].intent.ready {
      UnblockChain(s, c, t);
    }
  }

  lemma WakeOneGentle(s: State, c: nat, t: nat, luck: Luck)
    requires Lists(s) && c < 288 && t < |s.tcbs| && s.tcbs[t].link == On(BlockedOn(c))
    ensures Gentle(s, WakeOne(s, c, t, luck), {BlockedOn(c)})
  {
    WakeOneChain(s, c, t, luck);
    WakeOneMask(s, c, t, luck);
    if AtHome(t, s.tcbs[t]) { WakeOneHome(s, c, t, luck); }
    var r := WakeOne(s, c, t, luck);
    TouchedSpared(t, s.tcbs[t], r.tcbs[t], BlockedOn(c));
    GentleOne(s, r, t, {BlockedOn(c)});
  }

  lemma {:induction false} WakeAllGentle(s: State, c: nat, items: seq<nat>, luck: Luck)
    requires Lists(s) && c < 288 && Ahead(s, items, BlockedOn(c))
    ensures Gentle(s, WakeAll(s, c, items, luck), {BlockedOn(c)})
    decreases |items|
  {
    if items != [] {
      WakeOneChain(s, c, items[0], luck);
      WakeOneGentle(s, c, items[0], luck);
      var s1 := WakeOne(s, c, items[0], luck);
      AheadNext(s, s1, items, BlockedOn(c));
      WakeAllGentle(s1, c, items[1..], luck);
      GentleTrans(s, s1, WakeAll(s1, c, items[1..], luck), {BlockedOn(c)});
    }
  }

  lemma TailGentle(s: State, c: nat, won: bool, luck: Luck)
    requires Lists(s) && c < 288
    ensures Gentle(s, Wake(Pull(s, c, won), c, luck), {BlockedOn(c)})
  {
    PullGentle(s, c, won);
    PullChain(s, c, won);
    var s1 := Pull(s, c, won);
    GentleMore(s, s1, {}, {BlockedOn(c)});
    if s1.lists[BlockedOn(c)].count != 0 {
      ListAhead(s1, BlockedOn(c));
      WakeAllGentle(s1, c, s1.lists[BlockedOn(c)].items, luck);
      GentleTrans(s, s1, WakeAll(s1, c, s1.lists[BlockedOn(c)].items, luck), {BlockedOn(c)});
    }
  }

  /** post_context_switch for a thread that leaves properly is safe and touches nothing of other cores. */
  lemma PostGentle(s: State, c: nat, p: nat, won: bool, luck: Luck)
    requires Lists(s) && Threads(s) && c < 288 && Departs(s, c, p)
    ensures Safe(s, c, p) && Gentle(s, Post(s, c, p, won, luck), Own(c))
  {
    PostPrevOwn(s, c, p, luck.free(p));
    PostPrevGentle(s, c, p, luck.free(p));
    PostPrevDrift(s, c, p, luck.free(p));
    var s1 := PostPrev(s, c, p, luck.free(p));
    TailGentle(s1, c, won, luck);
    var r := Wake(Pull(s1, c, won), c, luck);
    GentleMore(s1, r, {BlockedOn(c)}, Own(c));
    GentleTrans(s, s1, r, Own(c));
  }

  /** Threads on the runnable list stay there, except possibly the one that leaves. */
  lemma PostStays(s: State, c: nat, p: nat, won: bool, luck: Luck, u: nat)
    requires Lists(s) && c < 288 && Departs(s, c, p)
    requires 288 <= u < |s.tcbs| && s.tcbs[u].link == On(RunnableOn(c)) && (u != p || Calm(s.tcbs[u]))
    ensures Post(s, c, p, won, luck).tcbs[u].link == On(RunnableOn(c))
  {
    PrevStays(s, c, p, luck.free(p), u);
    TailStays(PostPrev(s, c, p, luck.free(p)), c, won, luck, u);
  }

  lemma PrevStays(s: State, c: nat, p: nat, won: bool, u: nat)
    requires Lists(s) && c < 288 && Departs(s, c, p)
    requires u < |s.tcbs| && s.tcbs[u].link == On(RunnableOn(c)) && (u != p || Calm(s.tcbs[u]))
    ensures var r := PostPrev(s, c, p, won); Lists(r) && r.tcbs[u].link == On(RunnableOn(c))
  {
    PostPrevOwn(s, c, p, won);
    PostPrevDrift(s, c, p, won);
    if u != p { assert Close(s.tcbs[u], PostPrev(s, c, p, won).tcbs[u]); }
  }

  lemma TailStays(s: State, c: nat, won: bool, luck: Luck, u: nat)
    requires Lists(s) && c < 288 && 288 <= u < |s.tcbs| && s.tcbs[u].link == On(RunnableOn(c))
    ensures Wake(Pull(s, c, won), c, luck).tcbs[u].link == On(RunnableOn(c))
  {
    TailGentle(s, c, won, luck);
    assert Spared(u, s.tcbs[u], Wake(Pull(s, c, won), c, luck).tcbs[u], {BlockedOn(c)});
  }

  lemma EnterGentle(s: State, c: nat, next: nat)
    requires Shape(s) && c < 288 && next < |s.tcbs| && Next(s, c, next)
    ensures Gentle(s, Enter(s, c, next), {})
  {
  }

  lemma ResumeGentle(s: State, c: nat, t: nat)
    requires Shape(s) && t < |s.tcbs| && ((t == c < 288 && s.tcbs[t].link == Off) || s.tcbs[t].link == On(RunnableOn(c)))
    ensures Gentle(s, Resume(s, t), Own(c))
  {
  }

  /** Switching to another thread. */
  lemma EnterCurrent(s: State, c: nat, next: nat, won: bool, luck: Luck)
    requires Inv(s) && c < 288 && next < |s.tcbs| && Between(s, c, next) && next != s.running[c]
    ensures var r := Post(Enter(s, c, next), c, s.running[c], won, luck);
            Inv(r) && Gentle(s, r, Own(c)) && r.running == s.running[c := next] && Current(r, c)
  {
    var t := s.running[c];
    IdleOwner(s, c);
    EnterInv(s, c, next);
    EnterGentle(s, c, next);
    var s1 := Enter(s, c, next);
    assert s1.tcbs[t] == s.tcbs[t];
    PostGentle(s1, c, t, won, luck);
    if next != c { PostStays(s1, c, t, won, luck, next); }
    PostChain(s1, c, t, won, luck);
    GentleMore(s, s1, {}, Own(c));
    GentleTrans(s, s1, Post(s1, c, t, won, luck), Own(c));
  }

  /** Carrying on with the current thread. */
  lemma ResumeCurrent(s: State, c: nat, won: bool, luck: Luck)
    requires Inv(s) && c < 288 && Between(s, c, s.running[c])
    ensures var t := s.running[c]; var r := Resume(Post(s, c, t, won, luck), t);
            Gentle(s, r, Own(c)) && r.running == s.running && Current(r, c)
    ensures Safe(s, c, s.running[c])
  {
    var t := s.running[c];
    PostGentle(s, c, t, won, luck);
    if t != c { PostStays(s, c, t, won, luck, t); }
    PostChain(s, c, t, won, luck);
    var s1 := Post(s, c, t, won, luck);
    IdleOwner(s1, c);
    ResumeGentle(s1, c, t);
    GentleTrans(s, s1, Resume(s1, t), Own(c));
  }

  lemma RefillBetween(s: State, c: nat, next: nat)
    requires Shape(s) && c < 288 && next < |s.tcbs|
    ensures Between(Refill(s, next), c, next) == Between(s, c, next) && Refill(s, next).running == s.running
  {
  }

  /** The second half of schedule after the first, whatever other cores did in between, as long as
      the current thread did not stop being calm: the switch is safe, the invariant is kept, and core
      c ends with a current thread of its own. */
  lemma SwitchCurrent(s: State, c: nat, next: nat, won: bool, luck: Luck)
    requires Inv(s) && c < 288 && next < |s.tcbs| && Between(s, c, next)
    ensures var r := Switch(s, c, next, won, luck);
            Inv(r) && Gentle(s, r, Own(c)) && r.running == s.running[c := next] && Current(r, c)
  {
    var t := s.running[c];
    RefillInv(s, next);
    RefillGentle(s, next);
    RefillBetween(s, c, next);
    var s1 := Refill(s, next);
    GentleMore(s, s1, {}, Own(c));
    if next == t {
      ResumeCurrent(s1, c, won, luck);
      SameSwitch(s1, c, won, luck);
      assert ThreadAt(s1, t);
      GentleTrans(s, s1, Resume(Post(s1, c, t, won, luck), t), Own(c));
    } else {
      EnterCurrent(s1, c, next, won, luck);
      GentleTrans(s, s1, Post(Enter(s1, c, next), c, t, won, luck), Own(c));
    }
  }
}
