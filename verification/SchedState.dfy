/** What the state of a thread means: who is marked as running, and when a core idles. */
module SchedState {
  import opened Options
  import opened Seqs
  import opened SchedSpec
  import opened SchedInv
  import opened SchedSteps
  import opened SchedOps
  import opened SchedCurrent
  import opened SchedRuns
  import opened Paths

  /** Marked as running, on core c's runnable list. */
  predicate Busy(x: Tcb, c: nat) {
    x.link == On(RunnableOn(c)) && x.state == Running
  }

  // ----- one traversal

  lemma {:induction false} PassFound(s: State, c: nat, items: seq<nat>, found: Option<nat>, luck: Luck)
    requires Shape(s) && c < 288 && IdsBelow(items, |s.tcbs|) && found.Some? && found.value < |s.tcbs|
    ensures Pass(s, c, items, found, luck).1 == found
    decreases |items|
  {
    if items != [] && !(s.tcbs[items[0]].intent.exited && s.running[c] == items[0]) {
      PassFound(Visit(s, c, items[0], found, luck).0, c, items[1..], found, luck);
    }
  }

  lemma VisitBusy(s: State, c: nat, t: nat, found: Option<nat>, luck: Luck, u: nat)
    requires Lists(s) && c < 288 && t < |s.tcbs| && s.tcbs[t].link == On(RunnableOn(c)) && u < |s.tcbs|
    ensures var (r, found1) := Visit(s, c, t, found, luck);
            Busy(r.tcbs[u], c) ==> Busy(s.tcbs[u], c) || (found.None? && found1 == Some(u))
  {
    VisitChain(s, c, t, found, luck);
    var x := s.tcbs[t];
    if u != t {
      assert Close(s.tcbs[u], Visit(s, c, t, found, luck).0.tcbs[u]);
    } else if x.intent.exited {
      LeaveOff(s, c, t, RunnableOn(c), luck.free(t));
    } else if x.intent.blocked {
      BlockChain(s, c, t);
    } else if Available(x) && c in x.forbidden && luck.migrating(t) {
      MigrateChain(s, c, t);
    }
  }

  /** The thread a traversal chooses is the only one it marks as running. */
  lemma {:induction false} PassBusy(s: State, c: nat, items: seq<nat>, found: Option<nat>, luck: Luck, u: nat)
    requires Lists(s) && c < 288 && Ahead(s, items, RunnableOn(c)) && (found.Some? ==> found.value < |s.tcbs|)
    requires u < |s.tcbs|
    ensures var (r, chosen, _) := Pass(s, c, items, found, luck);
            Busy(r.tcbs[u], c) ==> Busy(s.tcbs[u], c) || (found.None? && chosen == Some(u))
    decreases |items|
  {
    if items != [] && !(s.tcbs[items[0]].intent.exited && s.running[c] == items[0]) {
      VisitBusy(s, c, items[0], found, luck, u);
      var s1, found1 := VisitPicks(s, c, items, found, luck);
      PassBusy(s1, c, items[1..], found1, luck, u);
      if found1.Some? { PassFound(s1, c, items[1..], found1, luck); }
    }
  }

  /** It stays on the list, marked as running. */
  lemma {:induction false} PassChosen(s: State, c: nat, items: seq<nat>, found: Option<nat>, luck: Luck)
    requires Lists(s) && c < 288 && Ahead(s, items, RunnableOn(c))
    requires found.Some? ==> found.value < |s.tcbs| && found.value !in items && Busy(s.tcbs[found.value], c)
    ensures var (r, chosen, _) := Pass(s, c, items, found, luck); chosen.Some? ==> Busy(r.tcbs[chosen.value], c)
    decreases |items|
  {
    if items != [] && !(s.tcbs[items[0]].intent.exited && s.running[c] == items[0]) {
      var s1, found1 := VisitPicks(s, c, items, found, luck);
      if found.Some? { assert Close(s.tcbs[found.value], s1.tcbs[found.value]); }
      assert found1 == Some(items[0]) ==> items[0] !in items[1..];
      PassChosen(s1, c, items[1..], found1, luck);
    }
  }

  /** A traversal is cut short iff it meets the current thread asked to exit. */
  lemma {:induction false} PassExits(s: State, c: nat, items: seq<nat>, found: Option<nat>, luck: Luck)
    requires Lists(s) && c < 288 && Ahead(s, items, RunnableOn(c)) && (found.Some? ==> found.value < |s.tcbs|)
    ensures Pass(s, c, items, found, luck).2 <==> s.running[c] in items && s.tcbs[s.running[c]].intent.exited
    decreases |items|
  {
    var t := s.running[c];
    if items != [] && !(s.tcbs[items[0]].intent.exited && t == items[0]) {
      VisitChain(s, c, items[0], found, luck);
      var s1, found1 := VisitPicks(s, c, items, found, luck);
      PassExits(s1, c, items[1..], found1, luck);
      if t != items[0] {
        assert Close(s.tcbs[t], s1.tcbs[t]) && (t in items <==> t in items[1..]);
        if t in items { assert s.tcbs[t].link == On(RunnableOn(c)); }
      } else {
        assert t !in items[1..];
      }
    }
  }

  /** A thread that core c may run comes before its current thread on the list. */
  ghost predicate EarlyPick(s: State, c: nat, items: seq<nat>)
    requires c < |s.running| && IdsBelow(items, |s.tcbs|)
  {
    exists i, j :: 0 <= j < i < |items| && items[i] == s.running[c] && Pickable(s.tcbs[items[j]], c)
  }

  lemma EarlyNext(s: State, s1: State, c: nat, items: seq<nat>)
    requires Shape(s) && Shape(s1) && c < 288 && items != [] && Ahead(s, items, RunnableOn(c)) && Others(s, s1, items[0])
    requires IdsBelow(items, |s.tcbs|) && !Pickable(s.tcbs[items[0]], c)
    ensures EarlyPick(s1, c, items[1..]) <==> EarlyPick(s, c, items)
  {
    forall j | 0 < j < |items| ensures s1.tcbs[items[j]] == s.tcbs[items[j]] && items[1..][j - 1] == items[j] {
      assert Close(s.tcbs[items[j]], s1.tcbs[items[j]]);
    }
    if EarlyPick(s1, c, items[1..]) {
      var i, j :| 0 <= j < i < |items| - 1 && items[1..][i] == s1.running[c] && Pickable(s1.tcbs[items[1..][j]], c);
      assert items[i + 1] == s.running[c] && Pickable(s.tcbs[items[j + 1]], c);
    }
    if EarlyPick(s, c, items) {
      var i, j :| 0 <= j < i < |items| && items[i] == s.running[c] && Pickable(s.tcbs[items[j]], c);
      assert items[1..][i - 1] == s1.running[c] && Pickable(s1.tcbs[items[1..][j - 1]], c);
    }
  }

  /** A traversal that meets the current thread asked to exit has by then marked a thread as running iff
      one that the core may run comes before it. */
  lemma {:induction false} PassCut(s: State, c: nat, items: seq<nat>, luck: Luck)
    requires Lists(s) && c < 288 && Ahead(s, items, RunnableOn(c))
    requires s.running[c] in items && s.tcbs[s.running[c]].intent.exited
    ensures var chosen := Pass(s, c, items, None, luck).1;
            (chosen.Some? <==> EarlyPick(s, c, items)) && chosen != Some(s.running[c])
    decreases |items|
  {
    var t := s.running[c];
    if t == items[0] {
      assert !EarlyPick(s, c, items);
    } else {
      VisitChain(s, c, items[0], None, luck);
      var s1, found1 := VisitPicks(s, c, items, None, luck);
      assert t in items[1..] && Close(s.tcbs[t], s1.tcbs[t]) && s.tcbs[t].link == On(RunnableOn(c));
      if Pickable(s.tcbs[items[0]], c) {
        PassFound(s1, c, items[1..], found1, luck);
        var i :| 0 <= i < |items| && items[i] == t;
        assert items[0] == items[0] && 0 < i;
      } else {
        PassCut(s1, c, items[1..], luck);
        EarlyNext(s, s1, c, items);
      }
    }
  }

  /** The threads on core c's runnable list that are not ahead any more cannot be chosen. */
  ghost predicate Dull(s: State, c: nat, items: seq<nat>) {
    forall t: nat :: t < |s.tcbs| && s.tcbs[t].link == On(RunnableOn(c)) && t !in items ==> !Available(s.tcbs[t])
  }

  lemma DullNext(s: State, r: State, c: nat, items: seq<nat>)
    requires Shape(s) && Shape(r) && items != [] && items[0] < |s.tcbs| && Others(s, r, items[0]) && Dull(s, c, items)
    requires var x := r.tcbs[items[0]]; x.link == On(RunnableOn(c)) ==> !Available(x)
    ensures Dull(r, c, items[1..])
  {
    forall t: nat | t < |r.tcbs| && r.tcbs[t].link == On(RunnableOn(c)) && t !in items[1..] ensures !Available(r.tcbs[t]) {
      if t != items[0] { assert Close(s.tcbs[t], r.tcbs[t]) && t !in items; }
    }
  }

  lemma VisitDull(s: State, c: nat, t: nat, luck: Luck)
    requires Lists(s) && c < 288 && t < |s.tcbs| && s.tcbs[t].link == On(RunnableOn(c)) && AtHome(t, s.tcbs[t])
    ensures var (r, found) := Visit(s, c, t, None, luck); var x := r.tcbs[t];
            found.None? && x.link == On(RunnableOn(c)) ==> !Available(x)
  {
    var x := s.tcbs[t];
    if x.intent.exited {
      LeaveOff(s, c, t, RunnableOn(c), luck.free(t));
    } else if x.intent.blocked {
      BlockChain(s, c, t);
    }
  }

  /** A traversal that chooses nobody leaves nobody that could be chosen. */
  lemma {:induction false} PassDull(s: State, c: nat, items: seq<nat>, luck: Luck)
    requires Lists(s) && c < 288 && Ahead(s, items, RunnableOn(c)) && Homes(s) && Dull(s, c, items)
    ensures var (r, chosen, exiting) := Pass(s, c, items, None, luck); chosen.None? && !exiting ==> Dull(r, c, [])
    decreases |items|
  {
    if items != [] && !(s.tcbs[items[0]].intent.exited && s.running[c] == items[0]) {
      assert AtHome(items[0], s.tcbs[items[0]]);
      VisitGentle(s, c, items[0], None, luck);
      VisitDull(s, c, items[0], luck);
      var s1, found1 := VisitPicks(s, c, items, None, luck);
      GentleHomes(s, s1, {RunnableOn(c)});
      if found1.Some? {
        PassFound(s1, c, items[1..], found1, luck);
      } else {
        DullNext(s, s1, c, items);
        PassDull(s1, c, items[1..], luck);
      }
    }
  }

  // ----- what the first half of schedule decides

  /** The current thread of core c is on its runnable list and asked to exit. */
  predicate ExitsHere(s: State, c: nat)
    requires c < |s.running| && s.running[c] < |s.tcbs|
  {
    s.tcbs[s.running[c]].link == On(RunnableOn(c)) && s.tcbs[s.running[c]].intent.exited
  }

  lemma AttemptExits(s: State, c: nat, luck: Luck)
    requires Lists(s) && c < 288
    ensures Pass(s, c, s.lists[RunnableOn(c)].items, None, luck).2 <==> ExitsHere(s, c)
  {
    ListAhead(s, RunnableOn(c));
    assert ListOk(s, RunnableOn(c));
    PassExits(s, c, s.lists[RunnableOn(c)].items, None, luck);
  }

  lemma AttemptBusy(s: State, c: nat, luck: Luck, u: nat)
    requires Lists(s) && c < 288 && u < |s.tcbs|
    ensures var (r, found) := Attempt(s, c, luck);
            Busy(r.tcbs[u], c) ==> || Busy(s.tcbs[u], c)
                                   || if ExitsHere(s, c) then EarlyPick(s, c, s.lists[RunnableOn(c)].items) else found == Some(u)
  {
    var items := s.lists[RunnableOn(c)].items;
    ListAhead(s, RunnableOn(c));
    AttemptExits(s, c, luck);
    assert ListOk(s, RunnableOn(c));
    PassBusy(s, c, items, None, luck, u);
    if ExitsHere(s, c) { PassCut(s, c, items, luck); }
  }

  lemma AttemptActive(s: State, c: nat, luck: Luck)
    requires Lists(s) && c < 288
    ensures var (r, found) := Attempt(s, c, luck);
            if ExitsHere(s, c) then found == Some(c) else found.Some? ==> Busy(r.tcbs[found.value], c)
  {
    ListAhead(s, RunnableOn(c));
    AttemptExits(s, c, luck);
    PassChosen(s, c, s.lists[RunnableOn(c)].items, None, luck);
  }

  lemma AttemptHomes(s: State, c: nat, luck: Luck)
    requires Lists(s) && c < 288 && Homes(s)
    ensures var r := Attempt(s, c, luck).0; Lists(r) && Homes(r) && r.running == s.running
  {
    var items := s.lists[RunnableOn(c)].items;
    ListAhead(s, RunnableOn(c));
    AttemptChain(s, c, luck);
    PassGentle(s, c, items, None, luck);
    var s1 := Pass(s, c, items, None, luck).0;
    GentleHomes(s, s1, {RunnableOn(c)});
    RefillGentle(s1, c);
    GentleHomes(s1, Refill(s1, c), {});
  }

  /** A traversal that decides nothing leaves nobody that could be chosen. */
  lemma AttemptDull(s: State, c: nat, luck: Luck)
    requires Lists(s) && c < 288 && Homes(s) && Attempt(s, c, luck).1.None?
    ensures var r := Attempt(s, c, luck).0; Dull(r, c, []) && Cleared(r, c, [])
  {
    var items := s.lists[RunnableOn(c)].items;
    ListAhead(s, RunnableOn(c));
    assert ListOk(s, RunnableOn(c));
    PassDull(s, c, items, luck);
    PassClears(s, c, items, None, luck);
  }

  lemma RefilledHomes(s: State, c: nat)
    requires Lists(s) && c < 288 && Homes(s)
    ensures var r := RefillAll(s, s.lists[RunnableOn(c)].items);
            && Lists(r) && Homes(r) && r.running == s.running
            && forall u: nat {:trigger r.tcbs[u]} :: u < |s.tcbs| ==>
                 r.tcbs[u] == s.tcbs[u].(slice := r.tcbs[u].slice) && (!Starved(s.tcbs[u]) ==> r.tcbs[u] == s.tcbs[u])
  {
    ListAhead(s, RunnableOn(c));
    RefillAllChain(s, s.lists[RunnableOn(c)].items, RunnableOn(c));
    RefillAllGentle(s, s.lists[RunnableOn(c)].items, RunnableOn(c));
    GentleHomes(s, RefillAll(s, s.lists[RunnableOn(c)].items), {});
  }

  /** Of the threads on core c's runnable list, the first half of schedule marks as running only the
      thread it chooses, unless it is cut short by the current thread asked to exit. */
  lemma SelectBusy(s: State, c: nat, luck: Luck, again: Luck, u: nat)
    requires Lists(s) && c < 288 && Homes(s) && u < |s.tcbs|
    ensures var (r, next) := Select(s, c, luck, again);
            Busy(r.tcbs[u], c) ==> || Busy(s.tcbs[u], c)
                                   || if ExitsHere(s, c) then EarlyPick(s, c, s.lists[RunnableOn(c)].items) else next == u
  {
    AttemptBusy(s, c, luck, u);
    AttemptActive(s, c, luck);
    var (s1, found) := Attempt(s, c, luck);
    if found.None? {
      AttemptHomes(s, c, luck);
      AttemptDull(s, c, luck);
      RefilledHomes(s1, c);
      var s2 := RefillAll(s1, s1.lists[RunnableOn(c)].items);
      assert s2.tcbs[s.running[c]].intent == s1.tcbs[s.running[c]].intent;
      AttemptBusy(s2, c, again, u);
    }
  }

  /** Nobody on core c's runnable list is left to choose or to refill: all are marked as running. */
  lemma AllBusy(s: State, c: nat, u: nat)
    requires Lists(s) && c < 288 && Homes(s) && Dull(s, c, []) && NoneStarved(s, s.lists[RunnableOn(c)].items)
    requires u < |s.tcbs| && s.tcbs[u].link == On(RunnableOn(c))
    ensures Busy(s.tcbs[u], c)
  {
    assert ListOk(s, RunnableOn(c)) && AtHome(u, s.tcbs[u]);
  }

  lemma FallbackBusy(s: State, c: nat)
    requires Lists(s) && c < 288 && Homes(s) && Dull(s, c, []) && NoneStarved(s, s.lists[RunnableOn(c)].items)
    ensures Fallback(s, c) != c ==> Busy(s.tcbs[Fallback(s, c)], c)
  {
    ListAhead(s, RunnableOn(c));
    if Fallback(s, c) != c { AllBusy(s, c, Fallback(s, c)); }
  }

  /** How the first half of schedule ends: the core goes idle because its current thread exits, or it
      has a choice from its list marked as running, or all that is left on the list is so marked. */
  lemma SelectActive(s: State, c: nat, luck: Luck, again: Luck)
    requires Lists(s) && c < 288 && Homes(s)
    ensures var (r, next) := Select(s, c, luck, again);
            && Lists(r) && Homes(r) && (next != c ==> Busy(r.tcbs[next], c))
            && if ExitsHere(s, c) then next == c
               else next == c ==> next == Fallback(r, c) && Dull(r, c, []) && NoneStarved(r, r.lists[RunnableOn(c)].items)
  {
    AttemptActive(s, c, luck);
    AttemptHomes(s, c, luck);
    var (s1, found) := Attempt(s, c, luck);
    if found.Some? {
      assert AtHome(c, s1.tcbs[c]);
    } else {
      AttemptDull(s, c, luck);
      if NoneStarved(s1, s1.lists[RunnableOn(c)].items) { FallbackBusy(s1, c); } else { AgainActive(s1, c, again); }
    }
  }

  lemma AgainActive(s: State, c: nat, again: Luck)
    requires Lists(s) && c < 288 && Homes(s) && Cleared(s, c, [])
    ensures var (r, found) := Attempt(RefillAll(s, s.lists[RunnableOn(c)].items), c, again);
            var next := if found.Some? then found.value else Fallback(r, c);
            && Lists(r) && Homes(r) && (next != c ==> Busy(r.tcbs[next], c))
            && (next == c ==> next == Fallback(r, c) && Dull(r, c, []) && NoneStarved(r, r.lists[RunnableOn(c)].items))
  {
    RefilledHomes(s, c);
    var s1 := RefillAll(s, s.lists[RunnableOn(c)].items);
    assert s1.tcbs[s.running[c]].intent == s.tcbs[s.running[c]].intent;
    AttemptActive(s1, c, again);
    AttemptHomes(s1, c, again);
    RetryOnce(s, c, again);
    var (r, found) := Attempt(s1, c, again);
    assert AtHome(c, r.tcbs[c]);
    if found.None? {
      AttemptDull(s1, c, again);
      FallbackBusy(r, c);
    }
  }

  /** Of core c's runnable list, only the current thread is marked as running. */
  ghost predicate OnlyCurrent(s: State, c: nat)
    requires c < |s.running|
  {
    forall u: nat {:trigger Busy(s.tcbs[u], c)} :: u < |s.tcbs| && Busy(s.tcbs[u], c) ==> u == s.running[c]
  }

  lemma SelectIdle(s: State, c: nat, luck: Luck, again: Luck)
    requires Lists(s) && c < 288 && Homes(s) && Drift(s, RunnableOn(c)) == 0 && OnlyCurrent(s, c)
    ensures var (r, next) := Select(s, c, luck, again);
            next == c <==> ExitsHere(s, c) || r.lists[RunnableOn(c)].items == []
  {
    SelectActive(s, c, luck, again);
    SelectChain(s, c, luck, again);
    var (r, next) := Select(s, c, luck, again);
    var items := r.lists[RunnableOn(c)].items;
    assert ListOk(r, RunnableOn(c)) && Drift(r, RunnableOn(c)) == 0;
    if next == c && !ExitsHere(s, c) && items != [] {
      ListAhead(r, RunnableOn(c));
      assert AtHome(c, r.tcbs[c]) && items[0] != c && items[0] != items[1];
      forall i | 0 <= i < |items| ensures items[i] == s.running[c] {
        assert AtHome(items[i], r.tcbs[items[i]]) && items[i] != c;
        AllBusy(r, c, items[i]);
        SelectBusy(s, c, luck, again, items[i]);
      }
    }
  }

  /** While of its list only the current thread is marked as running, the first half of schedule lets
      core c go idle iff the current thread, still on the list, is asked to exit, or the list ends empty. */
  lemma ChooseIdle(s: State, c: nat, intent: Intention, consumed: int, luck: Luck, again: Luck)
    requires Inv(s) && c < 288 && Homes(s) && OnlyCurrent(s, c)
    ensures var (r, next) := Choose(s, c, intent, consumed, luck, again); var x := s.tcbs[s.running[c]];
            next == c <==> || (x.link == On(RunnableOn(c)) && (x.intent.exited || intent.exited))
                           || r.lists[RunnableOn(c)].items == []
  {
    Charged(s, c, intent, consumed);
    var s1 := Charge(s, c, intent, consumed);
    forall u: nat | u < |s1.tcbs| && Busy(s1.tcbs[u], c) ensures u == s1.running[c] { assert Busy(s.tcbs[u], c); }
    SelectIdle(s1, c, luck, again);
  }

  lemma Charged(s: State, c: nat, intent: Intention, consumed: int)
    requires Inv(s) && c < 288 && Homes(s)
    ensures var r := Charge(s, c, intent, consumed);
            && Lists(r) && Homes(r) && r.running == s.running && Drift(r, RunnableOn(c)) == 0 && r.lists == s.lists
            && forall u: nat {:trigger r.tcbs[u]} :: u < |s.tcbs| ==>
                 var x := s.tcbs[u];
                 r.tcbs[u] == if u != s.running[c] then x
                              else x.(slice := x.slice - consumed, intent := Join(x.intent, intent))
  {
    ChargeChain(s, c, intent, consumed);
    assert Drift(s, RunnableOn(c)) == 0;
    var r := Charge(s, c, intent, consumed);
    assert Drift(r, RunnableOn(c)) == Drift(s, RunnableOn(c));
    forall u: nat | u < |r.tcbs| ensures AtHome(u, r.tcbs[u]) { assert AtHome(u, s.tcbs[u]); }
  }

  /** Nothing on core c's runnable list can be chosen, refilled or taken off it. */
  ghost predicate Quiet(s: State, items: seq<nat>)
    requires IdsBelow(items, |s.tcbs|)
  {
    forall i :: 0 <= i < |items| ==>
      var x := s.tcbs[items[i]]; x.state != Ready && !x.intent.blocked && !x.intent.exited
  }

  lemma {:induction false} PassQuiet(s: State, c: nat, items: seq<nat>, luck: Luck)
    requires Shape(s) && c < 288 && IdsBelow(items, |s.tcbs|) && Quiet(s, items)
    ensures Pass(s, c, items, None, luck) == (s, None, false)
  {
    if items != [] { PassQuiet(s, c, items[1..], luck); }
  }

  /** Then the core runs the only thread of the list, or goes idle if there are none or several. */
  lemma SelectQuiet(s: State, c: nat, luck: Luck, again: Luck)
    requires Lists(s) && c < 288 && Drift(s, RunnableOn(c)) == 0 && Quiet(s, s.lists[RunnableOn(c)].items)
    ensures var items := s.lists[RunnableOn(c)].items;
            Select(s, c, luck, again) == (s, if |items| == 1 then items[0] else c)
  {
    PassQuiet(s, c, s.lists[RunnableOn(c)].items, luck);
  }

  // ----- what becomes of the previous thread

  /** Block t is the same in both states. */
  predicate Still(s: State, r: State, t: nat) {
    t < |s.tcbs| == |r.tcbs| && r.tcbs[t] == s.tcbs[t]
  }

  lemma OthersStill(s: State, r: State, u: nat, t: nat)
    requires Shape(s) && Shape(r) && Others(s, r, u) && t != u && t < |s.tcbs| && !OnFree(s.tcbs[t])
    ensures Still(s, r, t)
  {
    assert Close(s.tcbs[t], r.tcbs[t]);
  }

  lemma {:induction false} AdoptOwnStill(s: State, c: nat, items: seq<nat>, t: nat)
    requires Lists(s) && c < 288 && Ahead(s, items, Migrating)
    requires t < |s.tcbs| && s.tcbs[t].link != On(Migrating) && !OnFree(s.tcbs[t])
    ensures Still(s, AdoptOwn(s, c, items).0, t)
    decreases |items|
  {
    if items != [] {
      var s1 := AdoptOwnStep(s, c, items);
      if s.tcbs[items[0]].runningCore == c {
        AdoptChain(s, c, items[0]);
        OthersStill(s, s1, items[0], t);
      }
      if Load(s1, c) != 2048 { AdoptOwnStill(s1, c, items[1..], t); }
    }
  }

  lemma {:induction false} AdoptOneStill(s: State, c: nat, items: seq<nat>, t: nat)
    requires Lists(s) && c < 288 && Ahead(s, items, Migrating)
    requires t < |s.tcbs| && s.tcbs[t].link != On(Migrating) && !OnFree(s.tcbs[t])
    ensures Still(s, AdoptOne(s, c, items), t)
    decreases |items|
  {
    if items != [] {
      if c !in s.tcbs[items[0]].forbidden {
        AdoptChain(s, c, items[0]);
        OthersStill(s, Adopt(s, c, items[0]), items[0], t);
      } else if Load(s, c) != 2048 {
        AdoptOneStill(s, c, items[1..], t);
      }
    }
  }

  lemma PullStill(s: State, c: nat, won: bool, t: nat)
    requires Lists(s) && c < 288 && t < |s.tcbs| && s.tcbs[t].link != On(Migrating) && !OnFree(s.tcbs[t])
    ensures Still(s, Pull(s, c, won), t)
  {
    if Load(s, c) < 2048 && s.lists[Migrating].count != 0 && won {
      var items := s.lists[Migrating].items;
      ListAhead(s, Migrating);
      AdoptOwnChain(s, c, items);
      AdoptOwnStill(s, c, items, t);
      var (s1, full) := AdoptOwn(s, c, items);
      if !full {
        ListAhead(s1, Migrating);
        AdoptOneStill(s1, c, s1.lists[Migrating].items, t);
      }
    }
  }

  /** A thread that waits on core c's blocked list and is asked nothing. */
  predicate Resting(x: Tcb, c: nat) {
    x.link == On(BlockedOn(c)) && x.intent == Intention(false, false, false)
  }

  /** Waking leaves alone the threads that rest and those that are not on the blocked list. */
  lemma {:induction false} WakeAllStill(s: State, c: nat, items: seq<nat>, luck: Luck, t: nat)
    requires Lists(s) && c < 288 && Ahead(s, items, BlockedOn(c)) && t < |s.tcbs| && !OnFree(s.tcbs[t])
    requires s.tcbs[t].link != On(BlockedOn(c)) || Resting(s.tcbs[t], c)
    ensures Still(s, WakeAll(s, c, items, luck), t)
    decreases |items|
  {
    if items != [] {
      WakeOneChain(s, c, items[0], luck);
      var s1 := WakeOne(s, c, items[0], luck);
      if items[0] != t { OthersStill(s, s1, items[0], t); }
      AheadNext(s, s1, items, BlockedOn(c));
      WakeAllStill(s1, c, items[1..], luck, t);
    }
  }

  lemma TailStill(s: State, c: nat, won: bool, luck: Luck, t: nat)
    requires Lists(s) && c < 288 && t < |s.tcbs| && s.tcbs[t].link != On(Migrating) && !OnFree(s.tcbs[t])
    requires s.tcbs[t].link != On(BlockedOn(c)) || Resting(s.tcbs[t], c)
    ensures Still(s, Wake(Pull(s, c, won), c, luck), t)
  {
    PullStill(s, c, won, t);
    PullChain(s, c, won);
    var s1 := Pull(s, c, won);
    if s1.lists[BlockedOn(c)].count != 0 {
      ListAhead(s1, BlockedOn(c));
      WakeAllStill(s1, c, s1.lists[BlockedOn(c)].items, luck, t);
    }
  }

  lemma {:induction false} WakeAllEnds(s: State, c: nat, items: seq<nat>, luck: Luck, t: nat)
    requires Lists(s) && c < 288 && Ahead(s, items, BlockedOn(c)) && t < |s.tcbs| && t != s.running[c]
    requires if t in items then s.tcbs[t].intent.exited else !Live(s.tcbs[t].state)
    ensures !Live(WakeAll(s, c, items, luck).tcbs[t].state)
    decreases |items|
  {
    if items != [] {
      WakeOneChain(s, c, items[0], luck);
      var s1 := WakeOne(s, c, items[0], luck);
      if t == items[0] {
        LeaveEnds(s, c, t, BlockedOn(c), luck.free(t));
        assert t !in items[1..];
      } else {
        assert Close(s.tcbs[t], s1.tcbs[t]) && (t in items <==> t in items[1..]);
        if t in items { assert s.tcbs[t].link == On(BlockedOn(c)); }
      }
      AheadNext(s, s1, items, BlockedOn(c));
      WakeAllEnds(s1, c, items[1..], luck, t);
    }
  }

  lemma LeaveEnds(s: State, c: nat, t: nat, id: ListId, won: bool)
    requires Lists(s) && c < 288 && t < |s.tcbs| && Known(id) && !IsFree(id) && s.tcbs[t].link == On(id)
    ensures !Live(Leave(s, c, t, id, won).tcbs[t].state)
  {
    var s2 := UnlinkExited(s, t, id);
    DropOk(s2, c, t, won);
  }

  lemma TailEnds(s: State, c: nat, won: bool, luck: Luck, t: nat)
    requires Inv(s) && c < 288 && t < |s.tcbs| && t != s.running[c]
    requires !Live(s.tcbs[t].state) || (s.tcbs[t].link == On(BlockedOn(c)) && s.tcbs[t].intent.exited)
    ensures !Live(Wake(Pull(s, c, won), c, luck).tcbs[t].state)
  {
    var s1 := Pull(s, c, won);
    PullInv(s, c, won);
    PullLife(s, c, won, t);
    if Live(s.tcbs[t].state) { PullStill(s, c, won, t); }
    assert ThreadAt(s1, t) && ListOk(s1, BlockedOn(c)) && Drift(s1, BlockedOn(c)) == 0;
    ListAhead(s1, BlockedOn(c));
    WakeAllEnds(s1, c, s1.lists[BlockedOn(c)].items, luck, t);
  }

  lemma PullInv(s: State, c: nat, won: bool)
    requires Inv(s) && c < 288
    ensures Inv(Pull(s, c, won)) && Pull(s, c, won).running == s.running
  {
    PullChain(s, c, won);
    PullFits(s, c, won);
    ChainInv(s, Pull(s, c, won));
  }

  lemma PostPrevInv(s: State, c: nat, p: nat, won: bool)
    requires Inv(s) && c < 288 && p < |s.tcbs| && Safe(s, c, p)
    ensures Inv(PostPrev(s, c, p, won)) && PostPrev(s, c, p, won).running == s.running
  {
    PostPrevChain(s, c, p, won);
    LoadsFit(s, PostPrev(s, c, p, won));
    ChainInv(s, PostPrev(s, c, p, won));
  }

  /** What becomes of a thread that a core with another current thread has switched from. */
  predicate Parted(x: Tcb, y: Tcb, c: nat) {
    if x.intent.ready then y == x.(state := Ready, intent := Intention(false, false, x.intent.exited))
    else if x.intent.exited then !Live(y.state)
    else if x.intent.blocked then y == x.(state := Blocked, link := On(BlockedOn(c)), intent := Intention(false, false, false))
    else y == x
  }

  lemma PostParts(s: State, c: nat, t: nat, won: bool, luck: Luck)
    requires Inv(s) && c < 288 && t < |s.tcbs| && t != s.running[c] && s.tcbs[t].link == On(RunnableOn(c))
    ensures Parted(s.tcbs[t], Post(s, c, t, won, luck).tcbs[t], c)
  {
    var x := s.tcbs[t];
    assert ThreadAt(s, t);
    PostPrevInv(s, c, t, luck.free(t));
    var s1 := PostPrev(s, c, t, luck.free(t));
    if x.intent.ready {
      TailStill(s1, c, won, luck, t);
    } else if x.intent.blocked {
      BlockChain(s, c, t);
      if x.intent.exited { TailEnds(s1, c, won, luck, t); } else { TailStill(s1, c, won, luck, t); }
    } else if x.intent.exited {
      LeaveEnds(s, c, t, RunnableOn(c), luck.free(t));
      TailEnds(s1, c, won, luck, t);
    } else {
      TailStill(s1, c, won, luck, t);
    }
  }

  /** When core c switches from a thread of its runnable list to another one, the second half of
      schedule leaves the previous thread on the list, ready, if it is asked to run; ends it if it is
      asked to exit and not to run; blocks it if it is only asked to block; and otherwise does nothing
      to it. It keeps its time slice unless it is gone. */
  lemma SwitchParts(s: State, c: nat, next: nat, won: bool, luck: Luck)
    requires Inv(s) && c < 288 && next < |s.tcbs| && next != s.running[c]
    requires s.tcbs[s.running[c]].link == On(RunnableOn(c))
    ensures Parted(s.tcbs[s.running[c]], Switch(s, c, next, won, luck).tcbs[s.running[c]], c)
  {
    RefillInv(s, next);
    EnterInv(Refill(s, next), c, next);
    PostParts(Enter(Refill(s, next), c, next), c, s.running[c], won, luck);
  }

  /** A thread that is asked to run and not to exit is on its list again, ready and with no request left;
      with time left it can be chosen at the core's next traversal. */
  lemma YieldPickable(s: State, c: nat, next: nat, won: bool, luck: Luck)
    requires Inv(s) && Homes(s) && c < 288 && next < |s.tcbs| && next != s.running[c]
    requires var x := s.tcbs[s.running[c]]; x.link == On(RunnableOn(c)) && x.intent.ready && !x.intent.exited
    ensures var y := Switch(s, c, next, won, luck).tcbs[s.running[c]];
            && y.link == On(RunnableOn(c)) && y.state == Ready && y.intent == Intention(false, false, false)
            && (s.tcbs[s.running[c]].slice > 0 ==> Pickable(y, c))
  {
    assert AtHome(s.running[c], s.tcbs[s.running[c]]);
    SwitchParts(s, c, next, won, luck);
  }

  /** A thread that carries on has its slice, is marked as running, and has nothing asked of it. */
  lemma SwitchResumes(s: State, c: nat, won: bool, luck: Luck)
    requires Inv(s) && c < 288 && s.tcbs[s.running[c]].link == On(RunnableOn(c)) && Calm(s.tcbs[s.running[c]])
    ensures var t := s.running[c]; var x := s.tcbs[t];
            Switch(s, c, t, won, luck).tcbs[t] ==
              x.(state := Running, intent := Intention(false, false, false), slice := if x.slice <= 0 then 10 else x.slice)
  {
    var t := s.running[c];
    assert ThreadAt(s, t);
    RefillInv(s, t);
    var s1 := Refill(s, t);
    PostPrevInv(s1, c, t, luck.free(t));
    TailStill(PostPrev(s1, c, t, luck.free(t)), c, won, luck, t);
  }

  // ----- from one end of schedule to the other

  lemma {:induction false} PassCarries(s: State, c: nat, items: seq<nat>, found: Option<nat>, luck: Luck, u: nat)
    requires Lists(s) && c < 288 && Ahead(s, items, RunnableOn(c)) && (found.Some? ==> found.value < |s.tcbs|)
    requires u < |s.tcbs| && Busy(s.tcbs[u], c) && !s.tcbs[u].intent.blocked
    requires s.tcbs[u].intent.exited ==> u == s.running[c]
    ensures Still(s, Pass(s, c, items, found, luck).0, u)
    decreases |items|
  {
    if items != [] && !(s.tcbs[items[0]].intent.exited && s.running[c] == items[0]) {
      VisitChain(s, c, items[0], found, luck);
      var s1, found1 := VisitPicks(s, c, items, found, luck);
      if u != items[0] { OthersStill(s, s1, items[0], u); }
      PassCarries(s1, c, items[1..], found1, luck, u);
    }
  }

  lemma AttemptCarries(s: State, c: nat, luck: Luck, u: nat)
    requires Lists(s) && c < 288 && u < |s.tcbs| && u != c && Busy(s.tcbs[u], c) && !s.tcbs[u].intent.blocked
    requires s.tcbs[u].intent.exited ==> u == s.running[c]
    ensures Still(s, Attempt(s, c, luck).0, u)
  {
    ListAhead(s, RunnableOn(c));
    PassCarries(s, c, s.lists[RunnableOn(c)].items, None, luck, u);
  }

  /** The first half of schedule leaves alone a thread that is marked as running and not to block, nor
      to exit unless it is the current one. */
  lemma SelectCarries(s: State, c: nat, luck: Luck, again: Luck, u: nat)
    requires Lists(s) && c < 288 && Homes(s) && u < |s.tcbs| && Busy(s.tcbs[u], c) && !s.tcbs[u].intent.blocked
    requires s.tcbs[u].intent.exited ==> u == s.running[c]
    ensures Still(s, Select(s, c, luck, again).0, u)
  {
    assert AtHome(u, s.tcbs[u]);
    AttemptCarries(s, c, luck, u);
    AttemptHomes(s, c, luck);
    var s1 := Attempt(s, c, luck).0;
    RefilledHomes(s1, c);
    var s2 := RefillAll(s1, s1.lists[RunnableOn(c)].items);
    assert s2.tcbs[u] == s1.tcbs[u];
    AttemptCarries(s2, c, again, u);
  }

  /** A thread that asks only to run again keeps its place on the list and is charged exactly what it
      consumed: if another thread is next it becomes ready, otherwise it runs on, with a new slice if it
      has used up its own. */
  lemma YieldExact(s: State, c: nat, consumed: int, luck: Luck, again: Luck, won: bool)
    requires Inv(s) && c < 288 && Homes(s) && Busy(s.tcbs[s.running[c]], c)
    requires s.tcbs[s.running[c]].intent == Intention(false, false, false)
    ensures var (s1, next) := Choose(s, c, Intention(true, false, false), consumed, luck, again);
            var t := s.running[c]; var x := s.tcbs[t]; var left := x.slice - consumed;
            Switch(s1, c, next, won, luck).tcbs[t] ==
              if next != t then x.(state := Ready, slice := left) else x.(slice := if left <= 0 then 10 else left)
  {
    var t, intent := s.running[c], Intention(true, false, false);
    Charged(s, c, intent, consumed);
    var s0 := Charge(s, c, intent, consumed);
    SelectCarries(s0, c, luck, again, t);
    ChooseInv(s, c, intent, consumed, luck, again);
    ChooseChain(s, c, intent, consumed, luck, again);
    var (s1, next) := Choose(s, c, intent, consumed, luck, again);
    if next != t { SwitchParts(s1, c, next, won, luck); } else { SwitchResumes(s1, c, won, luck); }
  }

  /** A thread that is to exit, and not asked to run or to block, is gone when its core has been through
      schedule, and the core is idle. */
  lemma ExitExact(s: State, c: nat, intent: Intention, consumed: int, luck: Luck, again: Luck, won: bool)
    requires Inv(s) && c < 288 && Homes(s) && Busy(s.tcbs[s.running[c]], c)
    requires Join(s.tcbs[s.running[c]].intent, intent) == Intention(false, false, true)
    ensures var (s1, next) := Choose(s, c, intent, consumed, luck, again);
            next == c && !Live(Switch(s1, c, next, won, luck).tcbs[s.running[c]].state)
  {
    var t := s.running[c];
    Charged(s, c, intent, consumed);
    var s0 := Charge(s, c, intent, consumed);
    SelectCarries(s0, c, luck, again, t);
    SelectActive(s0, c, luck, again);
    ChooseInv(s, c, intent, consumed, luck, again);
    ChooseChain(s, c, intent, consumed, luck, again);
    var (s1, next) := Choose(s, c, intent, consumed, luck, again);
    assert AtHome(c, s.tcbs[c]);
    SwitchParts(s1, c, next, won, luck);
  }

  // ----- who is marked as running after the second half

  /** Everything after the handling of the previous thread marks nobody differently. */
  lemma TailBusy(s: State, c: nat, won: bool, luck: Luck, u: nat)
    requires Lists(s) && Homes(s) && c < 288 && u < |s.tcbs|
    ensures Busy(Wake(Pull(s, c, won), c, luck).tcbs[u], c) <==> Busy(s.tcbs[u], c)
  {
    TailGentle(s, c, won, luck);
    assert AtHome(u, s.tcbs[u]);
    assert Spared(u, s.tcbs[u], Wake(Pull(s, c, won), c, luck).tcbs[u], {BlockedOn(c)});
    if Busy(s.tcbs[u], c) { TailStill(s, c, won, luck, u); }
  }

  lemma PostBusy(s: State, c: nat, p: nat, won: bool, luck: Luck, u: nat)
    requires Lists(s) && Threads(s) && Homes(s) && c < 288 && Departs(s, c, p) && u < |s.tcbs|
    ensures Busy(Post(s, c, p, won, luck).tcbs[u], c) <==> Busy(PostPrev(s, c, p, luck.free(p)).tcbs[u], c)
    ensures u != p ==> (Busy(Post(s, c, p, won, luck).tcbs[u], c) <==> Busy(s.tcbs[u], c))
  {
    PostPrevOwn(s, c, p, luck.free(p));
    PostPrevGentle(s, c, p, luck.free(p));
    PostPrevDrift(s, c, p, luck.free(p));
    var s1 := PostPrev(s, c, p, luck.free(p));
    GentleHomes(s, s1, Own(c));
    TailBusy(s1, c, won, luck, u);
    if u != p { PrevBusy(s, s1, c, p, u); }
  }

  lemma PrevBusy(s: State, s1: State, c: nat, p: nat, u: nat)
    requires Shape(s) && Shape(s1) && Others(s, s1, p) && u < |s.tcbs| && u != p
    ensures Busy(s1.tcbs[u], c) <==> Busy(s.tcbs[u], c)
  {
    assert Close(s.tcbs[u], s1.tcbs[u]);
  }

  /** The second half of schedule marks no thread but the current one differently. */
  lemma SwitchBusy(s: State, c: nat, next: nat, won: bool, luck: Luck, u: nat)
    requires Inv(s) && Homes(s) && c < 288 && next < |s.tcbs| && Between(s, c, next)
    requires u < |s.tcbs| && u != s.running[c]
    ensures Busy(Switch(s, c, next, won, luck).tcbs[u], c) <==> Busy(s.tcbs[u], c)
  {
    var t := s.running[c];
    RefillInv(s, next);
    RefillGentle(s, next);
    var s1 := Refill(s, next);
    GentleHomes(s, s1, {});
    if next == t {
      PostBusy(s1, c, t, won, luck, u);
    } else {
      EnterInv(s1, c, next);
      EnterGentle(s1, c, next);
      GentleHomes(s1, Enter(s1, c, next), {});
      PostBusy(Enter(s1, c, next), c, t, won, luck, u);
    }
  }

  /** A request of any kind is pending. */
  predicate Asked(intent: Intention) {
    intent.ready || intent.blocked || intent.exited
  }

  /** A thread that is switched from with a request pending is no longer marked as running. */
  lemma SwitchUnmarks(s: State, c: nat, next: nat, won: bool, luck: Luck)
    requires Inv(s) && Homes(s) && c < 288 && next < |s.tcbs| && Between(s, c, next) && next != s.running[c]
    requires Busy(s.tcbs[s.running[c]], c) ==> Asked(s.tcbs[s.running[c]].intent)
    ensures !Busy(Switch(s, c, next, won, luck).tcbs[s.running[c]], c)
  {
    var t := s.running[c];
    if s.tcbs[t].link == On(RunnableOn(c)) {
      SwitchParts(s, c, next, won, luck);
      SwitchCurrent(s, c, next, won, luck);
      assert ThreadAt(Switch(s, c, next, won, luck), t);
    } else {
      RefillInv(s, next);
      var s1 := Enter(Refill(s, next), c, next);
      EnterInv(Refill(s, next), c, next);
      RefillGentle(s, next);
      GentleHomes(s, Refill(s, next), {});
      EnterGentle(Refill(s, next), c, next);
      GentleHomes(Refill(s, next), s1, {});
      PostPrevOwn(s1, c, t, luck.free(t));
      PostBusy(s1, c, t, won, luck, t);
    }
  }

  lemma {:induction false} PassIntent(s: State, c: nat, items: seq<nat>, found: Option<nat>, luck: Luck, u: nat)
    requires Lists(s) && c < 288 && Ahead(s, items, RunnableOn(c)) && (found.Some? ==> found.value < |s.tcbs|)
    requires u < |s.tcbs|
    ensures var y := Pass(s, c, items, found, luck).0.tcbs[u];
            y.link == On(RunnableOn(c)) ==> s.tcbs[u].link == y.link && s.tcbs[u].intent == y.intent
    decreases |items|
  {
    if items != [] && !(s.tcbs[items[0]].intent.exited && s.running[c] == items[0]) {
      VisitIntent(s, c, items[0], found, luck, u);
      var s1, found1 := VisitPicks(s, c, items, found, luck);
      PassIntent(s1, c, items[1..], found1, luck, u);
    }
  }

  lemma VisitIntent(s: State, c: nat, t: nat, found: Option<nat>, luck: Luck, u: nat)
    requires Lists(s) && c < 288 && t < |s.tcbs| && s.tcbs[t].link == On(RunnableOn(c)) && u < |s.tcbs|
    ensures var y := Visit(s, c, t, found, luck).0.tcbs[u];
            y.link == On(RunnableOn(c)) ==> s.tcbs[u].link == y.link && s.tcbs[u].intent == y.intent
  {
    VisitChain(s, c, t, found, luck);
    var x := s.tcbs[t];
    if u != t {
      assert Close(s.tcbs[u], Visit(s, c, t, found, luck).0.tcbs[u]);
    } else if x.intent.exited {
      LeaveOff(s, c, t, RunnableOn(c), luck.free(t));
    } else if x.intent.blocked {
      BlockChain(s, c, t);
    } else if Available(x) && c in x.forbidden && luck.migrating(t) {
      MigrateChain(s, c, t);
    }
  }

  lemma AttemptIntent(s: State, c: nat, luck: Luck, u: nat)
    requires Lists(s) && c < 288 && u < |s.tcbs|
    ensures var y := Attempt(s, c, luck).0.tcbs[u];
            y.link == On(RunnableOn(c)) ==> s.tcbs[u].link == y.link && s.tcbs[u].intent == y.intent
  {
    ListAhead(s, RunnableOn(c));
    PassIntent(s, c, s.lists[RunnableOn(c)].items, None, luck, u);
  }

  /** A thread that is on the list after the first half was there before, with the same requests. */
  lemma SelectIntent(s: State, c: nat, luck: Luck, again: Luck, u: nat)
    requires Lists(s) && c < 288 && Homes(s) && u < |s.tcbs|
    ensures var y := Select(s, c, luck, again).0.tcbs[u];
            y.link == On(RunnableOn(c)) ==> s.tcbs[u].link == y.link && s.tcbs[u].intent == y.intent
  {
    AttemptIntent(s, c, luck, u);
    AttemptHomes(s, c, luck);
    var (s1, found) := Attempt(s, c, luck);
    RefilledHomes(s1, c);
    var s2 := RefillAll(s1, s1.lists[RunnableOn(c)].items);
    assert s2.tcbs[u] == s1.tcbs[u].(slice := s2.tcbs[u].slice);
    AttemptIntent(s2, c, again, u);
  }

  // ----- calls

  /** How core c's threads are marked: outside schedule its current thread as running; between the
      halves the thread it will switch to; and a thread it switches from has a request pending. */
  ghost predicate MarkedOk(w: World, c: nat)
    requires Sound(w) && c < 288
  {
    var t := w.s.running[c];
    match w.pending[c]
    case None => t == c || Busy(w.s.tcbs[t], c)
    case Some(next) =>
      && (next == c || Busy(w.s.tcbs[next], c))
      && (t != next && Busy(w.s.tcbs[t], c) ==> Asked(w.s.tcbs[t].intent))
  }

  /** No thread of core c's list is marked as running that does not run and will not. */
  ghost predicate Tidy(w: World, c: nat)
    requires Sound(w) && c < 288
  {
    forall u: nat {:trigger Busy(w.s.tcbs[u], c)} :: u < |w.s.tcbs| && Busy(w.s.tcbs[u], c) ==>
      u == w.s.running[c] || w.pending[c] == Some(u)
  }

  ghost predicate AllMarked(w: World)
    requires Sound(w)
  {
    forall c: nat {:trigger MarkedOk(w, c)} :: c < 288 ==> MarkedOk(w, c)
  }

  ghost predicate AllTidy(w: World)
    requires Sound(w)
  {
    forall c: nat {:trigger Tidy(w, c)} :: c < 288 ==> Tidy(w, c)
  }

  /** Core c's current thread is to exit, and a thread that the core may run precedes it on the list. */
  ghost predicate Hides(s: State, c: nat, intent: Intention)
    requires Shape(s) && c < 288
  {
    (s.tcbs[s.running[c]].intent.exited || intent.exited) && EarlyPick(s, c, s.lists[RunnableOn(c)].items)
  }

  lemma ChargeHides(s: State, c: nat, intent: Intention, consumed: int)
    requires Inv(s) && c < 288 && Homes(s)
    ensures var s1 := Charge(s, c, intent, consumed);
            Hides(s, c, intent) <==> ExitsHere(s1, c) && EarlyPick(s1, c, s1.lists[RunnableOn(c)].items)
  {
    Charged(s, c, intent, consumed);
    var s1 := Charge(s, c, intent, consumed);
    var items := s.lists[RunnableOn(c)].items;
    assert ListOk(s, RunnableOn(c));
    if EarlyPick(s, c, items) {
      var i, j :| 0 <= j < i < |items| && items[i] == s.running[c] && Pickable(s.tcbs[items[j]], c);
      assert items[i] == s1.running[c] && Pickable(s1.tcbs[items[j]], c);
    }
    if EarlyPick(s1, c, items) {
      var i, j :| 0 <= j < i < |items| && items[i] == s1.running[c] && Pickable(s1.tcbs[items[j]], c);
      assert items[i] == s.running[c] && Pickable(s.tcbs[items[j]], c);
    }
  }

  /** The first half of schedule then leaves behind a thread marked as running, and the core goes idle. */
  lemma ChooseHides(s: State, c: nat, intent: Intention, consumed: int, luck: Luck, again: Luck) returns (f: nat)
    requires Inv(s) && c < 288 && Homes(s) && Hides(s, c, intent)
    ensures var (r, next) := Choose(s, c, intent, consumed, luck, again);
            f < |s.tcbs| && Busy(r.tcbs[f], c) && f != s.running[c] && next == c
  {
    Charged(s, c, intent, consumed);
    ChargeHides(s, c, intent, consumed);
    var s1 := Charge(s, c, intent, consumed);
    var items := s1.lists[RunnableOn(c)].items;
    AttemptExits(s1, c, luck);
    ListAhead(s1, RunnableOn(c));
    assert ListOk(s1, RunnableOn(c));
    PassCut(s1, c, items, luck);
    PassChosen(s1, c, items, None, luck);
    f := Pass(s1, c, items, None, luck).1.value;
  }

  lemma OutMarks(w: World, c: nat, intent: Intention, consumed: int, luck: Luck, again: Luck)
    requires WorldInv(w) && c < 288 && w.pending[c].None? && Tidy(w, c) && Asked(intent)
    ensures var (s1, next) := Choose(w.s, c, intent, consumed, luck, again);
            var w1 := World(s1, w.pending[c := Some(next)]);
            Sound(w1) && s1.running == w.s.running && MarkedOk(w1, c) && (Tidy(w1, c) <==> !Hides(w.s, c, intent))
  {
    Charged(w.s, c, intent, consumed);
    ChargeHides(w.s, c, intent, consumed);
    var s0 := Charge(w.s, c, intent, consumed);
    SelectActive(s0, c, luck, again);
    SelectChain(s0, c, luck, again);
    SelectIntent(s0, c, luck, again, w.s.running[c]);
    var (s1, next) := Select(s0, c, luck, again);
    if Hides(w.s, c, intent) {
      var f := ChooseHides(w.s, c, intent, consumed, luck, again);
      assert AtHome(c, s1.tcbs[c]);
    } else {
      forall u: nat | u < |s1.tcbs| && Busy(s1.tcbs[u], c) ensures u == s1.running[c] || next == u {
        SelectBusy(s0, c, luck, again, u);
      }
    }
  }

  /** After the second half, the new current thread is marked as running, the previous one is not. */
  lemma SwitchMarks(s: State, c: nat, next: nat, won: bool, luck: Luck)
    requires Inv(s) && Homes(s) && c < 288 && next < |s.tcbs| && Between(s, c, next)
    requires next == c || Busy(s.tcbs[next], c)
    requires next != s.running[c] && Busy(s.tcbs[s.running[c]], c) ==> Asked(s.tcbs[s.running[c]].intent)
    ensures var r := Switch(s, c, next, won, luck);
            (next == c || Busy(r.tcbs[next], c)) && (next != s.running[c] ==> !Busy(r.tcbs[s.running[c]], c))
  {
    if next != s.running[c] {
      SwitchBusy(s, c, next, won, luck, next);
      SwitchUnmarks(s, c, next, won, luck);
    } else if next != c {
      SwitchResumes(s, c, won, luck);
    }
  }

  lemma MarksAfter(w: World, c: nat, r: State)
    requires Sound(w) && c < 288 && w.pending[c].Some? && MarkedOk(w, c) && Sound(World(r, w.pending[c := None]))
    requires var t, next := w.s.running[c], w.pending[c].value;
             && |r.tcbs| == |w.s.tcbs| && r.running == w.s.running[c := next]
             && (next == c || Busy(r.tcbs[next], c)) && (next != t ==> !Busy(r.tcbs[t], c))
             && forall u: nat {:trigger r.tcbs[u]} :: u < |r.tcbs| && u != t ==> (Busy(r.tcbs[u], c) <==> Busy(w.s.tcbs[u], c))
    ensures var w1 := World(r, w.pending[c := None]); MarkedOk(w1, c) && (Tidy(w1, c) <==> Tidy(w, c))
  {
    var w1 := World(r, w.pending[c := None]);
    if Tidy(w1, c) {
      forall u: nat | u < |w.s.tcbs| && Busy(w.s.tcbs[u], c) ensures u == w.s.running[c] || w.pending[c] == Some(u) {
        if u != w.s.running[c] { assert Busy(r.tcbs[u], c); }
      }
    }
  }

  lemma SwitchOthers(s: State, c: nat, next: nat, won: bool, luck: Luck)
    requires Inv(s) && Homes(s) && c < 288 && next < |s.tcbs| && Between(s, c, next)
    ensures var r := Switch(s, c, next, won, luck);
            forall u: nat {:trigger r.tcbs[u]} :: u < |r.tcbs| && u != s.running[c] ==>
              (Busy(r.tcbs[u], c) <==> Busy(s.tcbs[u], c))
  {
    var r := Switch(s, c, next, won, luck);
    forall u: nat | u < |r.tcbs| && u != s.running[c] ensures Busy(r.tcbs[u], c) <==> Busy(s.tcbs[u], c) {
      SwitchBusy(s, c, next, won, luck, u);
    }
  }

  lemma InMarks(w: World, c: nat, won: bool, luck: Luck)
    requires WorldInv(w) && c < 288 && w.pending[c].Some? && MarkedOk(w, c)
    ensures var w1 := World(Switch(w.s, c, w.pending[c].value, won, luck), w.pending[c := None]);
            Sound(w1) && MarkedOk(w1, c) && (Tidy(w1, c) <==> Tidy(w, c))
  {
    assert CoreOk(w, c);
    var next := w.pending[c].value;
    var r := Switch(w.s, c, next, won, luck);
    AfterSwitch(w, c, won, luck);
    SwitchMarks(w.s, c, next, won, luck);
    SwitchOthers(w.s, c, next, won, luck);
    MarksAfter(w, c, r);
  }

  /** Core c's threads are marked as before, and what was asked of them still is. */
  ghost predicate SameMarks(s: State, r: State, c: nat) {
    && |r.tcbs| == |s.tcbs| && c < |s.running| && c < |r.running| && r.running[c] == s.running[c]
    && forall u: nat {:trigger r.tcbs[u]} :: u < |s.tcbs| ==>
         && (Busy(r.tcbs[u], c) <==> Busy(s.tcbs[u], c))
         && (Busy(s.tcbs[u], c) && Asked(s.tcbs[u].intent) ==> Asked(r.tcbs[u].intent))
  }

  lemma SameTidy(w: World, w': World, c: nat)
    requires Sound(w) && Sound(w') && c < 288 && SameMarks(w.s, w'.s, c) && w'.pending[c] == w.pending[c]
    ensures (MarkedOk(w, c) ==> MarkedOk(w', c)) && (Tidy(w', c) <==> Tidy(w, c))
  {
    if Tidy(w', c) {
      forall u: nat | u < |w.s.tcbs| && Busy(w.s.tcbs[u], c) ensures u == w.s.running[c] || w.pending[c] == Some(u) {
        assert Busy(w'.s.tcbs[u], c);
      }
    }
  }

  lemma GentleMarks(s: State, r: State, touched: set<ListId>, c: nat)
    requires Gentle(s, r, touched) && Homes(s) && RunnableOn(c) !in touched
    requires c < |s.running| && c < |r.running| && r.running[c] == s.running[c]
    ensures SameMarks(s, r, c)
  {
    forall u: nat | u < |s.tcbs|
      ensures Busy(r.tcbs[u], c) <==> Busy(s.tcbs[u], c)
      ensures Busy(s.tcbs[u], c) && Asked(s.tcbs[u].intent) ==> Asked(r.tcbs[u].intent)
    {
      assert AtHome(u, s.tcbs[u]) && Spared(u, s.tcbs[u], r.tcbs[u], touched);
    }
  }

  /** A call of core d that touches only its own lists. */
  lemma CallMarks(w: World, w': World, d: nat)
    requires WorldInv(w) && Sound(w') && Gentle(w.s, w'.s, Own(d)) && AllMarked(w) && AllTidy(w)
    requires forall c :: 0 <= c < 288 && c != d ==> w'.pending[c] == w.pending[c] && w'.s.running[c] == w.s.running[c]
    requires d < 288 ==> MarkedOk(w', d)
    ensures AllMarked(w') && (AllTidy(w') <==> d < 288 ==> Tidy(w', d))
  {
    forall c: nat | c < 288 && c != d ensures MarkedOk(w', c) && Tidy(w', c) {
      assert MarkedOk(w, c) && Tidy(w, c);
      GentleMarks(w.s, w'.s, Own(d), c);
      SameTidy(w, w', c);
    }
  }

  /** A call that leaves all cores' threads marked as before. */
  lemma QuietMarks(w: World, r: State)
    requires Sound(w) && Sound(w.(s := r)) && AllMarked(w) && AllTidy(w)
    requires forall c: nat {:trigger SameMarks(w.s, r, c)} :: c < 288 ==> SameMarks(w.s, r, c)
    ensures AllMarked(w.(s := r)) && AllTidy(w.(s := r))
  {
    forall c: nat | c < 288 ensures MarkedOk(w.(s := r), c) && Tidy(w.(s := r), c) {
      assert MarkedOk(w, c) && Tidy(w, c) && SameMarks(w.s, r, c);
      SameTidy(w, w.(s := r), c);
    }
  }

  lemma CreateMarks(w: World, c: nat, target: int, won: bool)
    requires WorldInv(w) && AllMarked(w) && AllTidy(w) && c < 288 && HasFree(w.s, c)
    ensures var w' := w.(s := Create(w.s, c, target, won)); AllMarked(w') && AllTidy(w')
  {
    CreateInv(w.s, c, target, won);
    var r, t := Create(w.s, c, target, won), Alloc(w.s, c).1.value;
    NewMarks(w.s, r, t);
    QuietMarks(w, r);
  }

  lemma NewMarks(s: State, r: State, t: nat)
    requires Shape(s) && Shape(r) && t < |s.tcbs| && Others(s, r, t) && OnFree(s.tcbs[t]) && r.tcbs[t].link == On(Migrating)
    ensures forall c: nat {:trigger SameMarks(s, r, c)} :: c < 288 ==> SameMarks(s, r, c)
  {
    forall u: nat | u < |s.tcbs| && u != t ensures Close(s.tcbs[u], r.tcbs[u]) {}
    forall c: nat | c < 288 ensures SameMarks(s, r, c) {}
  }

  lemma RefMarks(w: World, r: State)
    requires WorldInv(w) && AllMarked(w) && AllTidy(w) && Shape(r) && Gentle(w.s, r, {}) && r.running == w.s.running
    ensures AllMarked(w.(s := r)) && AllTidy(w.(s := r))
  {
    forall c: nat | c < 288 ensures SameMarks(w.s, r, c) { GentleMarks(w.s, r, {}, c); }
    QuietMarks(w, r);
  }

  lemma GetMarks(w: World, t: nat)
    requires WorldInv(w) && AllMarked(w) && AllTidy(w)
    ensures var w' := w.(s := GetTcb(w.s, t)); AllMarked(w') && AllTidy(w')
  {
    assert Gentle(w.s, GetTcb(w.s, t), {});
    RefMarks(w, GetTcb(w.s, t));
  }

  lemma PutMarks(w: World, c: nat, t: nat, won: bool)
    requires WorldInv(w) && AllMarked(w) && AllTidy(w) && c < 288 && t < |w.s.tcbs| && w.s.gets[t] > 0
    ensures var w' := w.(s := PutTcb(w.s, c, t, won)); AllMarked(w') && AllTidy(w')
  {
    PutInv(w.s, c, t, won);
    var r := PutTcb(w.s, c, t, won);
    assert ThreadAt(w.s, t);
    GentleOne(w.s, r, t, {});
    RefMarks(w, r);
  }

  lemma AskMarks(w: World, c: nat, t: nat, intent: Intention, won: bool)
    requires WorldInv(w) && AllMarked(w) && AllTidy(w) && c < 288 && Gettable(w.s, t) && Asked(intent)
    ensures var w' := w.(s := Ask(w.s, c, t, intent, won)); AllMarked(w') && AllTidy(w')
  {
    AskIs(w.s, c, t, intent, won);
    var r := WithIntent(w.s, t, intent);
    forall d: nat | d < 288 ensures SameMarks(w.s, r, d) {}
    QuietMarks(w, r);
  }

  lemma OutCall(w: World, c: nat, intent: Intention, consumed: int, luck: Luck, again: Luck)
    requires WorldInv(w) && AllMarked(w) && AllTidy(w) && c < 288 && w.pending[c].None? && Asked(intent)
    requires w.s.running[c] == c ==> intent.ready
    ensures var (s1, next) := Choose(w.s, c, intent, consumed, luck, again);
            var w1 := World(s1, w.pending[c := Some(next)]);
            WorldInv(w1) && AllMarked(w1) && (AllTidy(w1) <==> !Hides(w.s, c, intent))
  {
    assert CoreOk(w, c) && Tidy(w, c);
    OutStep(w, c, intent, consumed, luck, again);
    OutMarks(w, c, intent, consumed, luck, again);
    ChooseBetween(w.s, c, intent, consumed, luck, again);
    var (s1, next) := Choose(w.s, c, intent, consumed, luck, again);
    CallMarks(w, World(s1, w.pending[c := Some(next)]), c);
  }

  lemma InCall(w: World, c: nat, won: bool, luck: Luck)
    requires WorldInv(w) && AllMarked(w) && AllTidy(w) && c < 288 && w.pending[c].Some?
    ensures var w' := World(Switch(w.s, c, w.pending[c].value, won, luck), w.pending[c := None]);
            AllMarked(w') && AllTidy(w')
  {
    assert MarkedOk(w, c) && Tidy(w, c);
    AfterSwitch(w, c, won, luck);
    InMarks(w, c, won, luck);
    CallMarks(w, World(Switch(w.s, c, w.pending[c].value, won, luck), w.pending[c := None]), c);
  }

  lemma ScheduleGentle(s: State, c: nat, intent: Intention, consumed: int, luck: Luck, again: Luck, won: bool)
    requires Inv(s) && c < 288 && Homes(s) && Current(s, c) && (s.running[c] == c ==> intent.ready)
    ensures var (s1, next) := Choose(s, c, intent, consumed, luck, again);
            var r := Switch(s1, c, next, won, luck);
            Gentle(s, r, Own(c)) && r.running == s.running[c := next]
  {
    ChooseInv(s, c, intent, consumed, luck, again);
    ChooseBetween(s, c, intent, consumed, luck, again);
    var (s1, next) := Choose(s, c, intent, consumed, luck, again);
    SwitchCurrent(s1, c, next, won, luck);
    GentleTrans(s, s1, Switch(s1, c, next, won, luck), Own(c));
  }

  lemma ScheduleTidy(w: World, c: nat, intent: Intention, consumed: int, luck: Luck, again: Luck, won: bool)
    requires WorldInv(w) && c < 288 && Tidy(w, c) && w.pending[c].None? && Asked(intent)
    requires w.s.running[c] == c ==> intent.ready
    ensures var (s1, next) := Choose(w.s, c, intent, consumed, luck, again);
            var w2 := w.(s := Switch(s1, c, next, won, luck));
            Sound(w2) && MarkedOk(w2, c) && (Tidy(w2, c) <==> !Hides(w.s, c, intent))
  {
    OutStep(w, c, intent, consumed, luck, again);
    OutMarks(w, c, intent, consumed, luck, again);
    var (s1, next) := Choose(w.s, c, intent, consumed, luck, again);
    InTidy(w, c, s1, next, won, luck);
  }

  lemma InTidy(w: World, c: nat, s1: State, next: nat, won: bool, luck: Luck)
    requires c < 288 && |w.pending| == 288 && w.pending[c].None?
    requires var w1 := World(s1, w.pending[c := Some(next)]); WorldInv(w1) && MarkedOk(w1, c)
    ensures var w1, w2 := World(s1, w.pending[c := Some(next)]), World(Switch(s1, c, next, won, luck), w.pending);
            Sound(w2) && MarkedOk(w2, c) && (Tidy(w2, c) <==> Tidy(w1, c))
  {
    var w1 := World(s1, w.pending[c := Some(next)]);
    InMarks(w1, c, won, luck);
    assert w1.pending[c := None] == w.pending;
  }

  lemma ScheduleCall(w: World, c: nat, intent: Intention, consumed: int, luck: Luck, again: Luck, won: bool)
    requires WorldInv(w) && AllMarked(w) && AllTidy(w) && c < 288 && w.pending[c].None? && Asked(intent)
    requires w.s.running[c] == c ==> intent.ready
    ensures var (s1, next) := Choose(w.s, c, intent, consumed, luck, again);
            var w2 := w.(s := Switch(s1, c, next, won, luck));
            AllMarked(w2) && (AllTidy(w2) <==> !Hides(w.s, c, intent))
  {
    assert CoreOk(w, c) && Tidy(w, c);
    ScheduleTidy(w, c, intent, consumed, luck, again, won);
    ScheduleGentle(w.s, c, intent, consumed, luck, again, won);
    var (s1, next) := Choose(w.s, c, intent, consumed, luck, again);
    CallMarks(w, w.(s := Switch(s1, c, next, won, luck)), c);
  }

  /** A call of schedule says what is to become of the caller, as all of them do. */
  predicate Purposeful(call: Call) {
    call.Schedule? || call.ScheduleOut? ==> Asked(call.intent)
  }

  ghost predicate HidesSome(w: World, call: Call)
    requires Sound(w) && call.core < 288
  {
    (call.Schedule? || call.ScheduleOut?) && Hides(w.s, call.core, call.intent)
  }

  lemma OtherMarks(w: World, call: Call)
    requires WorldInv(w) && Callable(w, call) && AllMarked(w) && AllTidy(w) && !call.Schedule? && !call.ScheduleOut?
    ensures AllMarked(Apply(w, call)) && AllTidy(Apply(w, call))
  {
    match call
    case CreateThread(c, target, won) => CreateMarks(w, c, target, won);
    case GetRef(_, t) => GetMarks(w, t);
    case PutRef(c, t, won) => PutMarks(w, c, t, won);
    case Suspend(c, t, won) => AskMarks(w, c, t, w.s.tcbs[t].intent.(blocked := true), won);
    case WakeUp(c, t, won) => AskMarks(w, c, t, w.s.tcbs[t].intent.(ready := true), won);
    case ExitSelf(c, won) => AskMarks(w, c, w.s.running[c], Intention(false, false, true), won);
    case ScheduleIn(c, won, luck) => InCall(w, c, won, luck);
  }

  /** Every call keeps each core's current thread and choice marked as running, and keeps all other
      threads from being so marked iff it is not a schedule in which the current thread is to exit and
      a thread that the core may run precedes it on the list. */
  lemma StepMarks(w: World, call: Call)
    requires WorldInv(w) && Callable(w, call) && Purposeful(call) && AllMarked(w) && AllTidy(w)
    ensures AllMarked(Apply(w, call)) && (AllTidy(Apply(w, call)) <==> !HidesSome(w, call))
  {
    match call
    case Schedule(c, intent, consumed, luck, again, won) => ScheduleCall(w, c, intent, consumed, luck, again, won);
    case ScheduleOut(c, intent, consumed, luck, again) => OutCall(w, c, intent, consumed, luck, again);
    case _ => OtherMarks(w, call);
  }

  /** The first n calls disturb nobody, hide nobody and say what they want. */
  ghost predicate Careful(run: seq<World>, calls: seq<Call>, n: nat) {
    && Orderly(run, calls, n)
    && forall i: nat :: i < n ==>
         calls[i].core < 288 && Sound(run[i]) && Purposeful(calls[i]) && !HidesSome(run[i], calls[i])
  }

  lemma StartMarks(w: World)
    requires Start(w)
    ensures Sound(w) && AllMarked(w) && AllTidy(w)
  {
    forall c: nat | c < 288 ensures MarkedOk(w, c) && Tidy(w, c) {}
  }

  lemma NextMarks(w: World, call: Call, w': World)
    requires WorldInv(w) && Step(w, call, w') && Purposeful(call) && AllMarked(w) && AllTidy(w) && !HidesSome(w, call)
    ensures Sound(w')
    ensures AllMarked(w') && AllTidy(w')
  {
    StepMarks(w, call);
  }

  lemma {:induction false} RunMarks(run: seq<World>, calls: seq<Call>, i: nat)
    requires Run(run, calls) && Careful(run, calls, i)
    ensures WorldInv(run[i]) && AllMarked(run[i]) && AllTidy(run[i])
  {
    RunKeepsInv(run, calls, i);
    if i == 0 {
      StartMarks(run[0]);
    } else {
      RunMarks(run, calls, i - 1);
      PathStep(Step, run, calls, i);
      NextMarks(run[i - 1], calls[i - 1], run[i]);
    }
  }

  /** The state field over every careful run: of the threads on a core's runnable list, exactly the
      core's current thread is marked as running, whenever the core is not inside schedule. */
  lemma RunningExact(run: seq<World>, calls: seq<Call>, i: nat, c: nat, u: nat)
    requires Run(run, calls) && Careful(run, calls, i) && c < 288 && u < |run[i].s.tcbs|
    ensures Sound(run[i])
    ensures run[i].pending[c] == None ==> (Busy(run[i].s.tcbs[u], c) <==> u == run[i].s.running[c] != c)
  {
    RunMarks(run, calls, i);
    assert MarkedOk(run[i], c) && Tidy(run[i], c) && AtHome(c, run[i].s.tcbs[c]);
  }

  /** A hidden thread is chosen only when it is alone on its list. */
  lemma HiddenWaits(s: State, c: nat, luck: Luck, again: Luck, u: nat)
    requires Lists(s) && c < 288 && Homes(s) && Drift(s, RunnableOn(c)) == 0 && u < |s.tcbs| && Busy(s.tcbs[u], c)
    ensures var (r, next) := Select(s, c, luck, again); next == u ==> r.lists[RunnableOn(c)].items == [u]
  {
    assert AtHome(u, s.tcbs[u]);
    AttemptHidden(s, c, luck, u);
    AttemptHomes(s, c, luck);
    AttemptChain(s, c, luck);
    var s1 := Attempt(s, c, luck).0;
    assert Drift(s1, RunnableOn(c)) == 0;
    AgainHidden(s1, c, again, u);
    LoneFallback(s1, c, u);
  }

  lemma AgainHidden(s: State, c: nat, again: Luck, u: nat)
    requires Lists(s) && c < 288 && Homes(s) && Drift(s, RunnableOn(c)) == 0 && u < |s.tcbs| && u != c && s.tcbs[u].state != Ready
    ensures var (r, found) := Attempt(RefillAll(s, s.lists[RunnableOn(c)].items), c, again);
            found != Some(u) && (Fallback(r, c) == u ==> r.lists[RunnableOn(c)].items == [u])
  {
    RefilledHomes(s, c);
    var s1 := RefillAll(s, s.lists[RunnableOn(c)].items);
    assert s1.tcbs[u] == s.tcbs[u].(slice := s1.tcbs[u].slice);
    AttemptHidden(s1, c, again, u);
    AgainChain(s, c, again);
    var r := Attempt(s1, c, again).0;
    assert Drift(r, RunnableOn(c)) == 0;
    LoneFallback(r, c, u);
  }

  lemma LoneFallback(s: State, c: nat, u: nat)
    requires Shape(s) && c < 288 && Drift(s, RunnableOn(c)) == 0 && u != c
    ensures Fallback(s, c) == u ==> s.lists[RunnableOn(c)].items == [u]
  {
  }

  lemma AttemptHidden(s: State, c: nat, luck: Luck, u: nat)
    requires Lists(s) && c < 288 && u < |s.tcbs| && u != c && s.tcbs[u].state != Ready
    ensures var (r, found) := Attempt(s, c, luck); found != Some(u)
    ensures Attempt(s, c, luck).0.tcbs[u].state != Ready
  {
    var items := s.lists[RunnableOn(c)].items;
    ListAhead(s, RunnableOn(c));
    if !Pass(s, c, items, None, luck).2 { var k := PassPicks(s, c, items, None, luck); }
    PassHidden(s, c, items, None, luck, u);
  }

  lemma {:induction false} PassHidden(s: State, c: nat, items: seq<nat>, found: Option<nat>, luck: Luck, u: nat)
    requires Lists(s) && c < 288 && Ahead(s, items, RunnableOn(c)) && (found.Some? ==> found.value < |s.tcbs|)
    requires u < |s.tcbs| && s.tcbs[u].state != Ready
    ensures Pass(s, c, items, found, luck).0.tcbs[u].state != Ready
    decreases |items|
  {
    if items != [] && !(s.tcbs[items[0]].intent.exited && s.running[c] == items[0]) {
      VisitHidden(s, c, items[0], found, luck, u);
      var s1, found1 := VisitPicks(s, c, items, found, luck);
      PassHidden(s1, c, items[1..], found1, luck, u);
    }
  }

  lemma VisitHidden(s: State, c: nat, t: nat, found: Option<nat>, luck: Luck, u: nat)
    requires Lists(s) && c < 288 && t < |s.tcbs| && s.tcbs[t].link == On(RunnableOn(c))
    requires u < |s.tcbs| && s.tcbs[u].state != Ready
    ensures Visit(s, c, t, found, luck).0.tcbs[u].state != Ready
  {
    VisitChain(s, c, t, found, luck);
    var x := s.tcbs[t];
    if u != t {
      assert Close(s.tcbs[u], Visit(s, c, t, found, luck).0.tcbs[u]);
    } else if x.intent.exited {
      LeaveEnds(s, c, t, RunnableOn(c), luck.free(t));
    } else if x.intent.blocked {
      BlockChain(s, c, t);
    }
  }
}
