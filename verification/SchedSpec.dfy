/** Thread control blocks, the lists they are on, and every operation of the scheduler as a
    function on states. Idle threads have ids below 288, one per core. */
module SchedSpec {
  import opened Options

  datatype ThreadState = NotAlloc | Created | Running | Ready | Blocked | Exited

  /** What a thread has been asked to become. */
  datatype Intention = Intention(ready: bool, blocked: bool, exited: bool)

  datatype ListId = GlobalFree | LocalFree(core: nat) | Migrating | RunnableOn(core: nat) | BlockedOn(core: nat)

  /** The ring a block's link is part of; Off when it is linked to itself. */
  datatype Link = Off | On(list: ListId)

  datatype Tcb = Tcb(state: ThreadState, intent: Intention, refc: int, link: Link, slice: int,
                     runningCore: int, forbidden: set<nat>, gen: nat)

  /** A thread list keeps its length in a separate counter. */
  datatype CountedList = CountedList(items: seq<nat>, count: int)

  /** gets and allocs log, for each block, the references handed out and not yet put back and
      the number of allocations; halted tells that a debug_halt was reached. */
  datatype State = State(tcbs: seq<Tcb>, lists: map<ListId, CountedList>, running: seq<nat>,
                         gets: seq<nat>, allocs: seq<nat>, halted: bool)

  /** Which locks a trylock wins, thread by thread. */
  datatype Luck = Luck(free: nat -> bool, migrating: nat -> bool)

  predicate Known(id: ListId) {
    (id.LocalFree? || id.RunnableOn? || id.BlockedOn?) ==> id.core < 288
  }

  predicate KnownLink(link: Link) {
    link.On? ==> Known(link.list)
  }

  ghost predicate Shape(s: State) {
    && 288 <= |s.tcbs| == |s.gets| == |s.allocs| && |s.running| == 288
    && (forall c :: 0 <= c < 288 ==> s.running[c] < |s.tcbs|)
    && (forall id :: id in s.lists <==> Known(id))
    && (forall id :: id in s.lists ==> IdsBelow(s.lists[id].items, |s.tcbs|))
    && (forall t :: 0 <= t < |s.tcbs| ==> KnownLink(s.tcbs[t].link))
  }

  predicate IdsBelow(items: seq<nat>, n: nat) {
    forall i :: 0 <= i < |items| ==> items[i] < n
  }

  // ----- list primitives

  function SetTcb(s: State, t: nat, x: Tcb): (r: State)
    requires Shape(s) && t < |s.tcbs| && KnownLink(x.link)
    ensures Shape(r) && |r.tcbs| == |s.tcbs|
  {
    s.(tcbs := s.tcbs[t := x])
  }

  /** Adds d to the counter of a list. */
  function Count(s: State, id: ListId, d: int): (r: State)
    requires Shape(s) && Known(id)
    ensures Shape(r) && |r.tcbs| == |s.tcbs|
  {
    s.(lists := s.lists[id := s.lists[id].(count := s.lists[id].count + d)])
  }

  function Without(items: seq<nat>, t: nat): (r: seq<nat>)
    ensures forall i :: 0 <= i < |r| ==> r[i] in items
  {
    if items == [] then [] else if items[0] == t then items[1..] else [items[0]] + Without(items[1..], t)
  }

  /** dl_list_del_init: unlinks t from whatever ring it is on. */
  function Detach(s: State, t: nat): (r: State)
    requires Shape(s) && t < |s.tcbs|
    ensures Shape(r) && |r.tcbs| == |s.tcbs|
  {
    match s.tcbs[t].link
    case Off => s
    case On(id) =>
      SetTcb(s.(lists := s.lists[id := s.lists[id].(items := Without(s.lists[id].items, t))]), t,
             s.tcbs[t].(link := Off))
  }

  /** dl_list_add_tail. */
  function Append(s: State, t: nat, id: ListId): (r: State)
    requires Shape(s) && t < |s.tcbs| && Known(id)
    ensures Shape(r) && |r.tcbs| == |s.tcbs|
  {
    SetTcb(s.(lists := s.lists[id := s.lists[id].(items := s.lists[id].items + [t])]), t,
           s.tcbs[t].(link := On(id)))
  }

  function Take(s: State, t: nat, id: ListId): (r: State)
    requires Shape(s) && t < |s.tcbs| && Known(id)
    ensures Shape(r) && |r.tcbs| == |s.tcbs|
  {
    Detach(Count(s, id, -1), t)
  }

  function Give(s: State, t: nat, id: ListId): (r: State)
    requires Shape(s) && t < |s.tcbs| && Known(id)
    ensures Shape(r) && |r.tcbs| == |s.tcbs|
  {
    Count(Append(s, t, id), id, 1)
  }

  // ----- allocation, references, destruction

  function Fresh(x: Tcb): Tcb {
    x.(refc := 1, slice := 10, intent := Intention(false, false, false), runningCore := -1, forbidden := {},
       state := Created, link := Off)
  }

  function Claim(s: State, t: nat): (r: State)
    requires Shape(s) && t < |s.tcbs|
    ensures Shape(r) && |r.tcbs| == |s.tcbs|
  {
    SetTcb(s, t, Fresh(s.tcbs[t])).(allocs := s.allocs[t := s.allocs[t] + 1])
  }

  /** alloc_tcb on core c; None when the global list is empty, where the kernel halts. */
  function Alloc(s: State, c: nat): (r: (State, Option<nat>))
    requires Shape(s) && c < 288
    ensures Shape(r.0) && (r.1.Some? ==> r.1.value < |s.tcbs|) && |r.0.tcbs| == |s.tcbs|
  {
    var id := if s.lists[LocalFree(c)].count != 0 then LocalFree(c) else GlobalFree;
    var items := s.lists[id].items;
    if items == [] then (s.(halted := true), None)
    else
      (Claim(Take(s, items[0], id), items[0]), Some(items[0]))
  }

  function Scrub(s: State, t: nat): (r: State)
    requires Shape(s) && t < |s.tcbs|
    ensures Shape(r) && |r.tcbs| == |s.tcbs|
  {
    SetTcb(s, t, s.tcbs[t].(state := NotAlloc, runningCore := -1, gen := s.tcbs[t].gen + 1))
  }

  /** Moves core c's whole free list to the end of the global one. */
  function Spill(s: State, c: nat): (r: State)
    requires Shape(s) && c < 288
    ensures Shape(r) && |r.tcbs| == |s.tcbs|
  {
    var mine, all := s.lists[LocalFree(c)], s.lists[GlobalFree];
    s.(lists := s.lists[GlobalFree := CountedList(all.items + mine.items, all.count + mine.count)]
                       [LocalFree(c) := CountedList([], 0)],
       tcbs := seq(|s.tcbs|, i requires 0 <= i < |s.tcbs| => Relinked(s.tcbs[i], c)))
  }

  function Relinked(x: Tcb, c: nat): Tcb {
    if x.link == On(LocalFree(c)) then x.(link := On(GlobalFree)) else x
  }

  /** destroy_tcb on core c; won tells whether the global list's trylock succeeded. */
  function Destroy(s: State, c: nat, t: nat, won: bool): (r: State)
    requires Shape(s) && c < 288 && t < |s.tcbs|
    ensures Shape(r) && |r.tcbs| == |s.tcbs|
  {
    if s.lists[LocalFree(c)].count > 1 && won then Scrub(Give(s, t, GlobalFree), t)
    else if s.lists[LocalFree(c)].count > 4 then Give(Scrub(Spill(s, c), t), t, LocalFree(c))
    else Give(Scrub(s, t), t, LocalFree(c))
  }

  /** put_tcb. */
  function Drop(s: State, c: nat, t: nat, won: bool): (r: State)
    requires Shape(s) && c < 288 && t < |s.tcbs|
    ensures Shape(r) && |r.tcbs| == |s.tcbs|
  {
    var s1 := SetTcb(s, t, s.tcbs[t].(refc := s.tcbs[t].refc - 1));
    if s1.tcbs[t].refc != 0 then s1
    else if s1.tcbs[t].state == Exited then Destroy(s1, c, t, won)
    else if s1.tcbs[t].state != NotAlloc then s1.(halted := true)
    else s1
  }

  /** get_tcb: fails on an id out of range and on a block that is not allocated. */
  predicate Gettable(s: State, t: nat) {
    t < |s.tcbs| && s.tcbs[t].state != NotAlloc
  }

  function GetTcb(s: State, t: nat): (r: State)
    requires Shape(s)
    ensures Shape(r) && |r.tcbs| == |s.tcbs|
  {
    if !Gettable(s, t) then s
    else SetTcb(s, t, s.tcbs[t].(refc := s.tcbs[t].refc + 1)).(gets := s.gets[t := s.gets[t] + 1])
  }

  /** put_tcb by a holder of a reference. */
  function PutTcb(s: State, c: nat, t: nat, won: bool): (r: State)
    requires Shape(s) && c < 288 && t < |s.tcbs| && s.gets[t] > 0
    ensures Shape(r) && |r.tcbs| == |s.tcbs|
  {
    Drop(s.(gets := s.gets[t := s.gets[t] - 1]), c, t, won)
  }

  /** set_core: a thread made for one core is forbidden on all others, one made for core -1 on none. */
  function Mask(core: int): (forbidden: set<nat>)
    ensures forall d: nat :: d < 288 ==> (d in forbidden <==> core != -1 && d != core)
  {
    if core == -1 then {} else set c: nat | c < 288 && Elsewhere(c, core)
  }

  predicate Elsewhere(c: nat, core: int) {
    c != core
  }

  function Launched(x: Tcb, core: int): Tcb {
    x.(slice := 10, runningCore := core, forbidden := Mask(core), state := Ready)
  }

  function Launch(s: State, t: nat, core: int): (r: State)
    requires Shape(s) && t < |s.tcbs|
    ensures Shape(r) && |r.tcbs| == |s.tcbs|
  {
    Give(SetTcb(s, t, Launched(s.tcbs[t], core)), t, Migrating)
  }

  /** create_thread on core c, for the given core. */
  function Create(s: State, c: nat, core: int, won: bool): (r: State)
    requires Shape(s) && c < 288
    ensures Shape(r) && |r.tcbs| == |s.tcbs|
  {
    var (s1, found) := Alloc(s, c);
    if found.None? then s1
    else
      var t := found.value;
      PutTcb(Launch(GetTcb(s1, t), t, core), c, t, won)
  }

  function WithIntent(s: State, t: nat, intent: Intention): (r: State)
    requires Shape(s) && t < |s.tcbs|
    ensures Shape(r) && |r.tcbs| == |s.tcbs|
  {
    SetTcb(s, t, s.tcbs[t].(intent := intent))
  }

  /** thread_suspend, thread_wake_up and the first half of __thread_exit: a new intention
      between a get and a put. */
  function Ask(s: State, c: nat, t: nat, intent: Intention, won: bool): (r: State)
    requires Shape(s) && c < 288 && Gettable(s, t)
    ensures Shape(r) && |r.tcbs| == |s.tcbs|
  {
    PutTcb(WithIntent(GetTcb(s, t), t, intent), c, t, won)
  }

  // ----- choosing the next thread

  /** A thread leaves list id for good: thread_exit, unlinking, and the put of its own reference. */
  function Leave(s: State, c: nat, t: nat, id: ListId, won: bool): (r: State)
    requires Shape(s) && c < 288 && t < |s.tcbs| && Known(id)
    ensures Shape(r) && |r.tcbs| == |s.tcbs|
  {
    var s1 := SetTcb(s, t, s.tcbs[t].(state := Exited, intent := s.tcbs[t].intent.(exited := false)));
    Drop(Take(s1, t, id), c, t, won)
  }

  function Block(s: State, c: nat, t: nat): (r: State)
    requires Shape(s) && c < 288 && t < |s.tcbs|
    ensures Shape(r) && |r.tcbs| == |s.tcbs|
  {
    var s1 := Take(s, t, RunnableOn(c));
    Give(SetTcb(s1, t, s1.tcbs[t].(state := Blocked, intent := s1.tcbs[t].intent.(blocked := false))), t, BlockedOn(c))
  }

  predicate Available(x: Tcb) {
    x.slice > 0 && x.state == Ready
  }

  function Visit(s: State, c: nat, t: nat, found: Option<nat>, luck: Luck): (r: (State, Option<nat>))
    requires Shape(s) && c < 288 && t < |s.tcbs|
    ensures Shape(r.0) && |r.0.tcbs| == |s.tcbs|
    ensures r.1 == found || r.1 == Some(t)
  {
    var x := s.tcbs[t];
    if x.intent.exited then (Leave(s, c, t, RunnableOn(c), luck.free(t)), found)
    else if x.intent.blocked then (Block(s, c, t), found)
    else if Available(x) && c !in x.forbidden then
      if found.None? then (SetTcb(s, t, x.(state := Running)), Some(t)) else (s, found)
    else if Available(x) && luck.migrating(t) then
      (Give(Take(s, t, RunnableOn(c)), t, Migrating), found)
    else (s, found)
  }

  /** One traversal of the runnable list; the flag tells that it met the current thread exiting. */
  function Pass(s: State, c: nat, items: seq<nat>, found: Option<nat>, luck: Luck)
    : (r: (State, Option<nat>, bool))
    requires Shape(s) && c < 288 && IdsBelow(items, |s.tcbs|)
    requires found.Some? ==> found.value < |s.tcbs|
    ensures Shape(r.0) && |r.0.tcbs| == |s.tcbs| && (r.1.Some? ==> r.1.value < |s.tcbs|)
    decreases |items|
  {
    if items == [] then (s, found, false)
    else if s.tcbs[items[0]].intent.exited && s.running[c] == items[0] then (s, found, true)
    else
      var (s1, found1) := Visit(s, c, items[0], found, luck);
      Pass(s1, c, items[1..], found1, luck)
  }

  predicate Starved(x: Tcb) {
    x.state == Ready && x.slice <= 0
  }

  function Refill(s: State, t: nat): (r: State)
    requires Shape(s) && t < |s.tcbs|
    ensures Shape(r) && |r.tcbs| == |s.tcbs|
  {
    if s.tcbs[t].slice <= 0 then SetTcb(s, t, s.tcbs[t].(slice := 10)) else s
  }

  function RefillAll(s: State, items: seq<nat>): (r: State)
    requires Shape(s) && IdsBelow(items, |s.tcbs|)
    ensures Shape(r) && |r.tcbs| == |s.tcbs|
    decreases |items|
  {
    if items == [] then s
    else RefillAll(if Starved(s.tcbs[items[0]]) then Refill(s, items[0]) else s, items[1..])
  }

  /** When nothing was found: the only runnable thread, or the idle thread. */
  function Fallback(s: State, c: nat): (r: nat)
    requires Shape(s) && c < 288
    ensures r < |s.tcbs|
  {
    var list := s.lists[RunnableOn(c)];
    if list.count == 1 && list.items != [] then list.items[0] else c
  }

  /** One traversal of core c's runnable list and what it decides, if it decides anything. */
  function Attempt(s: State, c: nat, luck: Luck): (r: (State, Option<nat>))
    requires Shape(s) && c < 288
    ensures Shape(r.0) && |r.0.tcbs| == |s.tcbs| && (r.1.Some? ==> r.1.value < |s.tcbs|)
  {
    var (s1, found, exiting) := Pass(s, c, s.lists[RunnableOn(c)].items, None, luck);
    if exiting then (Refill(s1, c), Some(c)) else (s1, found)
  }

  /** select_next_thread on core c. A second traversal follows a refill; a third never does. */
  function Select(s: State, c: nat, luck: Luck, again: Luck): (r: (State, nat))
    requires Shape(s) && c < 288
    ensures Shape(r.0) && |r.0.tcbs| == |s.tcbs| && r.1 < |s.tcbs|
  {
    var (s1, found) := Attempt(s, c, luck);
    if found.Some? then (s1, found.value)
    else if NoneStarved(s1, s1.lists[RunnableOn(c)].items) then (s1, Fallback(s1, c))
    else
      var (s2, found2) := Attempt(RefillAll(s1, s1.lists[RunnableOn(c)].items), c, again);
      (s2, if found2.Some? then found2.value else Fallback(s2, c))
  }

  predicate NoneStarved(s: State, items: seq<nat>)
    requires IdsBelow(items, |s.tcbs|)
  {
    forall i :: 0 <= i < |items| ==> !Starved(s.tcbs[items[i]])
  }

  function Join(a: Intention, b: Intention): Intention {
    Intention(a.ready || b.ready, a.blocked || b.blocked, a.exited || b.exited)
  }

  /** Charges core c's current thread for its time and records its intention. */
  function Charge(s: State, c: nat, intent: Intention, consumed: int): (r: State)
    requires Shape(s) && c < 288
    ensures Shape(r) && |r.tcbs| == |s.tcbs|
  {
    var t := s.running[c];
    var x := s.tcbs[t];
    SetTcb(s, t, x.(slice := x.slice - consumed, intent := Join(x.intent, intent)))
  }

  /** The first half of schedule. */
  function Choose(s: State, c: nat, intent: Intention, consumed: int, luck: Luck, again: Luck): (r: (State, nat))
    requires Shape(s) && c < 288
    ensures Shape(r.0) && |r.0.tcbs| == |s.tcbs| && r.1 < |s.tcbs|
  {
    Select(Charge(s, c, intent, consumed), c, luck, again)
  }

  // ----- after the switch

  /** __post_context_switch for the previous thread p. */
  function PostPrev(s: State, c: nat, p: nat, won: bool): (r: State)
    requires Shape(s) && c < 288 && p < |s.tcbs|
    ensures Shape(r) && |r.tcbs| == |s.tcbs|
  {
    var x := s.tcbs[p];
    if x.state == Exited || x.state == NotAlloc then s
    else if x.intent.ready then
      SetTcb(s, p, x.(state := Ready, intent := x.intent.(ready := false, blocked := false)))
    else if x.intent.blocked then Block(s, c, p)
    else if x.intent.exited && s.running[c] != p then Leave(s, c, p, RunnableOn(c), won)
    else s
  }

  function Load(s: State, c: nat): int
    requires Shape(s) && c < 288
  {
    s.lists[RunnableOn(c)].count + s.lists[BlockedOn(c)].count
  }

  function Adopt(s: State, c: nat, t: nat): (r: State)
    requires Shape(s) && c < 288 && t < |s.tcbs|
    ensures Shape(r) && |r.tcbs| == |s.tcbs|
  {
    var s1 := Take(s, t, Migrating);
    Give(SetTcb(s1, t, s1.tcbs[t].(runningCore := c)), t, RunnableOn(c))
  }

  /** Adopts the migrating threads meant for core c, up to the limit; the flag tells it was hit. */
  function AdoptOwn(s: State, c: nat, items: seq<nat>): (r: (State, bool))
    requires Shape(s) && c < 288 && IdsBelow(items, |s.tcbs|)
    ensures Shape(r.0) && |r.0.tcbs| == |s.tcbs|
    decreases |items|
  {
    if items == [] then (s, false)
    else
      var s1 := if s.tcbs[items[0]].runningCore == c then Adopt(s, c, items[0]) else s;
      if Load(s1, c) == 2048 then (s1, true) else AdoptOwn(s1, c, items[1..])
  }

  /** Adopts at most one further thread that core c may run. */
  function AdoptOne(s: State, c: nat, items: seq<nat>): (r: State)
    requires Shape(s) && c < 288 && IdsBelow(items, |s.tcbs|)
    ensures Shape(r) && |r.tcbs| == |s.tcbs|
    decreases |items|
  {
    if items == [] then s
    else if c !in s.tcbs[items[0]].forbidden then Adopt(s, c, items[0])
    else if Load(s, c) == 2048 then s
    else AdoptOne(s, c, items[1..])
  }

  function Pull(s: State, c: nat, won: bool): (r: State)
    requires Shape(s) && c < 288
    ensures Shape(r) && |r.tcbs| == |s.tcbs|
  {
    if Load(s, c) < 2048 && s.lists[Migrating].count != 0 && won then
      var (s1, full) := AdoptOwn(s, c, s.lists[Migrating].items);
      if full then s1 else AdoptOne(s1, c, s1.lists[Migrating].items)
    else s
  }

  function Unblock(s: State, c: nat, t: nat): (r: State)
    requires Shape(s) && c < 288 && t < |s.tcbs|
    ensures Shape(r) && |r.tcbs| == |s.tcbs|
  {
    var s1 := Take(s, t, BlockedOn(c));
    Give(SetTcb(s1, t, s1.tcbs[t].(state := Ready, intent := s1.tcbs[t].intent.(ready := false, blocked := false))),
         t, RunnableOn(c))
  }

  function WakeOne(s: State, c: nat, t: nat, luck: Luck): (r: State)
    requires Shape(s) && c < 288 && t < |s.tcbs|
    ensures Shape(r) && |r.tcbs| == |s.tcbs|
  {
    var x := s.tcbs[t];
    if x.intent.exited then
      if s.running[c] == t then s else Leave(s, c, t, BlockedOn(c), luck.free(t))
    else if x.intent.ready then Unblock(s, c, t)
    else s
  }

  function WakeAll(s: State, c: nat, items: seq<nat>, luck: Luck): (r: State)
    requires Shape(s) && c < 288 && IdsBelow(items, |s.tcbs|)
    ensures Shape(r) && |r.tcbs| == |s.tcbs|
    decreases |items|
  {
    if items == [] then s else WakeAll(WakeOne(s, c, items[0], luck), c, items[1..], luck)
  }

  function Wake(s: State, c: nat, luck: Luck): (r: State)
    requires Shape(s) && c < 288
    ensures Shape(r) && |r.tcbs| == |s.tcbs|
  {
    if s.lists[BlockedOn(c)].count != 0 then WakeAll(s, c, s.lists[BlockedOn(c)].items, luck) else s
  }

  /** post_context_switch. */
  function Post(s: State, c: nat, p: nat, won: bool, luck: Luck): (r: State)
    requires Shape(s) && c < 288 && p < |s.tcbs|
    ensures Shape(r) && |r.tcbs| == |s.tcbs|
  {
    Wake(Pull(PostPrev(s, c, p, luck.free(p)), c, won), c, luck)
  }

  /** The chosen thread becomes core c's current thread. */
  function Enter(s: State, c: nat, next: nat): (r: State)
    requires Shape(s) && c < 288 && next < |s.tcbs|
    ensures Shape(r) && |r.tcbs| == |s.tcbs|
  {
    SetTcb(s, next, s.tcbs[next].(runningCore := c)).(running := s.running[c := next])
  }

  /** The current thread carries on. */
  function Resume(s: State, t: nat): (r: State)
    requires Shape(s) && t < |s.tcbs|
    ensures Shape(r) && |r.tcbs| == |s.tcbs|
  {
    SetTcb(s, t, s.tcbs[t].(state := Running, intent := s.tcbs[t].intent.(ready := false)))
  }

  /** The second half of schedule on core c, for the thread chosen in the first half. */
  function Switch(s: State, c: nat, next: nat, won: bool, luck: Luck): (r: State)
    requires Shape(s) && c < 288 && next < |s.tcbs|
    ensures Shape(r) && |r.tcbs| == |s.tcbs|
  {
    var t := s.running[c];
    var s1 := Refill(s, next);
    if next == t then Resume(Post(s1, c, t, won, luck), t) else Post(Enter(s1, c, next), c, t, won, luck)
  }
}
