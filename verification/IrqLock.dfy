/** The recursive ticket spinlock that saves and restores the interrupt flag, as a state
    machine over its individual reads and writes, for any interleaving of the cores. */
module IrqLock {
  import opened Levels
  import opened Seqs

  /** Where a core is inside lock and unlock; f is its local variable `flags`. */
  datatype Pc =
    | Rest                            // outside the lock functions
    | Disabled(f: bool)               // interrupts are off, owner not compared yet
    | Ticketing(f: bool)              // about to draw a ticket
    | Spinning(f: bool, ticket: nat)  // waiting for its turn
    | Owned(f: bool)                  // past the wait; about to write cid
    | CidSet(f: bool)                 // about to write flags
    | FlagsSet                        // about to write cnt
    | Releasing                       // cnt reached 0; about to read flags
    | Rel1(f: bool)                   // about to clear cid
    | Rel2(f: bool)                   // about to clear flags
    | Rel3(f: bool)                   // about to advance dequeue
    | Rel4(f: bool)                   // about to restore the interrupt flag

  /** irq is the core's interrupt flag; depth counts its nested locks; saved is the interrupt
      flag it had at its outermost lock. */
  datatype Core = Core(pc: Pc, irq: bool, depth: nat, saved: bool)

  /** The lock's fields, the cores, and the logs: drawn and acquired list the cores in the
      order of their tickets and of their turns, served counts the turns that are over. */
  datatype State = State(queue: nat, dequeue: nat, cid: int, cnt: int, flags: bool, cores: seq<Core>,
                         drawn: seq<nat>, acquired: seq<nat>, served: nat)

  function Inc64(x: nat): nat {
    (x + 1) % 0x1_0000_0000_0000_0000
  }

  function Put(s: State, c: nat, core: Core): State
    requires c < |s.cores|
  {
    s.(cores := s.cores[c := core])
  }

  ghost predicate Initial(s: State) {
    && s.queue == 0 && s.dequeue == 1 && s.cid == -1 && s.cnt == 0 && !s.flags
    && s.drawn == [] && s.acquired == [] && s.served == 0
    && |s.cores| <= 288
    && forall c :: 0 <= c < |s.cores| ==> s.cores[c].pc == Rest && s.cores[c].depth == 0
  }

  /** The next step of core c; `input` is the interrupt flag the surrounding code chooses, and
      `call` what it does when it is outside the lock functions. */
  datatype Call = Lock | Unlock | SetIrq(input: bool)

  function Next(s: State, c: nat, call: Call): State
    requires c < |s.cores|
  {
    var core := s.cores[c];
    match core.pc
    case Rest =>
      (match call
       case Lock =>
         Put(s, c, core.(pc := Disabled(core.irq), irq := false,
                         saved := if core.depth == 0 then core.irq else core.saved))
       case Unlock =>
         if core.depth == 0 then s
         else
           Put(s, c, core.(pc := if s.cnt - 1 == 0 then Releasing else Rest, depth := core.depth - 1))
           .(cnt := s.cnt - 1)
       case SetIrq(input) =>
         if core.depth == 0 then Put(s, c, core.(irq := input)) else s)
    case Disabled(f) =>
      if s.cid == c then Put(s, c, core.(pc := Rest, depth := core.depth + 1)).(cnt := s.cnt + 1)
      else Put(s, c, core.(pc := Ticketing(f)))
    case Ticketing(f) =>
      Put(s, c, core.(pc := Spinning(f, Inc64(s.queue)))).(queue := Inc64(s.queue), drawn := s.drawn + [c])
    case Spinning(f, ticket) =>
      if s.dequeue != ticket then s
      else Put(s, c, core.(pc := Owned(f))).(acquired := s.acquired + [c])
    case Owned(f) => Put(s, c, core.(pc := CidSet(f))).(cid := c)
    case CidSet(f) => Put(s, c, core.(pc := FlagsSet)).(flags := f)
    case FlagsSet => Put(s, c, core.(pc := Rest, depth := 1)).(cnt := 1)
    case Releasing => Put(s, c, core.(pc := Rel1(s.flags)))
    case Rel1(f) => Put(s, c, core.(pc := Rel2(f))).(cid := -1)
    case Rel2(f) => Put(s, c, core.(pc := Rel3(f))).(flags := false)
    case Rel3(f) => Put(s, c, core.(pc := Rel4(f))).(dequeue := Inc64(s.dequeue), served := s.served + 1)
    case Rel4(f) => Put(s, c, core.(pc := Rest, irq := if f then true else core.irq))
  }

  ghost predicate Step(s: State, s': State) {
    exists c: nat, call :: c < |s.cores| && s' == Next(s, c, call)
  }

  ghost predicate StepAt(run: seq<State>, i: int)
    requires 0 <= i < |run| - 1
  {
    Step(run[i], run[i + 1])
  }

  ghost predicate Run(run: seq<State>) {
    run != [] && Initial(run[0]) && forall i :: 0 <= i < |run| - 1 ==> StepAt(run, i)
  }

  // ----- the invariant

  /** Past the ticket wait and not yet past the unlock's increment of dequeue. */
  predicate Holds(core: Core) {
    core.depth > 0 || core.pc.Owned? || core.pc.CidSet? || core.pc.FlagsSet? || core.pc.Releasing?
    || core.pc.Rel1? || core.pc.Rel2? || core.pc.Rel3?
  }

  predicate Queued(core: Core) {
    Holds(core) || core.pc.Spinning?
  }

  /** The stretch in which the lock's cid names the core. */
  predicate Named(core: Core) {
    core.depth > 0 || core.pc.CidSet? || core.pc.FlagsSet? || core.pc.Releasing? || core.pc.Rel1?
  }

  /** What holds of one core and the lock's fields. */
  ghost predicate CoreOk(cid: int, cnt: int, flags: bool, c: nat, core: Core) {
    && (core.depth > 0 ==> core.pc.Rest? || core.pc.Disabled?)
    && (core.depth > 0 || !core.pc.Rest? ==> !core.irq)
    && (cid == c <==> Named(core))
    && (core.depth > 0 ==> cnt == core.depth && flags == core.saved)
    && (core.pc.FlagsSet? || core.pc.Releasing? ==> flags == core.saved)
    && (core.pc.Disabled? && core.depth == 0 ==> core.pc.f == core.saved)
    && (core.pc.Ticketing? || core.pc.Spinning? || core.pc.Owned? || core.pc.CidSet? ==> core.pc.f == core.saved)
    && (core.pc.Rel1? || core.pc.Rel2? || core.pc.Rel3? || core.pc.Rel4? ==> core.pc.f == core.saved)
  }

  ghost predicate CoresOk(s: State) {
    forall c: nat {:trigger CoreOk(s.cid, s.cnt, s.flags, c, s.cores[c])} :: c < |s.cores| ==>
      CoreOk(s.cid, s.cnt, s.flags, c, s.cores[c])
  }

  /** Ticket number i belongs to a core that waits with it or holds the lock. */
  ghost predicate InPlace(s: State, i: nat)
    requires i < |s.drawn|
  {
    && s.drawn[i] < |s.cores|
    && if i < |s.acquired| then Holds(s.cores[s.drawn[i]])
       else s.cores[s.drawn[i]].pc.Spinning? && s.cores[s.drawn[i]].depth == 0
            && s.cores[s.drawn[i]].pc.ticket == (i + 1) % 0x1_0000_0000_0000_0000
  }

  ghost predicate HasTicket(s: State, c: nat) {
    exists i :: s.served <= i < |s.drawn| && s.drawn[i] == c
  }

  ghost predicate QueueOk(s: State) {
    && s.served <= |s.acquired| <= s.served + 1 && |s.acquired| <= |s.drawn|
    && s.acquired == s.drawn[..|s.acquired|]
    && s.queue == |s.drawn| % 0x1_0000_0000_0000_0000 && s.dequeue == (s.served + 1) % 0x1_0000_0000_0000_0000
    && (forall i: nat {:trigger InPlace(s, i)} :: s.served <= i < |s.drawn| ==> InPlace(s, i))
    && NoRepeat(s.drawn, s.served)
    && (forall c: nat {:trigger HasTicket(s, c)} :: c < |s.cores| && Queued(s.cores[c]) ==> HasTicket(s, c))
  }

  ghost predicate Inv(s: State) {
    |s.cores| <= 288 && CoresOk(s) && QueueOk(s)
  }

  /** At most one core is past the wait, and it drew the oldest ticket still out. */
  lemma HolderIsFirst(s: State, c: nat)
    requires QueueOk(s) && c < |s.cores| && Holds(s.cores[c]) && CoreOk(s.cid, s.cnt, s.flags, c, s.cores[c])
    ensures s.served < |s.acquired| && s.drawn[s.served] == c
  {
    assert HasTicket(s, c);
    var i :| s.served <= i < |s.drawn| && s.drawn[i] == c;
    assert InPlace(s, i);
  }

  lemma OneHolder(s: State, c: nat, d: nat)
    requires Inv(s) && c < |s.cores| && d < |s.cores| && Holds(s.cores[c]) && Holds(s.cores[d])
    ensures c == d
  {
    assert CoreOk(s.cid, s.cnt, s.flags, c, s.cores[c]) && CoreOk(s.cid, s.cnt, s.flags, d, s.cores[d]);
    HolderIsFirst(s, c);
    HolderIsFirst(s, d);
  }

  // ----- every step keeps the invariant

  lemma OwnCore(s: State, c: nat, call: Call)
    requires Inv(s) && c < |s.cores|
    ensures var s' := Next(s, c, call); CoreOk(s'.cid, s'.cnt, s'.flags, c, s'.cores[c])
  {
    assert CoreOk(s.cid, s.cnt, s.flags, c, s.cores[c]);
  }

  /** Only the holder writes the lock's fields. */
  lemma WriterHolds(s: State, c: nat, call: Call)
    requires Inv(s) && c < |s.cores|
    ensures var s' := Next(s, c, call);
            (s'.cid == s.cid && s'.cnt == s.cnt && s'.flags == s.flags) || (Holds(s.cores[c]) && s'.cid in {s.cid, c, -1})
  {
    assert CoreOk(s.cid, s.cnt, s.flags, c, s.cores[c]);
  }

  lemma OtherCore(s: State, c: nat, call: Call, d: nat)
    requires Inv(s) && c < |s.cores| && d < |s.cores| && d != c
    ensures var s' := Next(s, c, call); CoreOk(s'.cid, s'.cnt, s'.flags, d, s'.cores[d])
  {
    WriterHolds(s, c, call);
    assert CoreOk(s.cid, s.cnt, s.flags, d, s.cores[d]);
    if Holds(s.cores[c]) && Holds(s.cores[d]) {
      OneHolder(s, c, d);
    }
  }

  lemma CoresStep(s: State, c: nat, call: Call)
    requires Inv(s) && c < |s.cores|
    ensures CoresOk(Next(s, c, call))
  {
    var s' := Next(s, c, call);
    forall d: nat | d < |s'.cores| ensures CoreOk(s'.cid, s'.cnt, s'.flags, d, s'.cores[d]) {
      if d == c { OwnCore(s, c, call); } else { OtherCore(s, c, call, d); }
    }
  }

  /** A step that neither joins, advances nor leaves the queue. */
  lemma QueueFrame(s: State, s': State, c: nat)
    requires QueueOk(s) && c < |s.cores| == |s'.cores|
    requires s'.queue == s.queue && s'.dequeue == s.dequeue && s'.served == s.served
    requires s'.drawn == s.drawn && s'.acquired == s.acquired
    requires forall d :: 0 <= d < |s.cores| && d != c ==> s'.cores[d] == s.cores[d]
    requires Holds(s'.cores[c]) == Holds(s.cores[c]) && !s.cores[c].pc.Spinning? && !s'.cores[c].pc.Spinning?
    ensures QueueOk(s')
  {
    forall i: nat | s'.served <= i < |s'.drawn| ensures InPlace(s', i) { assert InPlace(s, i); }
    forall d: nat | d < |s'.cores| && Queued(s'.cores[d]) ensures HasTicket(s', d) { assert HasTicket(s, d); }
  }

  lemma IncMod(n: nat)
    ensures Inc64(n % 0x1_0000_0000_0000_0000) == (n + 1) % 0x1_0000_0000_0000_0000
  {
  }

  lemma DrawPlace(s: State, c: nat, call: Call, i: nat)
    requires Inv(s) && c < |s.cores| && s.cores[c].pc.Ticketing? && s.served <= i <= |s.drawn|
    ensures InPlace(Next(s, c, call), i) && (i < |s.drawn| ==> s.drawn[i] != c)
  {
    IncMod(|s.drawn|);
    assert CoreOk(s.cid, s.cnt, s.flags, c, s.cores[c]);
    if i < |s.drawn| { assert InPlace(s, i); }
  }

  lemma DrawStep(s: State, c: nat, call: Call)
    requires Inv(s) && c < |s.cores| && s.cores[c].pc.Ticketing?
    ensures QueueOk(Next(s, c, call))
  {
    var s' := Next(s, c, call);
    IncMod(|s.drawn|);
    assert CoreOk(s.cid, s.cnt, s.flags, c, s.cores[c]);
    forall i: nat | s'.served <= i < |s'.drawn|
      ensures InPlace(s', i) && (i < |s.drawn| ==> s.drawn[i] != c)
    {
      DrawPlace(s, c, call, i);
    }
    forall d: nat | d < |s'.cores| && Queued(s'.cores[d]) ensures HasTicket(s', d) {
      DrawTicket(s, c, call, d);
    }
  }

  lemma DrawTicket(s: State, c: nat, call: Call, d: nat)
    requires Inv(s) && c < |s.cores| && s.cores[c].pc.Ticketing?
    requires d < |s.cores| && Queued(Next(s, c, call).cores[d])
    ensures HasTicket(Next(s, c, call), d)
  {
    var s' := Next(s, c, call);
    if d == c {
      assert s'.drawn[|s.drawn|] == c;
    } else {
      assert HasTicket(s, d);
      var i :| s.served <= i < |s.drawn| && s.drawn[i] == d;
      assert s'.drawn[i] == d;
    }
  }

  /** Distinct cores below n make at most n tickets. */
  lemma {:induction false} TicketsOut(a: seq<nat>, from: nat, cores: set<nat>)
    requires from <= |a| && NoRepeat(a, from) && forall i :: from <= i < |a| ==> a[i] in cores
    ensures |a| - from <= |cores|
    decreases |a| - from
  {
    if from < |a| {
      TicketsOut(a, from + 1, cores - {a[from]});
    }
  }

  lemma {:induction false} CoreSet(n: nat) returns (cores: set<nat>)
    ensures |cores| == n && forall c: nat :: c in cores <==> c < n
  {
    cores := {};
    if n > 0 {
      var less := CoreSet(n - 1);
      cores := less + {n - 1};
    }
  }

  /** The core whose ticket matches drew the oldest ticket still out: tickets are unique even
      when the 64-bit counters wrap, since there are at most 288 cores. */
  lemma TurnIsOldest(s: State, c: nat)
    requires Inv(s) && c < |s.cores| && s.cores[c].pc.Spinning? && s.cores[c].pc.ticket == s.dequeue
    ensures |s.acquired| == s.served < |s.drawn| && s.drawn[s.served] == c
  {
    var cores := CoreSet(|s.cores|);
    forall i | s.served <= i < |s.drawn| ensures s.drawn[i] in cores { assert InPlace(s, i); }
    TicketsOut(s.drawn, s.served, cores);
    assert CoreOk(s.cid, s.cnt, s.flags, c, s.cores[c]);
    assert HasTicket(s, c);
    var i :| s.served <= i < |s.drawn| && s.drawn[i] == c;
    assert InPlace(s, i);
    ModDistinct(i + 1, s.served + 1, 0x1_0000_0000_0000_0000);
  }

  lemma PassStep(s: State, c: nat, call: Call)
    requires Inv(s) && c < |s.cores| && s.cores[c].pc.Spinning? && s.cores[c].pc.ticket == s.dequeue
    ensures QueueOk(Next(s, c, call))
  {
    var s' := Next(s, c, call);
    TurnIsOldest(s, c);
    assert s'.acquired == s.drawn[..s.served + 1];
    forall i: nat | s'.served <= i < |s'.drawn| ensures InPlace(s', i) { assert InPlace(s, i); }
    forall d: nat | d < |s'.cores| && Queued(s'.cores[d]) ensures HasTicket(s', d) { assert HasTicket(s, d); }
  }

  lemma DequeueStep(s: State, c: nat, call: Call)
    requires Inv(s) && c < |s.cores| && s.cores[c].pc.Rel3?
    ensures QueueOk(Next(s, c, call))
  {
    var s' := Next(s, c, call);
    assert CoreOk(s.cid, s.cnt, s.flags, c, s.cores[c]);
    HolderIsFirst(s, c);
    IncMod(s.served + 1);
    forall i: nat | s'.served <= i < |s'.drawn| ensures InPlace(s', i) { assert InPlace(s, i); }
    forall d: nat | d < |s'.cores| && Queued(s'.cores[d]) ensures HasTicket(s', d) { assert HasTicket(s, d); }
  }

  lemma StepKeepsInv(s: State, c: nat, call: Call)
    requires Inv(s) && c < |s.cores|
    ensures Inv(Next(s, c, call))
  {
    CoresStep(s, c, call);
    assert CoreOk(s.cid, s.cnt, s.flags, c, s.cores[c]);
    var pc := s.cores[c].pc;
    if pc.Ticketing? {
      DrawStep(s, c, call);
    } else if pc.Spinning? {
      if pc.ticket == s.dequeue { PassStep(s, c, call); }
    } else if pc.Rel3? {
      DequeueStep(s, c, call);
    } else {
      QueueFrame(s, Next(s, c, call), c);
    }
  }

  lemma {:induction false} RunInv(run: seq<State>, i: nat)
    requires Run(run) && i < |run|
    ensures Inv(run[i])
  {
    if i == 0 {
      InitialInv(run[0]);
    } else {
      RunInv(run, i - 1);
      assert StepAt(run, i - 1);
      var c: nat, call :| c < |run[i - 1].cores| && run[i] == Next(run[i - 1], c, call);
      StepKeepsInv(run[i - 1], c, call);
    }
  }

  lemma InitialInv(s: State)
    requires Initial(s)
    ensures Inv(s)
  {
    forall c: nat | c < |s.cores| ensures CoreOk(s.cid, s.cnt, s.flags, c, s.cores[c]) {}
    forall c: nat | c < |s.cores| ensures !Queued(s.cores[c]) {}
  }

  /** In every state of every run: at most one core is past the wait; turns come in ticket
      order; the holder's nesting is counted and its interrupts are off. */
  lemma LockCorrect(run: seq<State>, i: nat)
    requires Run(run) && i < |run|
    ensures forall c, d :: 0 <= c < |run[i].cores| && 0 <= d < |run[i].cores| ==>
              Holds(run[i].cores[c]) && Holds(run[i].cores[d]) ==> c == d
    ensures run[i].acquired <= run[i].drawn
    ensures forall c :: 0 <= c < |run[i].cores| && Holds(run[i].cores[c]) ==> !run[i].cores[c].irq
    ensures forall c :: 0 <= c < |run[i].cores| && run[i].cores[c].depth > 0 ==>
              run[i].cnt == run[i].cores[c].depth && run[i].cid == c
  {
    RunInv(run, i);
    var s := run[i];
    forall c, d | 0 <= c < |s.cores| && 0 <= d < |s.cores| && Holds(s.cores[c]) && Holds(s.cores[d]) ensures c == d {
      OneHolder(s, c, d);
    }
    forall c | 0 <= c < |s.cores| && Holds(s.cores[c])
      ensures !s.cores[c].irq && (s.cores[c].depth > 0 ==> s.cnt == s.cores[c].depth && s.cid == c)
    {
      assert CoreOk(s.cid, s.cnt, s.flags, c, s.cores[c]);
    }
  }

  // ----- progress

  /** The core with the oldest ticket still out. */
  function Front(s: State): nat
    requires s.served < |s.drawn|
  {
    s.drawn[s.served]
  }

  /** When nobody holds the lock, the core with the oldest ticket still out passes the wait with its
      next step; while somebody holds it, that somebody is the core with the oldest ticket. */
  lemma NextTurn(s: State, call: Call)
    requires Inv(s) && s.served < |s.drawn|
    ensures Front(s) < |s.cores|
    ensures forall c :: 0 <= c < |s.cores| && Holds(s.cores[c]) ==> c == Front(s)
    ensures !Holds(s.cores[Front(s)]) ==>
              var c := Front(s);
              s.cores[c].pc.Spinning? && Next(s, c, call).cores[c] == s.cores[c].(pc := Owned(s.cores[c].pc.f))
  {
    assert InPlace(s, s.served);
    forall c | 0 <= c < |s.cores| && Holds(s.cores[c]) ensures c == Front(s) {
      assert CoreOk(s.cid, s.cnt, s.flags, c, s.cores[c]);
      HolderIsFirst(s, c);
    }
  }

  /** How far a holder is from giving the lock up, if it does nothing but finish and unlock. */
  function Left(core: Core): nat {
    match core.pc
    case Rest => 10 * core.depth + 5
    case Disabled(_) => 10 * core.depth + 16
    case Owned(_) => 18
    case CidSet(_) => 17
    case FlagsSet => 16
    case Releasing => 4
    case Rel1(_) => 3
    case Rel2(_) => 2
    case _ => 1
  }

  /** A holder gets nearer to giving the lock up with every step, and gives it up in the end. */
  lemma HolderMoves(s: State, h: nat)
    requires Inv(s) && h < |s.cores| && Holds(s.cores[h])
    ensures var s' := Next(s, h, Unlock);
            && |s'.cores| == |s.cores| && s'.drawn == s.drawn
            && (forall d :: 0 <= d < |s.cores| && d != h ==> s'.cores[d] == s.cores[d])
            && if s.cores[h].pc.Rel3? then s'.served == s.served + 1 && !Holds(s'.cores[h])
               else s'.served == s.served && Holds(s'.cores[h]) && Left(s'.cores[h]) < Left(s.cores[h])
  {
    assert CoreOk(s.cid, s.cnt, s.flags, h, s.cores[h]);
  }

  ghost predicate Moves(run: seq<State>) {
    run != [] && forall i :: 0 <= i < |run| - 1 ==> StepAt(run, i)
  }

  lemma MovesOn(s: State, rest: seq<State>)
    requires Moves(rest) && Step(s, rest[0])
    ensures Moves([s] + rest)
  {
    forall i | 0 <= i < |rest| ensures StepAt([s] + rest, i) {
      if i > 0 { assert StepAt(rest, i - 1); }
    }
  }

  /** The i-th ticket is core c's, and c waits with it. */
  ghost predicate Waits(s: State, c: nat, i: nat) {
    c < |s.cores| && s.cores[c].pc.Spinning? && s.served <= i < |s.drawn| && s.drawn[i] == c
  }

  function Weight(s: State): nat
    requires s.served < |s.drawn| && Front(s) < |s.cores|
  {
    if Holds(s.cores[Front(s)]) then Left(s.cores[Front(s)]) else 20
  }

  /** One step of the core in front, towards the turn of core c. */
  lemma FrontMoves(s: State, c: nat, i: nat)
    requires Inv(s) && Waits(s, c, i) && Front(s) < |s.cores|
    ensures var s' := Next(s, Front(s), Unlock);
            && Inv(s') && c < |s'.cores|
            && (Holds(s'.cores[c]) || (&& Waits(s', c, i) && Front(s') < |s'.cores|
                                       && (s'.served > s.served || (s'.served == s.served && Weight(s') < Weight(s)))))
  {
    var h := Front(s);
    NextTurn(s, Unlock);
    StepKeepsInv(s, h, Unlock);
    assert InPlace(s, i) && CoreOk(s.cid, s.cnt, s.flags, c, s.cores[c]);
    if Holds(s.cores[h]) { HolderMoves(s, h); }
    var s' := Next(s, h, Unlock);
    if s'.served < |s'.drawn| { NextTurn(s', Unlock); }
  }

  /** No core that waits is locked out: from every state in order the cores can go on so that it gets
      the lock, each holder before it unlocking in turn. */
  lemma {:induction false} CanAcquire(s: State, c: nat, i: nat) returns (run: seq<State>)
    requires Inv(s) && Waits(s, c, i) && Front(s) < |s.cores|
    ensures Moves(run) && run[0] == s
    ensures var r := run[|run| - 1]; c < |r.cores| && Holds(r.cores[c])
    decreases i - s.served, Weight(s)
  {
    FrontMoves(s, c, i);
    var s' := Next(s, Front(s), Unlock);
    assert Step(s, s');
    var rest := [s'];
    if !Holds(s'.cores[c]) { rest := CanAcquire(s', c, i); }
    MovesOn(s, rest);
    run := [s] + rest;
  }

  // ----- interrupts

  /** Outside every lock and unlock, holding nothing. */
  predicate Free(core: Core) {
    core.pc.Rest? && core.depth == 0
  }

  /** Between the outermost lock and the end of the matching unlock, the core keeps the
      interrupt flag it had before and no longer shows it. */
  lemma BusyStep(s: State, c: nat, call: Call, d: nat)
    requires c < |s.cores| && d < |s.cores| && CoreOk(s.cid, s.cnt, s.flags, d, s.cores[d])
    ensures var s' := Next(s, c, call);
            && (!Free(s.cores[d]) ==> s'.cores[d].saved == s.cores[d].saved)
            && (Free(s.cores[d]) && !Free(s'.cores[d]) ==> s'.cores[d].saved == s.cores[d].irq)
            && (!Free(s.cores[d]) && Free(s'.cores[d]) ==> s'.cores[d].irq == s.cores[d].saved)
  {
    if d != c { assert Next(s, c, call).cores[d] == s.cores[d]; }
  }

  /** Core c is free in state i and busy in all the states after i up to j. */
  ghost predicate Episode(run: seq<State>, c: nat, i: nat, j: nat) {
    && i < j < |run| && (forall k :: i <= k <= j ==> c < |run[k].cores|)
    && Free(run[i].cores[c]) && (forall k :: i < k <= j ==> !Free(run[k].cores[c]))
  }

  lemma BusyRunStep(run: seq<State>, k: nat, c: nat)
    requires Run(run) && k + 1 < |run| && c < |run[k].cores|
    ensures |run[k + 1].cores| == |run[k].cores|
    ensures var a, b := run[k].cores[c], run[k + 1].cores[c];
            && (!Free(a) ==> b.saved == a.saved)
            && (Free(a) && !Free(b) ==> b.saved == a.irq)
            && (!Free(a) && Free(b) ==> b.irq == a.saved)
            && (!Free(a) ==> !a.irq)
  {
    RunInv(run, k);
    assert CoreOk(run[k].cid, run[k].cnt, run[k].flags, c, run[k].cores[c]);
    assert StepAt(run, k);
    var d: nat, call :| d < |run[k].cores| && run[k + 1] == Next(run[k], d, call);
    BusyStep(run[k], d, call, c);
  }

  lemma {:induction false} EpisodeSaved(run: seq<State>, c: nat, i: nat, j: nat)
    requires Run(run) && Episode(run, c, i, j)
    ensures run[j].cores[c].saved == run[i].cores[c].irq
    decreases j
  {
    BusyRunStep(run, j - 1, c);
    if i + 1 < j {
      EpisodeSaved(run, c, i, j - 1);
    }
  }

  /** Interrupts are off throughout, whatever the nesting, and the end of the episode restores
      exactly the flag from before its outermost lock. */
  lemma EpisodeIrq(run: seq<State>, c: nat, i: nat, j: nat)
    requires Run(run) && Episode(run, c, i, j) && j + 1 < |run|
    ensures !run[j].cores[c].irq
    ensures c < |run[j + 1].cores| && (Free(run[j + 1].cores[c]) ==> run[j + 1].cores[c].irq == run[i].cores[c].irq)
  {
    EpisodeSaved(run, c, i, j);
    BusyRunStep(run, j, c);
  }
}
