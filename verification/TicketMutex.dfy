/** The 32-bit ticket mutex as a state machine over its atomic steps, for any number of
    threads.  The log of arrivals and entries is kept beside the two counters. */
module TicketMutex {
  import opened Levels
  import opened Seqs

  datatype Phase = Waiting(ticket: nat) | Holding(ticket: nat)

  /** request and grant are the 32-bit counters; phase tells where each thread that holds or
      waits for the mutex is; arrivals and entries list the threads in the order in which they
      drew a ticket and got the mutex; left counts the unlocks. */
  datatype State = State(request: nat, grant: nat, phase: map<nat, Phase>,
                         arrivals: seq<nat>, entries: seq<nat>, left: nat)

  const INIT: State := State(0, 0, map[], [], [], 0)

  function Inc32(x: nat): nat {
    (x + 1) % 0x1_0000_0000
  }

  // fetch-and-add of request
  predicate Arrive(s: State, s': State, t: nat) {
    t !in s.phase
    && s' == s.(request := Inc32(s.request), phase := s.phase[t := Waiting(s.request)], arrivals := s.arrivals + [t])
  }

  // the wait ends when grant equals the thread's ticket
  predicate Enter(s: State, s': State, t: nat) {
    t in s.phase && s.phase[t] == Waiting(s.grant)
    && s' == s.(phase := s.phase[t := Holding(s.grant)], entries := s.entries + [t])
  }

  // unlock: grant++
  predicate Leave(s: State, s': State, t: nat) {
    t in s.phase && s.phase[t].Holding?
    && s' == s.(grant := Inc32(s.grant), phase := s.phase - {t}, left := s.left + 1)
  }

  ghost predicate Step(s: State, s': State) {
    exists t :: Arrive(s, s', t) || Enter(s, s', t) || Leave(s, s', t)
  }

  ghost predicate Run(run: seq<State>) {
    run != [] && run[0] == INIT && forall i :: 0 <= i < |run| - 1 ==> StepAt(run, i)
  }

  ghost predicate StepAt(run: seq<State>, i: int)
    requires 0 <= i < |run| - 1
  {
    Step(run[i], run[i + 1])
  }

  /** Participants of arrival number i: its ticket, and whether it has entered. */
  ghost predicate InPlace(s: State, i: nat)
    requires i < |s.arrivals|
  {
    var t := s.arrivals[i];
    t in s.phase && s.phase[t] == if i < |s.entries| then Holding(i % 0x1_0000_0000) else Waiting(i % 0x1_0000_0000)
  }

  ghost predicate Inv(s: State) {
    && s.left <= |s.entries| <= s.left + 1 && |s.entries| <= |s.arrivals|
    && s.entries == s.arrivals[..|s.entries|]
    && s.request == |s.arrivals| % 0x1_0000_0000 && s.grant == s.left % 0x1_0000_0000
    && (forall i: nat {:trigger InPlace(s, i)} :: s.left <= i < |s.arrivals| ==> InPlace(s, i))
    && NoRepeat(s.arrivals, s.left)
    && (forall t {:trigger Arrived(s, t)} :: t in s.phase ==> Arrived(s, t))
  }

  ghost predicate Arrived(s: State, t: nat) {
    exists i :: s.left <= i < |s.arrivals| && s.arrivals[i] == t
  }

  lemma IncMod(n: nat)
    ensures Inc32(n % 0x1_0000_0000) == (n + 1) % 0x1_0000_0000
  {
  }

  lemma ArrivePlace(s: State, s': State, t: nat, i: nat)
    requires Inv(s) && Arrive(s, s', t) && s.left <= i <= |s.arrivals|
    ensures InPlace(s', i) && (i < |s.arrivals| ==> s.arrivals[i] != t)
  {
    if i < |s.arrivals| { assert InPlace(s, i); }
  }

  lemma ArriveCounts(s: State, s': State, t: nat)
    requires Inv(s) && Arrive(s, s', t)
    ensures s'.left <= |s'.entries| <= s'.left + 1 && |s'.entries| <= |s'.arrivals|
    ensures s'.entries == s'.arrivals[..|s'.entries|]
    ensures s'.request == |s'.arrivals| % 0x1_0000_0000 && s'.grant == s'.left % 0x1_0000_0000
  {
    IncMod(|s.arrivals|);
  }

  lemma ArriveHere(s: State, s': State, t: nat, u: nat)
    requires Inv(s) && Arrive(s, s', t) && u in s'.phase
    ensures Arrived(s', u)
  {
    if u != t {
      assert Arrived(s, u);
      var i :| s.left <= i < |s.arrivals| && s.arrivals[i] == u;
      assert s'.arrivals[i] == u;
    } else {
      assert s'.arrivals[|s.arrivals|] == u;
    }
  }

  lemma ArriveInv(s: State, s': State, t: nat)
    requires Inv(s) && Arrive(s, s', t)
    ensures Inv(s')
  {
    ArriveCounts(s, s', t);
    forall i: nat | s'.left <= i < |s'.arrivals|
      ensures InPlace(s', i) && (i < |s.arrivals| ==> s.arrivals[i] != t)
    {
      ArrivePlace(s, s', t, i);
    }
    forall u | u in s'.phase ensures Arrived(s', u) { ArriveHere(s, s', t, u); }
  }

  /** The thread whose ticket matches is the one that arrived first among those present,
      as long as no more than 2^32 are present. */
  lemma EnterIsFirst(s: State, s': State, t: nat)
    requires Inv(s) && Enter(s, s', t) && |s.arrivals| - s.left <= 0x1_0000_0000
    ensures |s.entries| == s.left < |s.arrivals| && s.arrivals[s.left] == t
  {
    assert Arrived(s, t);
    var i :| s.left <= i < |s.arrivals| && s.arrivals[i] == t;
    assert InPlace(s, i);
    ModDistinct(i, s.left, 0x1_0000_0000);
  }

  lemma EnterInv(s: State, s': State, t: nat)
    requires Inv(s) && Enter(s, s', t) && |s.arrivals| - s.left <= 0x1_0000_0000
    ensures Inv(s')
  {
    EnterIsFirst(s, s', t);
    forall u | u in s'.phase ensures Arrived(s', u) { assert Arrived(s, u); }
    assert s'.entries == s.arrivals[..s.left + 1];
    forall i: nat | s'.left <= i < |s'.arrivals| ensures InPlace(s', i) {
      assert InPlace(s, i);
    }
  }

  lemma LeaveInv(s: State, s': State, t: nat)
    requires Inv(s) && Leave(s, s', t)
    ensures Inv(s')
  {
    IncMod(s.left);
    assert Arrived(s, t);
    var k :| s.left <= k < |s.arrivals| && s.arrivals[k] == t;
    assert InPlace(s, k);
    assert k == s.left;
    forall i: nat | s'.left <= i < |s'.arrivals| ensures InPlace(s', i) {
      assert InPlace(s, i);
    }
    forall u | u in s'.phase ensures Arrived(s', u) {
      assert Arrived(s, u);
    }
  }

  /** The number of threads that hold or wait is the number of arrivals not yet undone. */
  lemma {:induction false} Participants(arrivals: seq<nat>, left: nat, phase: map<nat, Phase>)
    requires left <= |arrivals|
    requires NoRepeat(arrivals, left)
    requires forall i :: left <= i < |arrivals| ==> arrivals[i] in phase
    ensures |arrivals| - left <= |phase|
    decreases |arrivals| - left
  {
    if left < |arrivals| {
      Participants(arrivals, left + 1, phase - {arrivals[left]});
      assert phase.Keys == (phase - {arrivals[left]}).Keys + {arrivals[left]};
    }
  }

  lemma {:induction false} RunInv(run: seq<State>, i: nat)
    requires Run(run) && i < |run|
    requires forall j :: 0 <= j < |run| ==> |run[j].phase| <= 0x1_0000_0000
    ensures Inv(run[i])
  {
    if i > 0 {
      RunInv(run, i - 1);
      assert StepAt(run, i - 1);
      StepInv(run[i - 1], run[i]);
    }
  }

  lemma StepInv(s: State, s': State)
    requires Inv(s) && Step(s, s') && |s.phase| <= 0x1_0000_0000
    ensures Inv(s')
  {
    forall i | s.left <= i < |s.arrivals| ensures s.arrivals[i] in s.phase { assert InPlace(s, i); }
    Participants(s.arrivals, s.left, s.phase);
    var t :| Arrive(s, s', t) || Enter(s, s', t) || Leave(s, s', t);
    if Arrive(s, s', t) {
      ArriveInv(s, s', t);
    } else if Enter(s, s', t) {
      EnterInv(s, s', t);
    } else {
      LeaveInv(s, s', t);
    }
  }

  /** The mutex never gets stuck: while anybody takes part, the thread that arrived first among those
      present can leave, if it holds the mutex, and otherwise can enter. */
  lemma FirstMoves(s: State) returns (t: nat, s': State)
    requires Inv(s) && s.phase != map[]
    ensures s.left < |s.arrivals| && t == s.arrivals[s.left]
    ensures if |s.entries| > s.left then Leave(s, s', t) && t !in s'.phase else Enter(s, s', t) && s'.phase[t].Holding?
  {
    var u :| u in s.phase;
    assert Arrived(s, u);
    assert InPlace(s, s.left);
    t := s.arrivals[s.left];
    if |s.entries| > s.left {
      s' := s.(grant := Inc32(s.grant), phase := s.phase - {t}, left := s.left + 1);
    } else {
      s' := s.(phase := s.phase[t := Holding(s.grant)], entries := s.entries + [t]);
    }
  }

  ghost predicate Exclusive(s: State) {
    forall t, u :: t in s.phase && u in s.phase && s.phase[t].Holding? && s.phase[u].Holding? ==> t == u
  }

  /** Never more than n threads take part. */
  ghost predicate AtMost(run: seq<State>, n: nat) {
    forall j :: 0 <= j < |run| ==> |run[j].phase| <= n
  }

  /** Over every run with at most 2^32 participants at a time, across any number of counter
      wraparounds, at most one thread holds the mutex and threads get it in arrival order. */
  lemma MutexCorrect(run: seq<State>, i: nat)
    requires Run(run) && i < |run|
    requires AtMost(run, 0x1_0000_0000)
    ensures Exclusive(run[i])
    ensures run[i].entries <= run[i].arrivals
  {
    RunInv(run, i);
    var s := run[i];
    forall t, u | t in s.phase && u in s.phase && s.phase[t].Holding? && s.phase[u].Holding? ensures t == u {
      assert Arrived(s, t) && Arrived(s, u);
      var j :| s.left <= j < |s.arrivals| && s.arrivals[j] == t;
      var k :| s.left <= k < |s.arrivals| && s.arrivals[k] == u;
      assert InPlace(s, j) && InPlace(s, k);
    }
  }

  // ----- one participant too many

  /** Threads 0 .. n - 1 have drawn their tickets. */
  ghost predicate Crowd(s: State, n: nat) {
    && s.request == n % 0x1_0000_0000 && s.grant == 0
    && (forall t: nat :: t in s.phase <==> t < n)
    && (forall t: nat :: t < n ==> s.phase[t] == Waiting(t % 0x1_0000_0000))
  }

  lemma {:induction false} CrowdRun(n: nat) returns (run: seq<State>)
    ensures Run(run) && Crowd(run[|run| - 1], n) && |run[|run| - 1].phase| == n && AtMost(run, n)
  {
    if n == 0 {
      run := [INIT];
    } else {
      var before := CrowdRun(n - 1);
      var s := before[|before| - 1];
      var s' := s.(request := Inc32(s.request), phase := s.phase[n - 1 := Waiting(s.request)],
                   arrivals := s.arrivals + [n - 1]);
      IncMod(n - 1);
      assert Arrive(s, s', n - 1);
      run := before + [s'];
      RunExtends(before, s');
    }
  }

  lemma RunExtends(run: seq<State>, s': State)
    requires Run(run) && Step(run[|run| - 1], s')
    ensures Run(run + [s'])
  {
    var longer := run + [s'];
    forall i | 0 <= i < |run| ensures StepAt(longer, i) {
      if i < |run| - 1 { assert StepAt(run, i); }
    }
  }

  /** The bound is exact: with at most 2^32 + 1 participants two threads can hold the mutex at once. */
  lemma BoundIsExact() returns (run: seq<State>)
    ensures Run(run) && AtMost(run, 0x1_0000_0001) && !Exclusive(run[|run| - 1])
  {
    var crowd := CrowdRun(0x1_0000_0001);
    var s := crowd[|crowd| - 1];
    var s1 := s.(phase := s.phase[0 := Holding(0)], entries := s.entries + [0]);
    assert s.phase[0] == Waiting(0);
    assert Enter(s, s1, 0);
    RunExtends(crowd, s1);
    assert s.phase[0x1_0000_0000] == Waiting(0);
    var s2 := s1.(phase := s1.phase[0x1_0000_0000 := Holding(0)], entries := s1.entries + [0x1_0000_0000]);
    assert Enter(s1, s2, 0x1_0000_0000);
    RunExtends(crowd + [s1], s2);
    run := crowd + [s1] + [s2];
    assert s2.phase[0].Holding? && s2.phase[0x1_0000_0000].Holding?;
  }
}
