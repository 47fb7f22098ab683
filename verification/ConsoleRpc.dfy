/** The synchronous console calls: callers put a request in one queue and wait for a reply with
    their thread id and function type in another; the proxy serves one request at a time. */
module ConsoleRpc {
  import opened Seqs

  datatype Function = ConsolePrint | ConsoleWrite | ConsoleGetch

  /** A packet carries tid, fn and params. The caller is kept beside it to tell calls apart: calls
      before the first thread runs all have tid -1, and a handler uses the id of the thread it
      interrupts, so several callers may use one tid. */
  datatype Request = Request(caller: nat, tid: int, fn: Function, params: seq<nat>)
  datatype Reply = Reply(caller: nat, tid: int, fn: Function, ret: int)

  datatype Server = Polling | Serving(request: Request) | Answering(request: Request, ret: int)

  /** A finished call: what was asked, what came back, and whose reply that was. */
  datatype Done = Done(request: Request, ret: int, from: nat)

  /** The two queues, the proxy, the request of each waiting caller, and the finished calls. */
  datatype State = State(requests: seq<Request>, replies: seq<Reply>, server: Server,
                         waiting: map<nat, Request>, finished: seq<Done>)

  const INIT: State := State([], [], Polling, map[], [])

  /** Callers send and receive; the proxy takes a request off its queue, executes it and replies. */
  datatype Event = Send(request: Request) | Take | Execute | Answer | Receive(caller: nat)

  /** The queues hold at most `capacity` packets; exec is what the proxy does with a request. A
      caller that finds a reply for another tid or function type in front tries again. */
  function Next(s: State, e: Event, capacity: nat, exec: Request -> int): State {
    match e
    case Send(r) =>
      if r.caller !in s.waiting && |s.requests| < capacity then
        s.(requests := s.requests + [r], waiting := s.waiting[r.caller := r])
      else s
    case Take =>
      if s.server.Polling? && s.requests != [] then
        s.(server := Serving(s.requests[0]), requests := s.requests[1..])
      else s
    case Execute =>
      if s.server.Serving? then s.(server := Answering(s.server.request, exec(s.server.request))) else s
    case Answer =>
      if s.server.Answering? && |s.replies| < capacity then
        var q := s.server.request;
        s.(server := Polling, replies := s.replies + [Reply(q.caller, q.tid, q.fn, s.server.ret)])
      else s
    case Receive(c) =>
      if c in s.waiting && s.replies != [] && ForCaller(s.replies[0], s.waiting[c]) then
        s.(replies := s.replies[1..], waiting := s.waiting - {c},
           finished := s.finished + [Done(s.waiting[c], s.replies[0].ret, s.replies[0].caller)])
      else s
  }

  /** The test by which a caller decides that a reply is its own. */
  predicate ForCaller(p: Reply, r: Request) {
    p.tid == r.tid && p.fn == r.fn
  }

  predicate SameKey(q: Request, r: Request) {
    q.tid == r.tid && q.fn == r.fn
  }

  // ----- tokens

  /** The callers whose call is in the reply queue, at the proxy, in the request queue. */
  function ReplyCallers(q: seq<Reply>): seq<nat> {
    seq(|q|, i requires 0 <= i < |q| => q[i].caller)
  }

  function RequestCallers(q: seq<Request>): seq<nat> {
    seq(|q|, i requires 0 <= i < |q| => q[i].caller)
  }

  function ServerCallers(v: Server): seq<nat> {
    if v.Polling? then [] else [v.request.caller]
  }

  function Tokens(s: State): seq<nat> {
    ReplyCallers(s.replies) + ServerCallers(s.server) + RequestCallers(s.requests)
  }

  ghost predicate Answers(s: State, p: Reply, exec: Request -> int) {
    p.caller in s.waiting && ForCaller(p, s.waiting[p.caller]) && p.ret == exec(s.waiting[p.caller])
  }

  ghost predicate Asked(s: State, r: Request) {
    r.caller in s.waiting && s.waiting[r.caller] == r
  }

  /** Each waiting caller has exactly one token; a queued request or a request in service is that
      caller's own, and a queued reply answers that caller's own request. */
  ghost predicate Inv(s: State, exec: Request -> int) {
    && NoDup(Tokens(s))
    && (forall c :: c in s.waiting <==> c in Tokens(s))
    && (forall c :: c in s.waiting ==> s.waiting[c].caller == c)
    && (forall i :: 0 <= i < |s.requests| ==> Asked(s, s.requests[i]))
    && (!s.server.Polling? ==> Asked(s, s.server.request))
    && (s.server.Answering? ==> s.server.ret == exec(s.server.request))
    && (forall i :: 0 <= i < |s.replies| ==> Answers(s, s.replies[i], exec))
  }

  /** Every finished call got its own reply, and so the answer to its own request. */
  ghost predicate Right(s: State, exec: Request -> int) {
    forall i :: 0 <= i < |s.finished| ==> Served(s.finished[i], exec)
  }

  predicate Served(d: Done, exec: Request -> int) {
    d.from == d.request.caller && d.ret == exec(d.request)
  }

  /** No two outstanding calls share both thread id and function type. */
  ghost predicate Distinct(s: State) {
    forall c, d :: c in s.waiting && d in s.waiting && c != d ==> !SameKey(s.waiting[c], s.waiting[d])
  }

  lemma SendStep(s: State, r: Request, capacity: nat, exec: Request -> int)
    requires Inv(s, exec) && r.caller !in s.waiting && |s.requests| < capacity
    ensures Inv(Next(s, Send(r), capacity, exec), exec)
  {
    SendTokens(s, s.(requests := s.requests + [r]), r.caller);
    forall i | 0 <= i < |s.requests| ensures s.requests[i].caller != r.caller { assert Asked(s, s.requests[i]); }
    forall i | 0 <= i < |s.replies| ensures s.replies[i].caller != r.caller { assert Answers(s, s.replies[i], exec); }
  }

  lemma SendTokens(s: State, s': State, c: nat)
    requires NoDup(Tokens(s)) && c !in Tokens(s) && s'.replies == s.replies && s'.server == s.server
    requires s.requests <= s'.requests && |s'.requests| == |s.requests| + 1 && s'.requests[|s.requests|].caller == c
    ensures Tokens(s') == Tokens(s) + [c] && NoDup(Tokens(s'))
  {
    assert RequestCallers(s'.requests) == RequestCallers(s.requests) + [c];
  }

  lemma TakeStep(s: State, capacity: nat, exec: Request -> int)
    requires Inv(s, exec) && s.server.Polling? && s.requests != []
    ensures Inv(Next(s, Take, capacity, exec), exec) && Tokens(Next(s, Take, capacity, exec)) == Tokens(s)
  {
    var s' := Next(s, Take, capacity, exec);
    assert RequestCallers(s.requests) == [s.requests[0].caller] + RequestCallers(s'.requests);
    assert Tokens(s') == Tokens(s);
  }

  lemma ExecuteStep(s: State, capacity: nat, exec: Request -> int)
    requires Inv(s, exec)
    ensures Inv(Next(s, Execute, capacity, exec), exec) && Tokens(Next(s, Execute, capacity, exec)) == Tokens(s)
  {
    assert Tokens(Next(s, Execute, capacity, exec)) == Tokens(s);
  }

  lemma AnswerTokens(s: State, capacity: nat, exec: Request -> int)
    requires s.server.Answering? && |s.replies| < capacity
    ensures Tokens(Next(s, Answer, capacity, exec)) == Tokens(s)
  {
    var s' := Next(s, Answer, capacity, exec);
    assert ReplyCallers(s'.replies) == ReplyCallers(s.replies) + [s.server.request.caller];
  }

  lemma AnswerStep(s: State, capacity: nat, exec: Request -> int)
    requires Inv(s, exec) && s.server.Answering? && |s.replies| < capacity
    ensures Inv(Next(s, Answer, capacity, exec), exec) && Tokens(Next(s, Answer, capacity, exec)) == Tokens(s)
  {
    AnswerTokens(s, capacity, exec);
    var s' := Next(s, Answer, capacity, exec);
    assert Asked(s, s.server.request);
    forall i | 0 <= i < |s'.replies| ensures Answers(s', s'.replies[i], exec) {
      if i < |s.replies| { assert Answers(s, s.replies[i], exec); }
    }
    forall i | 0 <= i < |s'.requests| ensures Asked(s', s'.requests[i]) { assert Asked(s, s.requests[i]); }
  }

  /** A caller that takes its own reply gets the answer to its own request. */
  lemma ReceiveStep(s: State, capacity: nat, exec: Request -> int)
    requires Inv(s, exec) && s.replies != []
    ensures var c := s.replies[0].caller; var s' := Next(s, Receive(c), capacity, exec);
            && c in s.waiting && s.waiting[c].caller == c
            && s'.finished == s.finished + [Done(s.waiting[c], exec(s.waiting[c]), c)]
            && s'.waiting == s.waiting - {c} && Inv(s', exec) && |Tokens(s')| == |Tokens(s)| - 1
  {
    var c := s.replies[0].caller;
    assert Answers(s, s.replies[0], exec);
    var s' := Next(s, Receive(c), capacity, exec);
    ReceiveTokens(s, s', c);
    TokenOwners(s', c);
    forall i | 0 <= i < |s'.requests| ensures Asked(s', s'.requests[i]) { assert Asked(s, s.requests[i]); }
    forall i | 0 <= i < |s'.replies| ensures Answers(s', s'.replies[i], exec) { assert Answers(s, s.replies[i + 1], exec); }
  }

  lemma ReceiveTokens(s: State, s': State, c: nat)
    requires NoDup(Tokens(s)) && (forall u :: u in s.waiting <==> u in Tokens(s))
    requires s.replies != [] && s.replies[0].caller == c && s'.replies == s.replies[1..]
    requires s'.server == s.server && s'.requests == s.requests && s'.waiting == s.waiting - {c}
    ensures NoDup(Tokens(s')) && c !in Tokens(s') && |Tokens(s')| == |Tokens(s)| - 1
    ensures forall u :: u in s'.waiting <==> u in Tokens(s')
  {
    assert ReplyCallers(s.replies) == [c] + ReplyCallers(s'.replies);
    assert Tokens(s) == [c] + Tokens(s');
    DropFirst(c, Tokens(s'));
  }

  lemma DropFirst(c: nat, a: seq<nat>)
    requires NoDup([c] + a)
    ensures NoDup(a) && c !in a && forall u :: u in [c] + a <==> u == c || u in a
  {
    var b := [c] + a;
    forall j | 0 <= j < |a| ensures a[j] == b[j + 1] && a[j] != c { assert b[0] == c; }
  }

  /** A caller without a token appears in no packet. */
  lemma TokenOwners(s: State, c: nat)
    requires c !in Tokens(s)
    ensures forall i :: 0 <= i < |s.requests| ==> s.requests[i].caller != c
    ensures forall i :: 0 <= i < |s.replies| ==> s.replies[i].caller != c
    ensures !s.server.Polling? ==> s.server.request.caller != c
  {
    forall i | 0 <= i < |s.requests| ensures s.requests[i].caller != c { assert RequestCallers(s.requests)[i] in Tokens(s); }
    forall i | 0 <= i < |s.replies| ensures s.replies[i].caller != c { assert ReplyCallers(s.replies)[i] in Tokens(s); }
    assert !s.server.Polling? ==> ServerCallers(s.server)[0] in Tokens(s);
  }

  // ----- while no outstanding calls share a key

  /** The request shares its thread id and function type with an outstanding call. */
  ghost predicate Shares(s: State, r: Request) {
    exists c :: c in s.waiting && c != r.caller && SameKey(s.waiting[c], r)
  }

  ghost predicate Unshared(s: State, e: Event) {
    e.Send? ==> !Shares(s, e.request)
  }

  /** With distinct keys, whoever finds a reply its own is the one it was sent to. */
  lemma TakerOwns(s: State, c: nat, exec: Request -> int)
    requires Inv(s, exec) && Distinct(s) && s.replies != [] && c in s.waiting && ForCaller(s.replies[0], s.waiting[c])
    ensures s.replies[0].caller == c
  {
    assert Answers(s, s.replies[0], exec);
  }

  ghost predicate Good(s: State, exec: Request -> int) {
    Inv(s, exec) && Distinct(s) && Right(s, exec)
  }

  lemma StepKeepsGood(s: State, e: Event, capacity: nat, exec: Request -> int)
    requires Good(s, exec) && Unshared(s, e)
    ensures Good(Next(s, e, capacity, exec), exec)
  {
    match e
    case Send(r) =>
      if r.caller !in s.waiting && |s.requests| < capacity {
        SendStep(s, r, capacity, exec);
        SendDistinct(s, r, capacity, exec);
      }
    case Take => if s.server.Polling? && s.requests != [] { TakeStep(s, capacity, exec); }
    case Execute => ExecuteStep(s, capacity, exec);
    case Answer => if s.server.Answering? && |s.replies| < capacity { AnswerStep(s, capacity, exec); }
    case Receive(c) =>
      if c in s.waiting && s.replies != [] && ForCaller(s.replies[0], s.waiting[c]) {
        TakerOwns(s, c, exec);
        ReceiveStep(s, capacity, exec);
      }
  }

  /** A send keeps the keys distinct iff it does not share one. */
  lemma SendDistinct(s: State, r: Request, capacity: nat, exec: Request -> int)
    requires Distinct(s) && r.caller !in s.waiting && |s.requests| < capacity
    ensures Distinct(Next(s, Send(r), capacity, exec)) <==> !Shares(s, r)
  {
    var s' := Next(s, Send(r), capacity, exec);
    assert s'.waiting == s.waiting[r.caller := r];
    if Shares(s, r) {
      var c :| c in s.waiting && c != r.caller && SameKey(s.waiting[c], r);
      assert SameKey(s'.waiting[c], s'.waiting[r.caller]);
    }
  }

  /** The state after a sequence of events, and whether all sends on the way are unshared. */
  function After(s: State, es: seq<Event>, capacity: nat, exec: Request -> int): State
    decreases |es|
  {
    if es == [] then s else After(Next(s, es[0], capacity, exec), es[1..], capacity, exec)
  }

  ghost predicate AllUnshared(s: State, es: seq<Event>, capacity: nat, exec: Request -> int)
    decreases |es|
  {
    es == [] || (Unshared(s, es[0]) && AllUnshared(Next(s, es[0], capacity, exec), es[1..], capacity, exec))
  }

  lemma {:induction false} RunKeepsGood(s: State, es: seq<Event>, capacity: nat, exec: Request -> int)
    requires Good(s, exec) && AllUnshared(s, es, capacity, exec)
    ensures Good(After(s, es, capacity, exec), exec)
    decreases |es|
  {
    if es != [] {
      StepKeepsGood(s, es[0], capacity, exec);
      RunKeepsGood(Next(s, es[0], capacity, exec), es[1..], capacity, exec);
    }
  }

  /** How many tokens caller c has. */
  function Count(a: seq<nat>, c: nat): nat {
    if a == [] then 0 else (if a[0] == c then 1 else 0) + Count(a[1..], c)
  }

  lemma {:induction false} CountOne(a: seq<nat>, c: nat)
    requires NoDup(a)
    ensures Count(a, c) == if c in a then 1 else 0
  {
    if a != [] {
      CountOne(a[1..], c);
      assert a == [a[0]] + a[1..];
    }
  }

  /** Over every run in which no send shares thread id and function type with an outstanding call:
      each waiting caller has exactly one token, a caller that does not wait has none, and every
      finished call got the answer to its own request. */
  lemma RpcCorrect(es: seq<Event>, capacity: nat, exec: Request -> int)
    requires AllUnshared(INIT, es, capacity, exec)
    ensures var s := After(INIT, es, capacity, exec);
            && (forall c :: Count(Tokens(s), c) == if c in s.waiting then 1 else 0)
            && Right(s, exec)
  {
    assert Tokens(INIT) == [];
    RunKeepsGood(INIT, es, capacity, exec);
    var s := After(INIT, es, capacity, exec);
    forall c ensures Count(Tokens(s), c) == if c in s.waiting then 1 else 0 {
      CountOne(Tokens(s), c);
    }
  }

  /** No call is stuck: while a caller waits, the proxy can move or the caller whose reply is in
      front can take it. */
  lemma Progress(s: State, c: nat, capacity: nat, exec: Request -> int)
    requires Inv(s, exec) && c in s.waiting && capacity > 0
    ensures var e := if s.replies != [] then Receive(s.replies[0].caller) else ProxyEvent(s);
            Next(s, e, capacity, exec) != s
  {
    if s.replies != [] {
      assert Answers(s, s.replies[0], exec);
      assert |s.replies[1..]| != |s.replies|;
    } else if s.server.Polling? {
      HasRequest(s, c, exec);
    }
  }

  // ----- when two outstanding calls share a key

  function Stage(s: State): nat {
    if s.replies != [] then 0 else if s.server.Answering? then 1 else if s.server.Serving? then 2 else 3
  }

  lemma WrongTaker(s: State, c: nat, d: nat, capacity: nat, exec: Request -> int)
    requires Inv(s, exec) && c in s.waiting && d in s.waiting && c != d && SameKey(s.waiting[c], s.waiting[d])
    requires s.replies != [] && s.replies[0].caller == c
    ensures !Right(Next(s, Receive(d), capacity, exec), exec)
  {
    assert Answers(s, s.replies[0], exec);
    var s' := Next(s, Receive(d), capacity, exec);
    assert s'.finished[|s.finished|] == Done(s.waiting[d], exec(s.waiting[c]), c);
    assert !Served(s'.finished[|s.finished|], exec);
  }

  /** What the proxy does next. */
  function ProxyEvent(s: State): Event {
    if s.server.Answering? then Answer else if s.server.Serving? then Execute else Take
  }

  /** While no reply is ready, the proxy moves a call one stage on. */
  lemma ProxyMoves(s: State, c: nat, capacity: nat, exec: Request -> int)
    requires Inv(s, exec) && capacity > 0 && c in s.waiting && s.replies == []
    ensures Inv(Next(s, ProxyEvent(s), capacity, exec), exec)
  {
    if s.server.Answering? {
      AnswerStep(s, capacity, exec);
    } else if s.server.Serving? {
      ExecuteStep(s, capacity, exec);
    } else {
      HasRequest(s, c, exec);
      TakeStep(s, capacity, exec);
    }
  }

  lemma ProxyStage(s: State, c: nat, capacity: nat, exec: Request -> int)
    requires Inv(s, exec) && capacity > 0 && c in s.waiting && s.replies == []
    ensures var s' := Next(s, ProxyEvent(s), capacity, exec);
            s'.waiting == s.waiting && |Tokens(s')| == |Tokens(s)| && Stage(s') < Stage(s)
  {
    if s.server.Polling? { HasRequest(s, c, exec); }
  }

  lemma HasRequest(s: State, c: nat, exec: Request -> int)
    requires Inv(s, exec) && c in s.waiting && s.replies == [] && s.server.Polling?
    ensures s.requests != []
  {
    assert c in Tokens(s);
  }

  /** Without a send, the calls move on until the reply to c or d is in front. */
  lemma MoveOn(s: State, c: nat, d: nat, capacity: nat, exec: Request -> int) returns (e: Event, s': State)
    requires Inv(s, exec) && capacity > 0 && c in s.waiting && d in s.waiting
    requires s.replies != [] ==> s.replies[0].caller != c && s.replies[0].caller != d
    ensures !e.Send? && s' == Next(s, e, capacity, exec) && Inv(s', exec)
    ensures c in s'.waiting && d in s'.waiting && s'.waiting[c] == s.waiting[c] && s'.waiting[d] == s.waiting[d]
    ensures |Tokens(s')| < |Tokens(s)| || (|Tokens(s')| == |Tokens(s)| && Stage(s') < Stage(s))
  {
    if s.replies != [] {
      e := Receive(s.replies[0].caller);
      ReceiveStep(s, capacity, exec);
    } else {
      e := ProxyEvent(s);
      ProxyMoves(s, c, capacity, exec);
      ProxyStage(s, c, capacity, exec);
    }
    s' := Next(s, e, capacity, exec);
  }

  ghost predicate NoSends(es: seq<Event>) {
    forall i :: 0 <= i < |es| ==> !es[i].Send?
  }

  /** Every call can finish: from every state the proxy and the callers can go on, without further
      calls, until caller c has the answer to its own request. */
  lemma {:induction false} CallFinishes(s: State, c: nat, capacity: nat, exec: Request -> int) returns (es: seq<Event>)
    requires Inv(s, exec) && capacity > 0 && c in s.waiting
    ensures NoSends(es) && Done(s.waiting[c], exec(s.waiting[c]), c) in After(s, es, capacity, exec).finished
    decreases |Tokens(s)|, Stage(s)
  {
    if s.replies != [] && s.replies[0].caller == c {
      ReceiveStep(s, capacity, exec);
      es := [Receive(c)];
      var s' := Next(s, Receive(c), capacity, exec);
      assert s'.finished[|s.finished|] == Done(s.waiting[c], exec(s.waiting[c]), c);
      assert After(s, es, capacity, exec) == After(s', [], capacity, exec);
    } else {
      var e, s' := MoveOn(s, c, c, capacity, exec);
      var rest := CallFinishes(s', c, capacity, exec);
      es := [e] + rest;
      assert es[1..] == rest;
    }
  }

  /** From every state in which two outstanding calls share thread id and function type, one of them
      can be given the other's reply, without any further call. */
  lemma {:induction false} SharedGoesWrong(s: State, c: nat, d: nat, capacity: nat, exec: Request -> int)
    returns (es: seq<Event>)
    requires Inv(s, exec) && capacity > 0
    requires c in s.waiting && d in s.waiting && c != d && SameKey(s.waiting[c], s.waiting[d])
    ensures !Right(After(s, es, capacity, exec), exec) && NoSends(es)
    decreases |Tokens(s)|, Stage(s)
  {
    if s.replies != [] && (s.replies[0].caller == c || s.replies[0].caller == d) {
      var taker := if s.replies[0].caller == c then d else c;
      WrongTaker(s, s.replies[0].caller, taker, capacity, exec);
      es := [Receive(taker)];
      assert After(s, es, capacity, exec) == After(Next(s, Receive(taker), capacity, exec), [], capacity, exec);
    } else {
      var e, s' := MoveOn(s, c, d, capacity, exec);
      var rest := SharedGoesWrong(s', c, d, capacity, exec);
      es := [e] + rest;
      assert es[1..] == rest;
    }
  }

  lemma {:induction false} NoSendsUnshared(s: State, es: seq<Event>, capacity: nat, exec: Request -> int)
    requires NoSends(es)
    ensures AllUnshared(s, es, capacity, exec)
    decreases |es|
  {
    if es != [] { NoSendsUnshared(Next(s, es[0], capacity, exec), es[1..], capacity, exec); }
  }

  /** A call is safe to make, that is, whatever happens next without further calls every caller gets
      its own reply, iff no outstanding call has its thread id and function type. */
  lemma SendExact(s: State, r: Request, capacity: nat, exec: Request -> int)
    requires Good(s, exec) && r.caller !in s.waiting && |s.requests| < capacity
    ensures (forall es :: NoSends(es) ==> Right(After(Next(s, Send(r), capacity, exec), es, capacity, exec), exec))
            <==> !Shares(s, r)
  {
    var s' := Next(s, Send(r), capacity, exec);
    SendStep(s, r, capacity, exec);
    if Shares(s, r) {
      var c :| c in s.waiting && c != r.caller && SameKey(s.waiting[c], r);
      var es := SharedGoesWrong(s', c, r.caller, capacity, exec);
    } else {
      StepKeepsGood(s, Send(r), capacity, exec);
      forall es | NoSends(es) ensures Right(After(s', es, capacity, exec), exec) {
        NoSendsUnshared(s', es, capacity, exec);
        RunKeepsGood(s', es, capacity, exec);
      }
    }
  }

  /** Two callers without a thread, both of tid -1, that print something: one of them can be given
      the other's reply. */
  lemma SwapReached(p: seq<nat>, q: seq<nat>, capacity: nat, exec: Request -> int) returns (es: seq<Event>)
    requires capacity > 1
    ensures !Right(After(INIT, es, capacity, exec), exec)
  {
    var first, second := Request(0, -1, ConsolePrint, p), Request(1, -1, ConsolePrint, q);
    assert Tokens(INIT) == [];
    SendStep(INIT, first, capacity, exec);
    var s1 := Next(INIT, Send(first), capacity, exec);
    SendStep(s1, second, capacity, exec);
    var s2 := Next(s1, Send(second), capacity, exec);
    var rest := SharedGoesWrong(s2, 0, 1, capacity, exec);
    es := [Send(first)] + ([Send(second)] + rest);
    assert ([Send(second)] + rest)[1..] == rest && es[1..] == [Send(second)] + rest;
    assert After(s1, [Send(second)] + rest, capacity, exec) == After(s2, rest, capacity, exec);
  }
}
