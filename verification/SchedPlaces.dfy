/** Where blocks go: which waiting threads a core adopts, and where freed blocks end up. */
module SchedPlaces {
  import opened Seqs
  import opened SchedSpec
  import opened SchedInv
  import opened SchedSteps

  // ----- adoption

  /** The threads of a list that name core c as their own, or those that do not, in list order. */
  function Naming(s: State, c: nat, items: seq<nat>, own: bool): (r: seq<nat>)
    requires IdsBelow(items, |s.tcbs|)
    ensures IdsBelow(r, |s.tcbs|)
  {
    if items == [] then []
    else if (s.tcbs[items[0]].runningCore == c) == own then [items[0]] + Naming(s, c, items[1..], own)
    else Naming(s, c, items[1..], own)
  }

  /** The first thread of a list that may run on core c, if any. */
  function FirstAllowed(s: State, c: nat, items: seq<nat>): (r: seq<nat>)
    requires IdsBelow(items, |s.tcbs|)
    ensures IdsBelow(r, |s.tcbs|)
  {
    if items == [] then [] else if c !in s.tcbs[items[0]].forbidden then [items[0]] else FirstAllowed(s, c, items[1..])
  }

  /** At most n of the items, from the front. */
  function First(items: seq<nat>, n: nat): (r: seq<nat>)
    ensures |r| <= |items| && forall i :: 0 <= i < |r| ==> r[i] == items[i]
  {
    if |items| >= n then items[..n] else items
  }

  /** The threads that core c adopts, in this order: those that name it as their own, up to the room it
      has; and, if there is room left, the first of the others that may run there. */
  function Picks(s: State, c: nat, room: nat): (r: seq<nat>)
    requires Shape(s)
  {
    var items := s.lists[Migrating].items;
    var own := Naming(s, c, items, true);
    if |own| >= room then First(own, room) else own + FirstAllowed(s, c, Naming(s, c, items, false))
  }

  function WithoutAll(items: seq<nat>, ts: seq<nat>): seq<nat>
    decreases |ts|
  {
    if ts == [] then items else WithoutAll(Without(items, ts[0]), ts[1..])
  }

  /** What the adoption of some threads does: they name core c as their own, and are taken off the
      migrating list and put on the core's runnable list, behind those that were there and in this
      order. Other blocks are as before. */
  ghost predicate Adopted(s: State, r: State, c: nat, ts: seq<nat>)
    requires Shape(s) && Shape(r) && c < 288
  {
    && |r.tcbs| == |s.tcbs|
    && (forall u: nat {:trigger AdoptedAt(s, r, c, ts, u)} :: u < |s.tcbs| ==> AdoptedAt(s, r, c, ts, u))
    && r.lists[Migrating].items == WithoutAll(s.lists[Migrating].items, ts)
    && r.lists[RunnableOn(c)].items == s.lists[RunnableOn(c)].items + ts
  }

  predicate AdoptedAt(s: State, r: State, c: nat, ts: seq<nat>, u: nat)
    requires u < |s.tcbs| == |r.tcbs|
  {
    r.tcbs[u] == if u in ts then s.tcbs[u].(link := On(RunnableOn(c)), runningCore := c) else s.tcbs[u]
  }

  lemma AdoptedNone(s: State, c: nat)
    requires Shape(s) && c < 288
    ensures Adopted(s, s, c, [])
  {
    assert s.lists[RunnableOn(c)].items + [] == s.lists[RunnableOn(c)].items;
  }

  lemma AdoptItems(s: State, c: nat, t: nat)
    requires Shape(s) && c < 288 && t < |s.tcbs| && s.tcbs[t].link == On(Migrating)
    ensures var r := Adopt(s, c, t);
            && r.lists[Migrating].items == Without(s.lists[Migrating].items, t)
            && r.lists[RunnableOn(c)].items == s.lists[RunnableOn(c)].items + [t]
  {
  }

  lemma AdoptsOne(s: State, c: nat, t: nat)
    requires Lists(s) && c < 288 && t < |s.tcbs| && s.tcbs[t].link == On(Migrating)
    ensures Lists(Adopt(s, c, t)) && Load(Adopt(s, c, t), c) == Load(s, c) + 1 && Adopted(s, Adopt(s, c, t), c, [t])
  {
    AdoptChain(s, c, t);
    AdoptItems(s, c, t);
    var r := Adopt(s, c, t);
    assert Load(r, c) == Load(s, c) + 1;
    TakeOk(s, t, Migrating);
    MoveOk(s, t, Migrating, RunnableOn(c), Take(s, t, Migrating).tcbs[t].(runningCore := c));
    assert [t][1..] == [];
    assert WithoutAll(s.lists[Migrating].items, [t]) == Without(s.lists[Migrating].items, t);
  }

  lemma {:induction false} WithoutBoth(items: seq<nat>, a: seq<nat>, b: seq<nat>)
    ensures WithoutAll(items, a + b) == WithoutAll(WithoutAll(items, a), b)
    decreases |a|
  {
    if a == [] {
      assert a + b == b;
    } else {
      assert (a + b)[1..] == a[1..] + b;
      WithoutBoth(Without(items, a[0]), a[1..], b);
    }
  }

  lemma AdoptedBoth(s: State, s1: State, r: State, c: nat, a: seq<nat>, b: seq<nat>)
    requires Shape(s) && Shape(s1) && Shape(r) && c < 288 && Adopted(s, s1, c, a) && Adopted(s1, r, c, b)
    requires forall i :: 0 <= i < |b| ==> b[i] !in a
    ensures Adopted(s, r, c, a + b)
  {
    WithoutBoth(s.lists[Migrating].items, a, b);
    var items := s.lists[RunnableOn(c)].items;
    assert items + a + b == items + (a + b);
    forall u: nat | u < |s.tcbs| ensures AdoptedAt(s, r, c, a + b, u) {
      assert AdoptedAt(s, s1, c, a, u) && AdoptedAt(s1, r, c, b, u);
    }
  }

  // ----- the loop over the threads meant for the core

  /** The blocks of some items name the same cores and may run on the same ones. */
  ghost predicate SameNames(s: State, r: State, items: seq<nat>) {
    && |r.tcbs| == |s.tcbs| && IdsBelow(items, |s.tcbs|)
    && forall i :: 0 <= i < |items| ==> r.tcbs[items[i]] == s.tcbs[items[i]]
  }

  lemma {:induction false} NamingSame(s: State, r: State, c: nat, items: seq<nat>, own: bool)
    requires SameNames(s, r, items)
    ensures Naming(r, c, items, own) == Naming(s, c, items, own)
  {
    if items != [] { NamingSame(s, r, c, items[1..], own); }
  }

  lemma {:induction false} AllowedSame(s: State, r: State, c: nat, items: seq<nat>)
    requires SameNames(s, r, items)
    ensures FirstAllowed(r, c, items) == FirstAllowed(s, c, items)
  {
    if items != [] { AllowedSame(s, r, c, items[1..]); }
  }

  lemma {:induction false} NamingIn(s: State, c: nat, items: seq<nat>, own: bool)
    requires IdsBelow(items, |s.tcbs|)
    ensures forall t: nat :: t in Naming(s, c, items, own) <==> t in items && (s.tcbs[t].runningCore == c) == own
  {
    if items != [] {
      NamingIn(s, c, items[1..], own);
      assert items == [items[0]] + items[1..];
    }
  }

  lemma FirstNext(t: nat, rest: seq<nat>, room: nat)
    requires room > 0
    ensures First([t] + rest, room) == [t] + First(rest, room - 1)
  {
  }

  /** One turn of the loop that adopts. */
  lemma OwnTurn(s: State, c: nat, items: seq<nat>) returns (s1: State)
    requires Lists(s) && c < 288 && items != [] && Ahead(s, items, Migrating) && s.tcbs[items[0]].runningCore == c
    ensures Lists(s1) && Load(s1, c) == Load(s, c) + 1 && Adopted(s, s1, c, [items[0]])
    ensures AdoptOwn(s, c, items) == if Load(s1, c) == 2048 then (s1, true) else AdoptOwn(s1, c, items[1..])
    ensures Ahead(s1, items[1..], Migrating) && Naming(s1, c, items[1..], true) == Naming(s, c, items[1..], true)
    ensures items[0] !in Naming(s, c, items[1..], true)
  {
    s1 := Adopt(s, c, items[0]);
    AdoptsOne(s, c, items[0]);
    AdoptChain(s, c, items[0]);
    AheadNext(s, s1, items, Migrating);
    assert items[0] !in items[1..];
    NamesKept(s, s1, c, items);
    NamingIn(s, c, items[1..], true);
  }

  lemma NamesKept(s: State, s1: State, c: nat, items: seq<nat>)
    requires Shape(s) && Shape(s1) && c < 288 && items != [] && IdsBelow(items, |s.tcbs|) && items[0] !in items[1..]
    requires Adopted(s, s1, c, [items[0]])
    ensures Naming(s1, c, items[1..], true) == Naming(s, c, items[1..], true)
  {
    var rest := items[1..];
    forall i | 0 <= i < |rest| ensures s1.tcbs[rest[i]] == s.tcbs[rest[i]] {
      assert AdoptedAt(s, s1, c, [items[0]], rest[i]);
    }
    NamingSame(s, s1, c, rest, true);
  }

  lemma FillsLast(s: State, s1: State, out: (State, bool), c: nat, t: nat, rest: seq<nat>, own: seq<nat>, room: nat)
    requires Shape(s) && Shape(s1) && Shape(out.0) && c < 288 && Adopted(s, s1, c, [t])
    requires out == (s1, true) && own == [t] + rest && room == 1
    ensures Fills(s, out, c, own, room)
  {
    assert First([t] + rest, 1) == [t];
  }

  lemma FillsMore(s: State, s1: State, out: (State, bool), c: nat, t: nat, rest: seq<nat>, own: seq<nat>, room: nat)
    requires Shape(s) && Shape(s1) && Shape(out.0) && c < 288 && t !in rest && Adopted(s, s1, c, [t])
    requires room > 0 && Fills(s1, out, c, rest, room - 1) && own == [t] + rest
    ensures Fills(s, out, c, own, room)
  {
    FirstNext(t, rest, room);
    AdoptedBoth(s, s1, out.0, c, [t], First(rest, room - 1));
  }

  /** The loop over the threads meant for core c adopts them in list order until there is no room. */
  lemma {:induction false} AdoptOwnExact(s: State, c: nat, items: seq<nat>)
    requires Lists(s) && c < 288 && Ahead(s, items, Migrating) && Load(s, c) < 2048
    ensures Fills(s, AdoptOwn(s, c, items), c, Naming(s, c, items, true), 2048 - Load(s, c))
    decreases |items|, 2
  {
    if items == [] {
      AdoptedNone(s, c);
    } else if s.tcbs[items[0]].runningCore == c {
      if Load(s, c) == 2047 { OwnLast(s, c, items); } else { OwnMore(s, c, items, 2048 - Load(s, c)); }
    } else {
      OwnSkip(s, c, items);
      AdoptOwnExact(s, c, items[1..]);
    }
  }

  lemma OwnSkip(s: State, c: nat, items: seq<nat>)
    requires Lists(s) && c < 288 && items != [] && Ahead(s, items, Migrating) && Load(s, c) < 2048
    requires s.tcbs[items[0]].runningCore != c
    ensures Ahead(s, items[1..], Migrating) && AdoptOwn(s, c, items) == AdoptOwn(s, c, items[1..])
    ensures Naming(s, c, items, true) == Naming(s, c, items[1..], true)
  {
    AheadNext(s, s, items, Migrating);
  }

  /** The state and the flag after a loop that had room for some of the threads own. */
  ghost predicate Fills(s: State, out: (State, bool), c: nat, own: seq<nat>, room: nat)
    requires Shape(s) && Shape(out.0) && c < 288
  {
    Adopted(s, out.0, c, First(own, room)) && (out.1 <==> |own| >= room)
  }

  lemma {:induction false} OwnMore(s: State, c: nat, items: seq<nat>, room: int)
    requires Lists(s) && c < 288 && items != [] && Ahead(s, items, Migrating) && s.tcbs[items[0]].runningCore == c
    requires room == 2048 - Load(s, c) && room > 1
    ensures Fills(s, AdoptOwn(s, c, items), c, Naming(s, c, items, true), room)
    decreases |items|, 1
  {
    var s1 := OwnRest(s, c, items, room);
    FillsMore(s, s1, AdoptOwn(s, c, items), c, items[0], Naming(s, c, items[1..], true), Naming(s, c, items, true), room);
  }

  lemma OwnLast(s: State, c: nat, items: seq<nat>)
    requires Lists(s) && c < 288 && items != [] && Ahead(s, items, Migrating) && s.tcbs[items[0]].runningCore == c
    requires Load(s, c) == 2047
    ensures Fills(s, AdoptOwn(s, c, items), c, Naming(s, c, items, true), 1)
  {
    var s1 := OwnTurn(s, c, items);
    FillsLast(s, s1, AdoptOwn(s, c, items), c, items[0], Naming(s, c, items[1..], true), Naming(s, c, items, true), 1);
  }

  lemma {:induction false} OwnRest(s: State, c: nat, items: seq<nat>, room: int) returns (s1: State)
    requires Lists(s) && c < 288 && items != [] && Ahead(s, items, Migrating) && s.tcbs[items[0]].runningCore == c
    requires room == 2048 - Load(s, c) && room > 1
    ensures Shape(s1) && Adopted(s, s1, c, [items[0]]) && items[0] !in Naming(s, c, items[1..], true)
    ensures Fills(s1, AdoptOwn(s, c, items), c, Naming(s, c, items[1..], true), room - 1)
    ensures Naming(s, c, items, true) == [items[0]] + Naming(s, c, items[1..], true)
    decreases |items|, 0
  {
    s1 := OwnTurn(s, c, items);
    AdoptOwnExact(s1, c, items[1..]);
  }

  /** With room left, the last loop adopts the first thread that may run on core c. */
  lemma {:induction false} AdoptOneExact(s: State, c: nat, items: seq<nat>)
    requires Lists(s) && c < 288 && Ahead(s, items, Migrating) && Load(s, c) < 2048
    ensures Adopted(s, AdoptOne(s, c, items), c, FirstAllowed(s, c, items))
    decreases |items|
  {
    AdoptedNone(s, c);
    if items != [] {
      if c in s.tcbs[items[0]].forbidden { AdoptOneExact(s, c, items[1..]); } else { AdoptsOne(s, c, items[0]); }
    }
  }

  // ----- what is left on the list

  lemma {:induction false} WithoutHead(x: nat, items: seq<nat>, ts: seq<nat>)
    requires x !in ts
    ensures WithoutAll([x] + items, ts) == [x] + WithoutAll(items, ts)
    decreases |ts|
  {
    if ts != [] {
      assert ([x] + items)[1..] == items;
      WithoutHead(x, Without(items, ts[0]), ts[1..]);
    }
  }

  /** Taking the threads that name core c off a list leaves the others, in order. */
  lemma {:induction false} LeavesOthers(s: State, c: nat, items: seq<nat>)
    requires IdsBelow(items, |s.tcbs|) && NoDup(items)
    ensures WithoutAll(items, Naming(s, c, items, true)) == Naming(s, c, items, false)
    decreases |items|
  {
    if items != [] {
      var rest := items[1..];
      LeavesOthers(s, c, rest);
      assert items == [items[0]] + rest;
      NamingIn(s, c, rest, true);
      if s.tcbs[items[0]].runningCore == c {
        assert ([items[0]] + Naming(s, c, rest, true))[1..] == Naming(s, c, rest, true);
        assert Without(items, items[0]) == rest;
      } else {
        WithoutHead(items[0], rest, Naming(s, c, rest, true));
      }
    }
  }

  lemma {:induction false} AllowedIn(s: State, c: nat, items: seq<nat>)
    requires IdsBelow(items, |s.tcbs|)
    ensures forall i :: 0 <= i < |FirstAllowed(s, c, items)| ==> FirstAllowed(s, c, items)[i] in items
  {
    if items != [] { AllowedIn(s, c, items[1..]); }
  }

  /** After all threads that name core c are adopted, the first of the others that may run there is the
      same as before, and is not one of them. */
  lemma OthersLeft(s: State, s1: State, c: nat)
    requires Lists(s) && Shape(s1) && c < 288
    requires Adopted(s, s1, c, Naming(s, c, s.lists[Migrating].items, true))
    ensures var items := s.lists[Migrating].items;
            var own, first := Naming(s, c, items, true), FirstAllowed(s, c, Naming(s, c, items, false));
            FirstAllowed(s1, c, s1.lists[Migrating].items) == first && forall i :: 0 <= i < |first| ==> first[i] !in own
  {
    var items := s.lists[Migrating].items;
    var rest := Naming(s, c, items, false);
    ListAhead(s, Migrating);
    LeavesOthers(s, c, items);
    NamingIn(s, c, items, true);
    NamingIn(s, c, items, false);
    AllowedIn(s, c, rest);
    forall i | 0 <= i < |rest| ensures s1.tcbs[rest[i]] == s.tcbs[rest[i]] {
      assert AdoptedAt(s, s1, c, Naming(s, c, items, true), rest[i]);
    }
    AllowedSame(s, s1, c, rest);
  }

  lemma OwnAll(s: State, c: nat, items: seq<nat>)
    requires Lists(s) && c < 288 && Ahead(s, items, Migrating) && |Naming(s, c, items, true)| < 2048 - Load(s, c)
    ensures var r := AdoptOwn(s, c, items).0;
            Lists(r) && Load(r, c) < 2048 && Adopted(s, r, c, Naming(s, c, items, true))
  {
    AdoptOwnExact(s, c, items);
    AdoptOwnChain(s, c, items);
  }

  /** Adoption over the whole migrating list: when the lock is won and the core is below its limit, it
      adopts the threads that name it as their own, in list order and up to the limit, and if there is
      room left the first of the others that may run there; otherwise nothing happens. */
  lemma PullExact(s: State, c: nat, won: bool)
    requires Inv(s) && c < 288
    ensures if won && Load(s, c) < 2048 then Adopted(s, Pull(s, c, won), c, Picks(s, c, 2048 - Load(s, c)))
            else Pull(s, c, won) == s
  {
    assert Drift(s, Migrating) == 0;
    AdoptedNone(s, c);
    if won && Load(s, c) < 2048 && s.lists[Migrating].items != [] {
      var items := s.lists[Migrating].items;
      var own := Naming(s, c, items, true);
      ListAhead(s, Migrating);
      AdoptOwnExact(s, c, items);
      if |own| < 2048 - Load(s, c) {
        OwnAll(s, c, items);
        var s1 := AdoptOwn(s, c, items).0;
        OthersLeft(s, s1, c);
        ListAhead(s1, Migrating);
        AdoptOneExact(s1, c, s1.lists[Migrating].items);
        AdoptedBoth(s, s1, Pull(s, c, won), c, own, FirstAllowed(s1, c, s1.lists[Migrating].items));
      }
    }
  }

  // ----- destruction

  /** A destroyed block goes to the global free list if the core's own list has two or more and the lock
      is won. Otherwise it goes to the core's own list, which is first emptied into the global one if it
      has five or more; so that list never grows past five. */
  lemma DestroyPlaces(s: State, c: nat, t: nat, won: bool)
    requires Lists(s) && c < 288 && t < |s.tcbs| && s.tcbs[t].link == Off && FreeEven(s)
    ensures var r := Destroy(s, c, t, won); var mine, all := s.lists[LocalFree(c)].items, s.lists[GlobalFree].items;
            var shared, full := |mine| >= 2 && won, |mine| >= 5;
            && r.tcbs[t].link == On(if shared then GlobalFree else LocalFree(c))
            && r.lists[GlobalFree].items == all + (if shared then [t] else if full then mine else [])
            && r.lists[LocalFree(c)].items == if shared then mine else if full then [t] else mine + [t]
  {
    assert Drift(s, LocalFree(c)) == 0;
    var all := s.lists[GlobalFree].items;
    assert all + [] == all && [] + [t] == [t];
  }
}
