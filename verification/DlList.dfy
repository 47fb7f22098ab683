/** The circular doubly linked list of the kernel, on the heap.  A list is its head
    followed by its items; every operation is proved to act on that sequence. */
module DlList {
  import opened Seqs

  class Link {
    var next: Link?
    var prev: Link?

    constructor ()
      ensures next == null && prev == null
    {
      next, prev := null, null;
    }
  }

  ghost predicate Disjoint(s: seq<Link>, t: seq<Link>) {
    forall i, j :: 0 <= i < |s| && 0 <= j < |t| ==> s[i] != t[j]
  }

  /** s is a cycle: next walks it forwards and prev backwards. */
  ghost predicate Ring(s: seq<Link>)
    reads s
  {
    && |s| > 0 && NoDup(s)
    && (forall i {:trigger s[i].next} :: 0 <= i < |s| ==> s[i].next == if i + 1 < |s| then s[i + 1] else s[0])
    && (forall i {:trigger s[i].prev} :: 0 <= i < |s| ==> s[i].prev == if i > 0 then s[i - 1] else s[|s| - 1])
  }

  /** dl_list_init */
  method Init(list: Link)
    modifies list
    ensures Ring([list])
  {
    list.next := list;
    list.prev := list;
  }

  /** dl_list_add: puts item right after list. */
  method Add(item: Link, list: Link, ghost s: seq<Link>, ghost k: nat)
    requires Ring(s) && k < |s| && s[k] == list && item !in s
    modifies s, item
    ensures Ring(s[..k + 1] + [item] + s[k + 1..])
  {
    item.next := list.next;
    item.prev := list;
    list.next.prev := item;
    list.next := item;
  }

  /** dl_list_add_tail: puts item before the head, that is, last. */
  method AddTail(item: Link, list: Link, ghost s: seq<Link>)
    requires Ring(s) && s[0] == list && item !in s
    modifies s, item
    ensures Ring(s + [item])
  {
    Add(item, list.prev, s, |s| - 1);
    assert s[..|s|] + [item] + s[|s|..] == s + [item];
  }

  /** dl_list_del: takes item out and clears its links. */
  method Del(item: Link, ghost s: seq<Link>, ghost k: nat)
    requires Ring(s) && 0 < k < |s| && s[k] == item
    modifies s
    ensures Ring(s[..k] + s[k + 1..]) && item.next == null && item.prev == null
  {
    item.next.prev := item.prev;
    item.prev.next := item.next;
    item.next := null;
    item.prev := null;
  }

  /** dl_list_del_init: takes item out and leaves it a list of its own. */
  method DelInit(item: Link, ghost s: seq<Link>, ghost k: nat)
    requires Ring(s) && 0 < k < |s| && s[k] == item
    modifies s
    ensures Ring(s[..k] + s[k + 1..]) && Ring([item])
  {
    item.next.prev := item.prev;
    item.prev.next := item.next;
    item.next := item;
    item.prev := item;
  }

  method Empty(list: Link, ghost s: seq<Link>) returns (empty: bool)
    requires Ring(s) && s[0] == list
    ensures empty <==> |s| == 1
  {
    empty := list.next == list;
  }

  /** dl_list_append: moves the items of the list headed by item to the end of the other one.
      The links of the emptied head are left as they were. */
  method Append(item: Link, list: Link, ghost src: seq<Link>, ghost dst: seq<Link>)
    requires Ring(src) && Ring(dst) && src[0] == item && dst[0] == list
    requires Disjoint(src, dst)
    modifies src, dst
    ensures Ring(dst + src[1..])
    ensures item.next == old(item.next) && item.prev == old(item.prev)
  {
    var empty := Empty(item, src);
    if empty {
      assert dst + src[1..] == dst;
      return;
    }
    ghost var t := dst + src[1..];
    assert forall i {:trigger t[i]} :: 0 <= i < |t| ==> t[i] == if i < |dst| then dst[i] else src[i - |dst| + 1];
    item.prev.next := list;
    list.prev.next := item.next;
    item.next.prev := list.prev;
    list.prev := item.prev;
  }

  /** dl_list_len */
  method Len(list: Link, ghost s: seq<Link>) returns (count: nat)
    requires Ring(s) && s[0] == list
    ensures count == |s| - 1
  {
    var item := list.next;
    count := 0;
    while item != list
      invariant count <= |s| - 1
      invariant item == if count + 1 < |s| then s[count + 1] else s[0]
      decreases |s| - count
    {
      item := item.next;
      count := count + 1;
    }
  }

  /** The items of s for which f is v, in order. */
  function Where(s: seq<Link>, f: Link -> bool, v: bool): (r: seq<Link>)
    ensures forall x :: x in r ==> x in s
  {
    if s == [] then [] else Where(s[..|s| - 1], f, v) + if f(s[|s| - 1]) == v then [s[|s| - 1]] else []
  }

  lemma WhereNext(s: seq<Link>, i: nat, f: Link -> bool, v: bool)
    requires i < |s|
    ensures Where(s[..i + 1], f, v) == Where(s[..i], f, v) + if f(s[i]) == v then [s[i]] else []
  {
    assert s[..i + 1][..i] == s[..i];
  }

  /** Two lists stay apart when an item of one moves to the other. */
  lemma Moved(s: seq<Link>, t: seq<Link>, k: nat)
    requires NoDup(s) && Disjoint(s, t) && k < |s|
    ensures Disjoint(s[..k] + s[k + 1..], t + [s[k]])
    ensures forall x :: x in s ==> x !in t
    ensures forall x :: x in s[..k] + s[k + 1..] ==> x !in t + [s[k]]
  {
    var r, u := s[..k] + s[k + 1..], t + [s[k]];
    forall i, j | 0 <= i < |r| && 0 <= j < |u| ensures r[i] != u[j] {
      assert r[i] == s[if i < k then i else i + 1];
    }
  }

  /** struct thread_list: a list head and the number of items. */
  class ThreadList {
    const head: Link
    var count: nat
    ghost var items: seq<Link>

    ghost predicate Valid()
      reads this, head, items
    {
      Ring([head] + items) && count == |items|
    }

    /** thread_list_init */
    constructor ()
      ensures Valid() && items == [] && fresh(head)
    {
      var h := new Link();
      h.next := h;
      h.prev := h;
      head := h;
      count := 0;
      items := [];
    }

    /** An item joins at the end: dl_list_add_tail and count++. */
    method PushBack(item: Link)
      requires Valid() && item != head && item !in items
      modifies this, head, items, item
      ensures Valid() && items == old(items) + [item]
    {
      AddTail(item, head, [head] + items);
      assert [head] + items + [item] == [head] + (items + [item]);
      count := count + 1;
      items := items + [item];
    }

    /** An item leaves from anywhere: dl_list_del_init and count--. */
    method Remove(item: Link, ghost k: nat)
      requires Valid() && k < |items| && items[k] == item
      modifies this, head, items
      ensures Valid() && items == old(items)[..k] + old(items)[k + 1..]
      ensures Ring([item])
    {
      ghost var s := [head] + items;
      assert s[..k + 1] == [head] + items[..k] && s[k + 2..] == items[k + 1..];
      assert s[..k + 1] + s[k + 2..] == [head] + (items[..k] + items[k + 1..]);
      DelInit(item, s, k + 1);
      count := count - 1;
      items := items[..k] + items[k + 1..];
    }

    /** The other list's items join at the end and it is emptied: dl_list_append, the count
        update and dl_list_init of the other head. */
    method AppendAll(other: ThreadList)
      requires Valid() && other.Valid() && other != this
      requires Disjoint([head] + items, [other.head] + other.items)
      modifies this, other, head, items, other.head, other.items
      ensures Valid() && items == old(items) + old(other.items)
      ensures other.Valid() && other.items == []
    {
      ghost var dst, src := [head] + items, [other.head] + other.items;
      Append(other.head, head, src, dst);
      assert dst + src[1..] == [head] + (items + other.items);
      count := count + other.count;
      items := items + other.items;
      Init(other.head);
      other.count := 0;
      other.items := [];
      assert [other.head] + other.items == [other.head];
    }

    /** An item leaves for the end of another list: dl_list_del_init, count--, dl_list_add_tail and
        the other count++. */
    method MoveTo(other: ThreadList, item: Link, ghost k: nat)
      requires Valid() && other.Valid() && other != this && k < |items| && items[k] == item
      requires Disjoint([head] + items, [other.head] + other.items)
      modifies this, other, head, items, other.head, other.items
      ensures Valid() && items == old(items)[..k] + old(items)[k + 1..]
      ensures other.Valid() && other.items == old(other.items) + [item]
      ensures Disjoint([head] + items, [other.head] + other.items)
    {
      ghost var s, t := [head] + items, [other.head] + other.items;
      ghost var r := s[..k + 1] + s[k + 2..];
      Moved(s, t, k + 1);
      assert s[0] == head && s[1..] == items && t[0] == other.head && t[1..] == other.items;
      Remove(item, k);
      assert [head] + items == r && Ring(t);
      other.PushBack(item);
      assert Ring(r) && [other.head] + other.items == t + [item];
    }

    /** The link after the k-th of the head and the items. */
    lemma After(k: nat)
      requires Valid() && k <= |items|
      ensures ([head] + items)[k].next == if k < |items| then items[k] else head
    {
      assert k < |items| ==> ([head] + items)[k + 1] == items[k];
    }

    /** The traversal of the items `all` is at the i-th: of those before it the ones f holds of have
        joined the items `base` of the other list. */
    ghost predicate At(other: ThreadList, f: Link -> bool, all: seq<Link>, base: seq<Link>, i: nat)
      reads this, head, items, other, other.head, other.items
    {
      && Valid() && other.Valid() && Disjoint([head] + items, [other.head] + other.items)
      && i <= |all| && items == Where(all[..i], f, false) + all[i..]
      && other.items == base + Where(all[..i], f, true)
    }

    /** No link joins or leaves the two lists together. */
    lemma Members(other: ThreadList, f: Link -> bool, all: seq<Link>, base: seq<Link>, i: nat)
      requires At(other, f, all, base, i)
      ensures forall j :: 0 <= j < |items| ==> items[j] in all
      ensures forall j :: 0 <= j < |other.items| ==> other.items[j] in base || other.items[j] in all
    {
      assert forall x :: x in items ==> x in all;
      assert forall x :: x in other.items ==> x in base || x in all;
    }

    /** The body of the traversal. */
    method Visit(other: ThreadList, item: Link, f: Link -> bool,
                 ghost all: seq<Link>, ghost base: seq<Link>, ghost i: nat)
      requires At(other, f, all, base, i) && i < |all| && item == all[i] && other != this
      modifies this, other, head, other.head, all, base
      ensures At(other, f, all, base, i + 1)
    {
      Members(other, f, all, base, i);
      WhereNext(all, i, f, false);
      WhereNext(all, i, f, true);
      if f(item) {
        MoveTo(other, item, |Where(all[..i], f, false)|);
      }
    }

    /** The link after the item the traversal is at is the next item of `all`, or the head. */
    lemma NextOf(other: ThreadList, f: Link -> bool, all: seq<Link>, base: seq<Link>, i: nat)
      requires At(other, f, all, base, i)
      ensures head.next != null
      ensures i < |all| ==> all[i].next == if i + 1 < |all| then all[i + 1] else head
    {
      After(0);
      if i < |all| {
        After(|Where(all[..i], f, false)| + 1);
      }
    }

    /** dl_list_for_each_safe with a body that moves the items f holds of to another list: the saved
        next link takes it over exactly the items the list had at the start, in their order. */
    method MoveWhere(other: ThreadList, f: Link -> bool) returns (ghost visited: seq<Link>)
      requires Valid() && other.Valid() && other != this
      requires Disjoint([head] + items, [other.head] + other.items)
      modifies this, other, head, items, other.head, other.items
      ensures visited == old(items)
      ensures Valid() && items == Where(old(items), f, false)
      ensures other.Valid() && other.items == old(other.items) + Where(old(items), f, true)
    {
      ghost var all, base, i := items, other.items, 0;
      visited := [];
      HeadApart();
      After(0);
      NextOf(other, f, all, base, 0);
      var item, next := head.next, head.next.next;
      while item != head
        invariant At(other, f, all, base, i) && visited == all[..i]
        invariant item == if i < |all| then all[i] else head
        invariant i < |all| ==> next == if i + 1 < |all| then all[i + 1] else head
        decreases |all| - i
      {
        Visit(other, item, f, all, base, i);
        visited, i := visited + [item], i + 1;
        NextOf(other, f, all, base, i);
        item, next := next, next.next;
      }
    }

    lemma HeadApart()
      requires Valid()
      ensures head !in items
    {
      assert ([head] + items)[0] == head && forall j :: 0 <= j < |items| ==> ([head] + items)[j + 1] == items[j];
    }
  }
}
