/** The circular queue between a producer and a consumer.  Index arithmetic uses a bit mask;
    the slot write and the index update are separate steps of either side. */
module Ring {
  import opened Levels

  // ----- the mask

  /** Bitwise and of two non-negative numbers. */
  function And(x: nat, y: nat): nat {
    if x == 0 || y == 0 then 0 else 2 * And(x / 2, y / 2) + (if x % 2 == 1 && y % 2 == 1 then 1 else 0)
  }

  lemma AndOdd(x: nat, m: nat)
    ensures And(x, 2 * m + 1) == 2 * And(x / 2, m) + x % 2
  {
    assert (2 * m + 1) / 2 == m && (2 * m + 1) % 2 == 1;
  }

  /** Masking with 2^k - 1 is the remainder modulo 2^k. */
  lemma {:induction false} AndMask(x: nat, k: nat)
    ensures And(x, Pow2(k) - 1) == x % Pow2(k)
  {
    if k > 0 {
      AndMask(x / 2, k - 1);
      AndMaskStep(x, Pow2(k - 1) - 1, Pow2(k - 1), Pow2(k));
    }
  }

  lemma AndMaskStep(x: nat, m: nat, w: nat, w2: nat)
    requires w == m + 1 && w2 == 2 * w && And(x / 2, m) == (x / 2) % w
    ensures And(x, w2 - 1) == x % w2
  {
    var y := 2 * m + 1;
    assert w2 - 1 == y;
    AndOdd(x, m);
    HalfMod(x, w);
  }

  lemma HalfMod(x: nat, w: nat)
    requires w > 0
    ensures x % (2 * w) == 2 * ((x / 2) % w) + x % 2
  {
    var q, r := (x / 2) / w, (x / 2) % w;
    assert x == 2 * (q * w + r) + x % 2;
    assert x == q * (2 * w) + (2 * r + x % 2);
    ModUnique(x, 2 * w, q, 2 * r + x % 2);
  }

  lemma ModUnique(x: nat, w: nat, q: nat, r: nat)
    requires w > 0 && x == q * w + r && r < w
    ensures x % w == r
  {
    MulLe(q + 1, q + 1, w);
    DivUnique(x, w, q);
  }

  /** A mask m keeps every number up to m unchanged only if m + 1 is a power of two. */
  lemma {:induction false} MaskNeedsPowerOfTwo(m: nat) returns (k: nat)
    requires forall h: nat :: h <= m ==> And(h, m) == h
    ensures m + 1 == Pow2(k)
  {
    k := 0;
    if m > 0 {
      assert And(1, m) == 1;
      var half := m / 2;
      assert m == 2 * half + 1;
      forall h: nat | h <= half ensures And(h, half) == h {
        AndOdd(2 * h, half);
        assert And(2 * h, m) == 2 * h;
      }
      var j := MaskNeedsPowerOfTwo(half);
      k := j + 1;
    }
  }

  // ----- the counters

  /** cq_avail_data: the difference is taken in 64-bit unsigned arithmetic. */
  function Avail(head: nat, tail: nat, size: nat): nat
    requires size > 0
  {
    And((head - tail) % 0x1_0000_0000_0000_0000, size - 1)
  }

  /** How many slots lie from tail up to head. */
  function Distance(head: nat, tail: nat, size: nat): int {
    if head >= tail then head - tail else head + size - tail
  }

  lemma AvailIsDistance(head: nat, tail: nat, k: nat)
    requires k <= 31 && head < Pow2(k) && tail < Pow2(k)
    ensures Avail(head, tail, Pow2(k)) == Distance(head, tail, Pow2(k))
  {
    var x := (head - tail) % 0x1_0000_0000_0000_0000;
    Pow2Mono(k, 31);
    Pow2Values();
    AndMask(x, k);
    if head >= tail {
      assert x == head - tail;
      ModUnique(x, Pow2(k), 0, x);
    } else {
      assert x == 0x1_0000_0000_0000_0000 - (tail - head);
      BorrowMod(tail - head, k);
    }
  }

  /** A negative difference, wrapped to 64 bits, has the right remainder: 2^k divides 2^64. */
  lemma BorrowMod(d: nat, k: nat)
    requires k <= 31 && 0 < d < Pow2(k)
    ensures (0x1_0000_0000_0000_0000 - d) % Pow2(k) == Pow2(k) - d
  {
    Pow2Add(64 - k, k);
    Pow64();
    Borrow(0x1_0000_0000_0000_0000, Pow2(64 - k), Pow2(k), d);
  }

  lemma Borrow(total: nat, n: nat, size: nat, d: nat)
    requires n > 0 && total == n * size && 0 < d < size
    ensures (total - d) % size == size - d
  {
    Distribute(n, size);
    ModUnique(total - d, size, n - 1, size - d);
  }

  lemma Distribute(n: nat, size: nat)
    requires n > 0
    ensures n * size == (n - 1) * size + size
  {
  }

  lemma Pow64()
    ensures Pow2(64) == 0x1_0000_0000_0000_0000
  {
    assert Pow2(4) == 16;
    Pow2Add(4, 4);
    Pow2Add(8, 8);
    Pow2Add(16, 16);
    Pow2Add(32, 32);
  }

  /** The mask counts correctly for all indices exactly when the size is a power of two. */
  lemma SizeIsPowerOfTwo(size: nat) returns (k: nat)
    requires 0 < size <= 0x8000_0000
    requires forall head: nat :: head < size ==> Avail(head, 0, size) == Distance(head, 0, size)
    ensures size == Pow2(k)
  {
    var m: nat := size - 1;
    forall h: nat | h <= m ensures And(h, m) == h {
      assert Avail(h, 0, size) == Distance(h, 0, size);
    }
    k := MaskNeedsPowerOfTwo(m);
  }

  // ----- the protocol

  datatype Producer<T> = Idle | Checked(item: T) | Written(item: T)
  datatype Consumer<T> = Resting | Ready | Taken(item: T)

  /** The ring and where the two sides are, with the logs of what was published and consumed. */
  datatype State<T> = State(size: nat, head: nat, tail: nat, slots: seq<T>,
                            producer: Producer<T>, consumer: Consumer<T>, sent: seq<T>, received: seq<T>)

  datatype Event<T> = Check(item: T) | Write | Publish | Look | Read | Advance

  /** One step; a side that finds the ring full or empty looks again. */
  function Next<T>(s: State<T>, e: Event<T>): State<T>
    requires s.size > 0 && |s.slots| == s.size && s.head < s.size && s.tail < s.size
  {
    match e
    case Check(item) =>
      if s.producer.Idle? && s.size - 1 - Avail(s.head, s.tail, s.size) != 0 then s.(producer := Checked(item)) else s
    case Write =>
      if s.producer.Checked? then s.(slots := s.slots[s.head := s.producer.item], producer := Written(s.producer.item))
      else s
    case Publish =>
      if s.producer.Written? then
        s.(head := (s.head + 1) % s.size, producer := Idle, sent := s.sent + [s.producer.item])
      else s
    case Look =>
      if s.consumer.Resting? && Avail(s.head, s.tail, s.size) != 0 then s.(consumer := Ready) else s
    case Read =>
      if s.consumer.Ready? then s.(consumer := Taken(s.slots[s.tail])) else s
    case Advance =>
      if s.consumer.Taken? then
        s.(tail := (s.tail + 1) % s.size, consumer := Resting, received := s.received + [s.consumer.item])
      else s
  }

  /** cq_init */
  ghost predicate Initial<T>(s: State<T>, k: nat) {
    && k <= 31 && s.size == Pow2(k) && |s.slots| == s.size && s.head == 0 && s.tail == 0
    && s.producer == Idle && s.consumer == Resting && s.sent == [] && s.received == []
  }

  /** Where the i-th unread item is. */
  function Slot(tail: nat, i: nat, size: nat): int {
    if tail + i < size then tail + i else tail + i - size
  }

  /** What the ring holds, oldest first. */
  function Pending<T>(s: State<T>): seq<T>
    requires |s.received| <= |s.sent|
  {
    s.sent[|s.received|..]
  }

  ghost predicate Inv<T>(s: State<T>, k: nat) {
    && k <= 31 && s.size == Pow2(k) && |s.slots| == s.size && s.head < s.size && s.tail < s.size
    && |s.received| <= |s.sent| && s.received == s.sent[..|s.received|]
    && |Pending(s)| == Distance(s.head, s.tail, s.size) < s.size
    && (forall i: nat :: i < |Pending(s)| ==> s.slots[Slot(s.tail, i, s.size)] == Pending(s)[i])
    && (!s.producer.Idle? ==> |Pending(s)| + 1 < s.size)
    && (s.producer.Written? ==> s.slots[s.head] == s.producer.item)
    && (!s.consumer.Resting? ==> |Pending(s)| > 0)
    && (s.consumer.Taken? ==> s.consumer.item == Pending(s)[0])
  }

  lemma Succ(x: nat, size: nat)
    requires x < size
    ensures (x + 1) % size == if x + 1 == size then 0 else x + 1
  {
    if x + 1 < size { ModUnique(x + 1, size, 0, x + 1); }
  }

  lemma ProducerStep<T>(s: State<T>, k: nat, e: Event<T>)
    requires Inv(s, k) && (e.Check? || e.Write?)
    ensures Inv(Next(s, e), k) && Pending(Next(s, e)) == Pending(s)
  {
    AvailIsDistance(s.head, s.tail, k);
  }

  lemma PublishStep<T>(s: State<T>, k: nat)
    requires Inv(s, k)
    ensures Inv(Next(s, Publish), k)
    ensures s.producer.Written? ==> Pending(Next(s, Publish)) == Pending(s) + [s.producer.item]
  {
    Succ(s.head, s.size);
    if s.producer.Written? {
      var s' := Next(s, Publish);
      assert Pending(s') == Pending(s) + [s.producer.item];
    }
  }

  lemma ConsumerStep<T>(s: State<T>, k: nat, e: Event<T>)
    requires Inv(s, k) && (e.Look? || e.Read?)
    ensures Inv(Next(s, e), k) && Pending(Next(s, e)) == Pending(s)
  {
    AvailIsDistance(s.head, s.tail, k);
    assert |Pending(s)| > 0 ==> Slot(s.tail, 0, s.size) == s.tail;
  }

  lemma AdvanceStep<T>(s: State<T>, k: nat)
    requires Inv(s, k)
    ensures Inv(Next(s, Advance), k)
    ensures s.consumer.Taken? ==>
              s.consumer.item == Pending(s)[0] && Pending(Next(s, Advance)) == Pending(s)[1..]
  {
    Succ(s.tail, s.size);
    if s.consumer.Taken? {
      var s' := Next(s, Advance);
      assert Pending(s') == Pending(s)[1..];
      assert s'.received == s.sent[..|s.received| + 1];
      forall i: nat | i < |Pending(s')| ensures s'.slots[Slot(s'.tail, i, s.size)] == Pending(s')[i] {
        assert Slot(s'.tail, i, s.size) == Slot(s.tail, i + 1, s.size);
      }
    }
  }

  /** The producer gets past its check iff fewer than size - 1 items are pending, and then its item is
      published, whatever the consumer is at. */
  lemma SendsOne<T>(s: State<T>, k: nat, x: T)
    requires Inv(s, k) && s.producer.Idle?
    ensures var s' := Next(Next(Next(s, Check(x)), Write), Publish);
            && s'.received == s.received && s'.producer == Idle
            && s'.sent == if |Pending(s)| < s.size - 1 then s.sent + [x] else s.sent
  {
    AvailIsDistance(s.head, s.tail, k);
  }

  /** The consumer gets past its look iff an item is pending, and then it consumes the oldest one. */
  lemma ReceivesOne<T>(s: State<T>, k: nat)
    requires Inv(s, k) && s.consumer.Resting?
    ensures var s' := Next(Next(Next(s, Look), Read), Advance);
            && s'.sent == s.sent && s'.consumer == Resting
            && s'.received == if Pending(s) != [] then s.received + [Pending(s)[0]] else s.received
  {
    AvailIsDistance(s.head, s.tail, k);
    assert |Pending(s)| > 0 ==> Slot(s.tail, 0, s.size) == s.tail;
  }

  ghost predicate StepAt<T>(run: seq<State<T>>, events: seq<Event<T>>, i: int)
    requires |run| == |events| + 1 && 0 <= i < |events|
  {
    var s := run[i];
    s.size > 0 && |s.slots| == s.size && s.head < s.size && s.tail < s.size && run[i + 1] == Next(s, events[i])
  }

  ghost predicate Run<T>(run: seq<State<T>>, events: seq<Event<T>>, k: nat) {
    && |run| == |events| + 1 && Initial(run[0], k)
    && (forall i :: 0 <= i < |events| ==> StepAt(run, events, i))
  }

  /** Over every interleaving the ring is a FIFO of capacity size - 1: what was consumed is a
      prefix of what was published, no more than size - 1 items are in between, and the slot
      being written holds none of them. */
  lemma {:induction false} RingIsFifo<T>(run: seq<State<T>>, events: seq<Event<T>>, k: nat, i: nat)
    requires Run(run, events, k) && i < |run|
    ensures Inv(run[i], k) && run[i].received <= run[i].sent
    ensures |run[i].sent| - |run[i].received| <= run[i].size - 1
    ensures forall j: nat :: j < |Pending(run[i])| ==> Slot(run[i].tail, j, run[i].size) != run[i].head
  {
    if i > 0 {
      RingIsFifo(run, events, k, i - 1);
      assert StepAt(run, events, i - 1);
      StepKeepsInv(run[i - 1], events[i - 1], k);
    }
  }

  lemma StepKeepsInv<T>(s: State<T>, e: Event<T>, k: nat)
    requires Inv(s, k)
    ensures Inv(Next(s, e), k)
  {
    match e
    case Check(item) => ProducerStep(s, k, e);
    case Write => ProducerStep(s, k, e);
    case Publish => PublishStep(s, k);
    case Look => ConsumerStep(s, k, e);
    case Read => ConsumerStep(s, k, e);
    case Advance => AdvanceStep(s, k);
  }

  // ----- one side at a time

  /** The queue as its callers see it between calls. */
  class CircularQueue<T(0)> {
    const size: nat
    const data: array<T>
    var head: nat
    var tail: nat
    ghost const k: nat

    ghost predicate Valid()
      reads this
    {
      k <= 31 && size == Pow2(k) && data.Length == size && head < size && tail < size
    }

    /** The items between tail and head, oldest first. */
    ghost function Contents(): (s: seq<T>)
      requires Valid()
      reads this, data
      ensures |s| == Distance(head, tail, size)
    {
      var from, n := tail, Distance(head, tail, size);
      seq(n, i requires 0 <= i < n reads data => data[Slot(from, i, size)])
    }

    constructor (size: nat, ghost k: nat, init: T)
      requires k <= 31 && size == Pow2(k)
      ensures Valid() && fresh(data) && this.size == size && Contents() == []
    {
      this.size, this.k := size, k;
      data := new T[size](_ => init);
      head, tail := 0, 0;
    }

    method AvailData() returns (r: nat)
      requires Valid()
      ensures r == |Contents()| < size
    {
      AvailIsDistance(head, tail, k);
      r := Avail(head, tail, size);
    }

    method FreeSpace() returns (r: int)
      requires Valid()
      ensures r == size - 1 - |Contents()|
    {
      var avail := AvailData();
      r := size - 1 - avail;
    }

    method AddData(x: T)
      requires Valid() && |Contents()| < size - 1
      modifies `head, data
      ensures Valid() && Contents() == old(Contents()) + [x]
    {
      data[head] := x;
      Succ(head, size);
      head := (head + 1) % size;
    }

    method RemoveData() returns (x: T)
      requires Valid() && Contents() != []
      modifies `tail
      ensures Valid() && old(Contents()) == [x] + Contents()
    {
      x := data[tail];
      Succ(tail, size);
      tail := (tail + 1) % size;
    }
  }
}
