/** The growing and shrinking circular buffer behind every session's write queue.

The specification is a FIFO sequence of items plus a closed flag. The class keeps
the items in an array whose capacity doubles and halves, and every method is proved
against the specification together with the load-factor invariant that keeps
`Resize` in bounds. */
module RingQueue {
  import opened Basics

  datatype Item<T> = Item(size: nat, data: T)

  datatype PushResult = PushOK | PushClosed | PushOverflow

  // ---------- Specification ----------

  datatype Fifo<T> = Fifo(items: seq<Item<T>>, closed: bool)

  function SizeSum<T>(items: seq<Item<T>>): nat {
    if items == [] then 0 else SizeSum(items[..|items| - 1]) + items[|items| - 1].size
  }

  lemma {:induction false} SizeSumConcat<T>(a: seq<Item<T>>, b: seq<Item<T>>)
    ensures SizeSum(a + b) == SizeSum(a) + SizeSum(b)
  {
    if b == [] {
      assert a + b == a;
    } else {
      SizeSumConcat(a, b[..|b| - 1]);
      assert (a + b)[..|a + b| - 1] == a + b[..|b| - 1];
    }
  }

  // The value of the 64-bit `size` counter for these items.
  function Counter<T>(items: seq<Item<T>>): nat {
    SizeSum(items) % U64
  }

  function PushSpec<T>(f: Fifo<T>, i: Item<T>, maxSize: nat): (Fifo<T>, PushResult) {
    if f.closed then (f, PushClosed)
    else if maxSize > 0 && Counter(f.items) >= maxSize then (Fifo([], false), PushOverflow)
    else (Fifo(f.items + [i], false), PushOK)
  }

  datatype QueueOp<T> = Push(item: Item<T>, maxSize: nat) | Remove | Clear | Close

  // A run also records what was accepted and what left the queue: `true` for an item
  // handed to the consumer, `false` for one thrown away by a clear, overflow or close.
  datatype Trace<T> = Trace(queue: Fifo<T>, accepted: seq<Item<T>>, left: seq<(Item<T>, bool)>)

  function Mark<T>(items: seq<Item<T>>, delivered: bool): (r: seq<(Item<T>, bool)>)
    ensures |r| == |items|
    ensures forall i :: 0 <= i < |r| ==> r[i] == (items[i], delivered)
  {
    seq(|items|, i requires 0 <= i < |items| => (items[i], delivered))
  }

  function Unmark<T>(left: seq<(Item<T>, bool)>): (r: seq<Item<T>>)
    ensures |r| == |left|
    ensures forall i :: 0 <= i < |r| ==> r[i] == left[i].0
  {
    seq(|left|, i requires 0 <= i < |left| => left[i].0)
  }

  function Apply<T>(r: Trace<T>, op: QueueOp<T>): Trace<T> {
    match op
    case Push(i, m) =>
      var (q, res) := PushSpec(r.queue, i, m);
      if res.PushOK? then Trace(q, r.accepted + [i], r.left)
      else if res.PushOverflow? then Trace(q, r.accepted, r.left + Mark(r.queue.items, false))
      else r
    case Remove =>
      if r.queue.items == [] then r
      else Trace(r.queue.(items := r.queue.items[1..]), r.accepted, r.left + [(r.queue.items[0], true)])
    case Clear => Trace(Fifo([], false), r.accepted, r.left + Mark(r.queue.items, false))
    case Close => Trace(Fifo([], true), r.accepted, r.left + Mark(r.queue.items, false))
  }

  function Replay<T>(r: Trace<T>, ops: seq<QueueOp<T>>): Trace<T> {
    if ops == [] then r else Apply(Replay(r, ops[..|ops| - 1]), ops[|ops| - 1])
  }

  ghost predicate Accounted<T>(r: Trace<T>) {
    r.accepted == Unmark(r.left) + r.queue.items && (r.queue.closed ==> r.queue.items == [])
  }

  lemma UnmarkConcat<T>(a: seq<(Item<T>, bool)>, b: seq<(Item<T>, bool)>)
    ensures Unmark(a + b) == Unmark(a) + Unmark(b)
  {
  }

  lemma ApplyAccounts<T>(r: Trace<T>, op: QueueOp<T>)
    requires Accounted(r)
    ensures Accounted(Apply(r, op))
  {
    hide Unmark, Mark, PushSpec;
    var items := r.queue.items;
    UnmarkMark(items);
    UnmarkConcat(r.left, Mark(items, false));
    if items != [] {
      UnmarkConcat(r.left, [(items[0], true)]);
      UnmarkOne(items[0]);
      assert Unmark(r.left) + [items[0]] + items[1..] == Unmark(r.left) + ([items[0]] + items[1..]);
    }
    if op.Push? {
      PushCases(r.queue, op);
      assert Unmark(r.left) + items + [op.item] == Unmark(r.left) + (items + [op.item]);
    }
    assert Unmark(r.left) + items == Unmark(r.left) + items + [];
  }

  lemma PushCases<T>(f: Fifo<T>, op: QueueOp<T>)
    requires op.Push?
    ensures var (q, r) := PushSpec(f, op.item, op.maxSize);
            || (q == f && r.PushClosed?)
            || (q == Fifo([], false) && r.PushOverflow?)
            || (q == Fifo(f.items + [op.item], false) && r.PushOK?)
  {
  }

  lemma UnmarkMark<T>(items: seq<Item<T>>)
    ensures Unmark(Mark(items, false)) == items
  {
  }

  lemma UnmarkOne<T>(i: Item<T>)
    ensures Unmark([(i, true)]) == [i]
  {
  }

  // Nothing is lost, repeated or reordered on any run: the accepted items are, in order,
  // those that left followed by those still queued.
  lemma {:induction false} Conservation<T>(ops: seq<QueueOp<T>>)
    ensures var r := Replay(Trace(Fifo([], false), [], []), ops);
            r.accepted == Unmark(r.left) + r.queue.items && (r.queue.closed ==> r.queue.items == [])
  {
    if ops != [] {
      Conservation(ops[..|ops| - 1]);
      ApplyAccounts(Replay(Trace(Fifo([], false), [], []), ops[..|ops| - 1]), ops[|ops| - 1]);
    }
  }

  // ---------- The capacity ladder ----------

  // `c` is reached from `base` by doublings.
  predicate Doubling(base: nat, c: nat) {
    c == base || (c > base && c % 2 == 0 && Doubling(base, c / 2))
  }

  lemma HalfStep(base: nat, c: nat)
    requires base >= 1 && Doubling(base, c)
    ensures c / 2 < base ==> c == base
    ensures c / 2 >= base ==> c == 2 * (c / 2) && Doubling(base, c / 2)
  {
  }

  lemma {:induction false} DoublingIsPow2(base: nat, c: nat)
    requires base >= 1
    ensures Doubling(base, c) <==> exists k :: c == base * Pow2(k)
  {
    if Doubling(base, c) {
      var k := DoublingExponent(base, c);
    }
    forall k | c == base * Pow2(k) ensures Doubling(base, c) {
      Pow2Doubles(base, k);
    }
  }

  lemma {:induction false} DoublingExponent(base: nat, c: nat) returns (k: nat)
    requires base >= 1 && Doubling(base, c)
    ensures c == base * Pow2(k)
  {
    if c == base {
      k := 0;
    } else {
      k := DoublingExponent(base, c / 2);
      k := k + 1;
      assert base * Pow2(k) == 2 * (base * Pow2(k - 1));
    }
  }

  lemma {:induction false} Pow2Doubles(base: nat, k: nat)
    requires base >= 1
    ensures Doubling(base, base * Pow2(k))
    ensures base * Pow2(k) >= base
  {
    if k > 0 {
      Pow2Doubles(base, k - 1);
      assert base * Pow2(k) == 2 * (base * Pow2(k - 1));
    }
  }

  // ---------- Implementation ----------

  // The arc of `cnt` slots starting at `head` on a ring of slots.
  function Slots<T>(ring: seq<T>, head: nat, cnt: nat): (r: seq<T>)
    requires head < |ring| && cnt <= |ring|
    ensures |r| == cnt
  {
    if head + cnt <= |ring| then ring[head..head + cnt]
    else ring[head..] + ring[..head + cnt - |ring|]
  }

  function Wrap(x: nat, n: nat): (r: nat)
    requires 1 <= n && x < 2 * n
    ensures r < n
  {
    if x < n then x else x - n
  }

  lemma ModIsWrap(x: nat, n: nat)
    requires 1 <= n && x < 2 * n
    ensures x % n == Wrap(x, n)
  {
    if x >= n {
      assert x % n == (x - n) % n;
    }
  }

  lemma SlotsPush<T>(ring: seq<T>, head: nat, cnt: nat, x: T)
    requires head < |ring| && cnt < |ring|
    ensures Slots(ring[Wrap(head + cnt, |ring|) := x], head, cnt + 1) == Slots(ring, head, cnt) + [x]
  {
  }

  lemma SlotsPop<T>(ring: seq<T>, head: nat, cnt: nat, blank: T)
    requires head < |ring| && 1 <= cnt <= |ring|
    ensures Slots(ring, head, cnt)[0] == ring[head]
    ensures Slots(ring[head := blank], Wrap(head + 1, |ring|), cnt - 1) == Slots(ring, head, cnt)[1..]
  {
    var a := Slots(ring[head := blank], Wrap(head + 1, |ring|), cnt - 1);
    var b := Slots(ring, head, cnt)[1..];
    forall k | 0 <= k < cnt - 1 ensures a[k] == b[k] {
    }
  }

  // `part` written over `dst` from `at` on, as far as there is room.
  function Overlay<T>(dst: seq<T>, at: nat, part: seq<T>): (r: seq<T>)
    requires at <= |dst|
    ensures |r| == |dst|
  {
    var m := if |part| <= |dst| - at then |part| else |dst| - at;
    dst[..at] + part[..m] + dst[at + m..]
  }

  lemma CopiedOnce<T>(ring: seq<T>, head: nat, cnt: nat, was: seq<T>)
    requires head + cnt < |ring| && 1 <= cnt <= |was|
    ensures Slots(Overlay(was, 0, ring[head..head + cnt]), 0, cnt) == Slots(ring, head, cnt)
  {
    var part := ring[head..head + cnt];
    assert Overlay(was, 0, part)[..cnt] == part;
  }

  lemma CopiedTwice<T>(ring: seq<T>, head: nat, cnt: nat, was: seq<T>)
    requires head < |ring| <= head + cnt && 1 <= cnt <= |ring| && cnt <= |was|
    ensures var m := |ring| - head;
            Slots(Overlay(Overlay(was, 0, ring[head..]), m, ring[..cnt - m]), 0, cnt) == Slots(ring, head, cnt)
  {
    var m := |ring| - head;
    var half := Overlay(was, 0, ring[head..]);
    var now := Overlay(half, m, ring[..cnt - m]);
    assert half[..m] == ring[head..];
    assert now[..cnt] == ring[head..] + ring[..cnt - m];
  }

  // The 64-bit counter follows the items although each update may wrap.
  lemma CounterPush<T>(items: seq<Item<T>>, i: Item<T>)
    ensures (Counter(items) + i.size) % U64 == Counter(items + [i])
  {
    SizeSumConcat(items, [i]);
    assert [i][..0] == [];
  }

  lemma CounterPop<T>(items: seq<Item<T>>)
    requires items != []
    ensures (Counter(items) - items[0].size) % U64 == Counter(items[1..])
  {
    SizeSumConcat([items[0]], items[1..]);
    assert [items[0]] + items[1..] == items;
    assert [items[0]][..0] == [];
  }

  // Go's built-in copy(dst[at:], src[lo:hi]): slicing panics unless `at` is in bounds,
  // and the shorter of the two slices decides how much is copied.
  method Copy<T>(dst: array<T>, at: nat, src: array<T>, lo: nat, hi: nat)
    requires at <= dst.Length && lo <= hi <= src.Length && dst != src
    modifies dst
    ensures dst[..] == Overlay(old(dst[..]), at, src[..][lo..hi])
  {
    var m := if hi - lo <= dst.Length - at then hi - lo else dst.Length - at;
    forall i | 0 <= i < m {
      dst[at + i] := src[lo + i];
    }
  }

  class Queue<T> {
    const initCap: nat
    const blank: Item<T>
    var nodes: array<Item<T>>
    var head: nat
    var tail: nat
    var cnt: nat
    var size: nat
    var closed: bool

    // Head, tail and count describe an arc of the ring.
    ghost predicate Arc()
      reads this
    {
      && head < nodes.Length && cnt <= nodes.Length
      && tail == Wrap(head + cnt, nodes.Length)
    }

    ghost function Contents(): seq<Item<T>>
      reads this, nodes
      requires Arc()
    {
      Slots(nodes[..], head, cnt)
    }

    // Above its initial capacity the ring is always more than half full.
    ghost predicate Loaded()
      reads this
    {
      Doubling(initCap, nodes.Length) && (nodes.Length == initCap || 2 * cnt > nodes.Length)
    }

    ghost predicate Valid()
      reads this, nodes
    {
      && initCap >= 1
      && (closed ==> cnt == 0 && size == 0)
      && (!closed ==> Arc() && Loaded() && size == Counter(Contents()))
    }

    ghost function View(): Fifo<T>
      reads this, nodes
      requires Valid()
    {
      if closed then Fifo([], true) else Fifo(Contents(), false)
    }

    constructor (initialCapacity: nat, zero: Item<T>)
      requires initialCapacity >= 1
      ensures Valid() && fresh(nodes) && initCap == initialCapacity
      ensures View() == Fifo([], false)
    {
      initCap, blank := initialCapacity, zero;
      nodes := new Item<T>[initialCapacity](_ => zero);
      head, tail, cnt, size, closed := 0, 0, 0, 0, false;
    }

    // Both copies are in bounds and lossless as soon as the items fit the new capacity.
    method Moved(n: nat) returns (moved: array<Item<T>>)
      requires Arc() && 1 <= cnt <= n
      ensures fresh(moved) && moved.Length == n && Slots(moved[..], 0, cnt) == Contents()
    {
      hide Overlay, Slots;
      moved := new Item<T>[n](_ => blank);
      ghost var ring, was := nodes[..], moved[..];
      if head < tail {
        Copy(moved, 0, nodes, head, tail);
        CopiedOnce(ring, head, cnt, was);
      } else {
        Copy(moved, 0, nodes, head, nodes.Length);
        Copy(moved, nodes.Length - head, nodes, 0, tail);
        assert ring[head..|ring|] == ring[head..] && ring[0..tail] == ring[..tail];
        CopiedTwice(ring, head, cnt, was);
      }
    }

    method Resize(n: nat)
      requires Arc() && 1 <= cnt <= n
      modifies this`nodes, this`head, this`tail
      ensures fresh(nodes) && nodes.Length == n && head == 0
      ensures Arc() && Contents() == old(Contents())
    {
      var moved := Moved(n);
      ModIsWrap(cnt, n);
      tail := cnt % n;
      head := 0;
      nodes := moved;
    }

    method MakeRoom()
      requires Valid() && !closed
      modifies this`nodes, this`head, this`tail
      ensures Arc() && cnt < nodes.Length && Contents() == old(Contents())
      ensures Doubling(initCap, nodes.Length) && (nodes.Length == initCap || 2 * (cnt + 1) > nodes.Length)
      ensures nodes == old(nodes) || fresh(nodes)
    {
      if cnt == nodes.Length {
        Resize(cnt * 2);
      }
    }

    method Place(i: Item<T>)
      requires Arc() && cnt < nodes.Length && size == Counter(Contents())
      modifies this`tail, this`cnt, this`size, nodes
      ensures Arc() && cnt == old(cnt) + 1
      ensures Contents() == old(Contents()) + [i] && size == Counter(Contents())
    {
      ghost var ring := nodes[..];
      SlotsPush(ring, head, cnt, i);
      CounterPush(Contents(), i);
      ModIsWrap(tail + 1, nodes.Length);
      nodes[tail] := i;
      assert nodes[..] == ring[tail := i];
      tail := (tail + 1) % nodes.Length;
      size := (size + i.size) % U64;
      cnt := cnt + 1;
    }

    // The common tail of Add and Push once the item is admitted.
    method Enqueue(i: Item<T>)
      requires Valid() && !closed
      modifies this, nodes
      ensures Valid() && (nodes == old(nodes) || fresh(nodes))
      ensures View() == Fifo(old(View()).items + [i], false)
    {
      MakeRoom();
      Place(i);
    }

    method Add(i: Item<T>) returns (ok: bool)
      requires Valid()
      modifies this, nodes
      ensures Valid() && (nodes == old(nodes) || fresh(nodes))
      ensures ok == !old(View()).closed
      ensures View() == PushSpec(old(View()), i, 0).0
    {
      if closed {
        return false;
      }
      Enqueue(i);
      ok := true;
    }

    method Push(i: Item<T>, maxSize: nat) returns (r: PushResult)
      requires Valid()
      modifies this, nodes
      ensures Valid() && (nodes == old(nodes) || fresh(nodes))
      ensures (View(), r) == PushSpec(old(View()), i, maxSize)
    {
      if closed {
        return PushClosed;
      }
      if maxSize > 0 && size >= maxSize {
        Clear();
        return PushOverflow;
      }
      Enqueue(i);
      r := PushOK;
    }

    // Clearing reopens a closed queue, as the source does.
    method Clear()
      requires Valid()
      modifies this
      ensures Valid() && fresh(nodes)
      ensures View() == Fifo([], false)
    {
      closed := false;
      cnt := 0;
      nodes := new Item<T>[initCap](_ => blank);
      size := 0;
      head := 0;
      tail := 0;
    }

    method Close()
      requires Valid()
      modifies this
      ensures Valid() && fresh(nodes)
      ensures View() == Fifo([], true)
    {
      closed := true;
      cnt := 0;
      nodes := new Item<T>[0];
      size := 0;
    }

    // Takes the head item; the shrink that follows is in Remove.
    method Dequeue() returns (i: Item<T>)
      requires Valid() && !closed && cnt > 0
      modifies this`head, this`cnt, this`size, nodes
      ensures Arc() && cnt == old(cnt) - 1
      ensures i == old(Contents())[0] && Contents() == old(Contents())[1..]
      ensures size == Counter(Contents())
    {
      ghost var ring := nodes[..];
      SlotsPop(ring, head, cnt, blank);
      CounterPop(Contents());
      ModIsWrap(head + 1, nodes.Length);
      i := nodes[head];
      nodes[head] := blank;
      assert nodes[..] == ring[head := blank];
      head := (head + 1) % nodes.Length;
      cnt := cnt - 1;
      size := (size - i.size) % U64;
    }

    // Halving happens exactly when the remaining items fit the halved ring, which they then fill.
    method Remove() returns (i: Item<T>, ok: bool)
      requires Valid()
      modifies this, nodes
      ensures Valid() && (nodes == old(nodes) || fresh(nodes))
      ensures ok == (old(View()).items != [])
      ensures !ok ==> View() == old(View())
      ensures ok ==> i == old(View()).items[0] && View() == old(View()).(items := old(View()).items[1..])
      ensures ok && nodes == old(nodes) ==> !(old(nodes).Length / 2 >= initCap && old(cnt) - 1 <= old(nodes).Length / 2)
      ensures ok && nodes != old(nodes) ==> initCap <= cnt == nodes.Length == old(nodes).Length / 2
    {
      if cnt == 0 {
        return blank, false;
      }
      HalfStep(initCap, nodes.Length);
      i := Dequeue();
      var n := nodes.Length / 2;
      if n >= initCap && cnt <= n {
        Resize(n);
      }
      ok := true;
    }
  }
}
