/** The indexed priority queue of the session cache: a binary heap of shared items, each of
which knows its own position. */
module SessionHeap {

  // ---------- Heap order on the sequence of priorities ----------

  function Parent(k: nat): nat
    requires k > 0
  {
    (k - 1) / 2
  }

  predicate Above(p: seq<int>, k: nat)
    requires k < |p|
  {
    k == 0 || p[Parent(k)] <= p[k]
  }

  ghost predicate Heap(p: seq<int>) {
    forall k :: 0 <= k < |p| ==> Above(p, k)
  }

  // Order holds away from position `i`, and across it.
  ghost predicate HeapBut(p: seq<int>, i: nat) {
    && (forall k :: 0 < k < |p| && k != i && Parent(k) != i ==> Above(p, k))
    && (forall k :: 0 < k < |p| && Parent(k) == i && 0 < i < |p| ==> p[Parent(i)] <= p[k])
  }

  function Swapped<T>(s: seq<T>, i: nat, j: nat): (r: seq<T>)
    requires i < |s| && j < |s|
    ensures |r| == |s|
    ensures forall k :: 0 <= k < |s| ==> r[k] == if k == i then s[j] else if k == j then s[i] else s[k]
  {
    s[i := s[j]][j := s[i]]
  }

  // The items below `i` respect it.
  predicate Below(p: seq<int>, i: nat) {
    forall k :: 0 < k < |p| && Parent(k) == i ==> i < |p| && p[i] <= p[k]
  }

  lemma RootIsLeast(p: seq<int>, k: nat)
    requires Heap(p) && k < |p|
    ensures p[0] <= p[k]
  {
    if k > 0 {
      assert Above(p, k);
      RootIsLeast(p, Parent(k));
    }
  }

  lemma ChangeOne(p: seq<int>, i: nat, x: int)
    requires Heap(p) && i < |p|
    ensures HeapBut(p[i := x], i)
  {
    var q := p[i := x];
    forall k | 0 < k < |q| && k != i && Parent(k) != i ensures Above(q, k) {
      assert Above(p, k);
    }
    forall k | 0 < k < |q| && Parent(k) == i && i > 0 ensures q[Parent(i)] <= q[k] {
      assert Above(p, k) && Above(p, i);
    }
  }

  lemma UpStep(p: seq<int>, j: nat)
    requires 0 < j < |p| && HeapBut(p, j) && Below(p, j) && p[j] < p[Parent(j)]
    ensures HeapBut(Swapped(p, Parent(j), j), Parent(j)) && Below(Swapped(p, Parent(j), j), Parent(j))
  {
    var i := Parent(j);
    var q := Swapped(p, i, j);
    forall k | 0 < k < |q| && k != i && Parent(k) != i ensures Above(q, k) {
      assert Above(q, k) by {
        if Parent(k) != j { assert Above(p, k); }
      }
    }
    forall k | 0 < k < |q| && Parent(k) == i ensures q[i] <= q[k] {
      if k != j { assert Above(p, k); }
    }
    forall k | 0 < k < |q| && Parent(k) == i && i > 0 ensures q[Parent(i)] <= q[k] {
      assert Above(p, i);
      if k != j { assert Above(p, k); }
    }
  }

  lemma UpDone(p: seq<int>, j: nat)
    requires j < |p| && HeapBut(p, j) && Below(p, j) && Above(p, j)
    ensures Heap(p)
  {
  }

  lemma DownStep(p: seq<int>, i: nat, j: nat)
    requires 0 < j < |p| && Parent(j) == i && HeapBut(p, i) && p[j] < p[i]
    requires forall k :: 0 < k < |p| && Parent(k) == i ==> p[j] <= p[k]
    ensures HeapBut(Swapped(p, i, j), j) && Above(Swapped(p, i, j), j)
  {
    var q := Swapped(p, i, j);
    forall k | 0 < k < |q| && k != j && Parent(k) != j ensures Above(q, k) {
      if k != i && Parent(k) != i { assert Above(p, k); }
    }
    forall k | 0 < k < |q| && Parent(k) == j ensures q[Parent(j)] <= q[k] {
      assert Above(p, k);
    }
  }

  // ---------- Items and the queue ----------

  class Item {
    const value: string
    var priority: int
    var index: int

    constructor (value: string, priority: int)
      ensures this.value == value && this.priority == priority
    {
      this.value, this.priority, this.index := value, priority, 0;
    }
  }

  class PriorityQueue {
    var items: seq<Item>

    // Every item sits where its index says; so no item is there twice.
    ghost predicate Indexed()
      reads this, items
    {
      forall i :: 0 <= i < |items| ==> items[i].index == i
    }

    ghost function Prios(): (p: seq<int>)
      reads this, items
      ensures |p| == |items|
      ensures forall i :: 0 <= i < |p| ==> p[i] == items[i].priority
    {
      seq(|items|, i requires 0 <= i < |items| reads this, items => items[i].priority)
    }

    ghost predicate Valid()
      reads this, items
    {
      Indexed() && Heap(Prios())
    }

    ghost function Elems(): set<Item>
      reads this
    {
      set x | x in items
    }

    constructor ()
      ensures items == [] && Valid()
    {
      items := [];
    }

    predicate Less(i: nat, j: nat)
      requires i < |items| && j < |items|
      reads this, items
    {
      items[i].priority < items[j].priority
    }

    method Swap(i: nat, j: nat)
      requires Indexed() && i < |items| && j < |items|
      modifies this`items, Elems()`index
      ensures Indexed() && items == Swapped(old(items), i, j)
      ensures Elems() == old(Elems()) && Prios() == Swapped(old(Prios()), i, j)
    {
      items := items[i := items[j]][j := items[i]];
      items[i].index := i;
      items[j].index := j;
      forall x | x in old(items) ensures x in items {
        var k :| 0 <= k < |items| && old(items)[k] == x;
        assert items[if k == i then j else if k == j then i else k] == x;
      }
    }

    // container/heap's up.
    method Up(j0: nat)
      requires Indexed() && j0 < |items| && HeapBut(Prios(), j0) && Below(Prios(), j0)
      modifies this`items, Elems()`index
      ensures Valid() && Elems() == old(Elems()) && |items| == |old(items)|
    {
      hide HeapBut, Below, Heap;
      var j: nat := j0;
      while j > 0 && Less(j, (j - 1) / 2)
        invariant Indexed() && j < |items| == |old(items)|
        invariant HeapBut(Prios(), j) && Below(Prios(), j) && Elems() == old(Elems())
        decreases j
      {
        UpStep(Prios(), j);
        Swap((j - 1) / 2, j);
        j := (j - 1) / 2;
      }
      UpDone(Prios(), j);
    }

    // The child of `i` that comes first, among the first `n` items.
    method FirstChild(i: nat, n: nat) returns (j: nat)
      requires 2 * i + 1 < n <= |items|
      ensures i < j < n && Parent(j) == i
      ensures forall k :: 0 < k < n && Parent(k) == i ==> Prios()[..n][j] <= Prios()[..n][k]
      ensures Prios()[..n][i] <= Prios()[..n][j] ==> Below(Prios()[..n], i)
    {
      hide Below;
      j := 2 * i + 1;
      if j + 1 < n && Less(j + 1, j) {
        j := j + 1;
      }
      LeastChild(Prios()[..n], i, j);
    }

    method Sink(i: nat, j: nat, n: nat)
      requires Indexed() && i < j < n <= |items| && Parent(j) == i
      requires HeapBut(Prios()[..n], i) && Prios()[..n][j] < Prios()[..n][i]
      requires forall k :: 0 < k < n && Parent(k) == i ==> Prios()[..n][j] <= Prios()[..n][k]
      modifies this`items, Elems()`index
      ensures Indexed() && Elems() == old(Elems()) && |items| == |old(items)| && items[n..] == old(items)[n..]
      ensures HeapBut(Prios()[..n], j) && Above(Prios()[..n], j)
    {
      hide HeapBut, Above, Elems;
      DownStep(Prios()[..n], i, j);
      SwappedPrefix(Prios(), i, j, n);
      Swap(i, j);
    }

    // container/heap's down, on the first `n` items.
    method Down(i0: nat, n: nat) returns (moved: bool)
      requires Indexed() && i0 <= n <= |items| && HeapBut(Prios()[..n], i0)
      modifies this`items, Elems()`index
      ensures Indexed() && Elems() == old(Elems()) && |items| == |old(items)|
      ensures items[n..] == old(items)[n..]
      ensures moved ==> Heap(Prios()[..n])
      ensures !moved ==> items == old(items) && Below(Prios()[..n], i0)
    {
      hide HeapBut, Heap, Above, Below, Elems, Parent;
      var i: nat := i0;
      while true
        invariant Indexed() && i0 <= i <= n && |items| == |old(items)|
        invariant HeapBut(Prios()[..n], i) && Elems() == old(Elems())
        invariant i > i0 ==> i < n && Above(Prios()[..n], i)
        invariant i == i0 ==> items == old(items)
        invariant items[n..] == old(items)[n..]
        decreases n - i
      {
        if 2 * i + 1 >= n {
          Leaf(Prios()[..n], i);
          break;
        }
        var j := FirstChild(i, n);
        if !Less(j, i) {
          break;
        }
        Sink(i, j, n);
        i := j;
      }
      moved := i > i0;
      if moved {
        UpDone(Prios()[..n], i);
      }
    }

    method Fix(i: nat)
      requires Indexed() && i < |items| && HeapBut(Prios(), i)
      modifies this`items, Elems()`index
      ensures Valid() && Elems() == old(Elems()) && |items| == |old(items)|
    {
      hide HeapBut, Heap, Below;
      WholePrefix(Prios());
      var moved := Down(i, |items|);
      WholePrefix(Prios());
      if !moved {
        Up(i);
      }
    }

    method PushItem(v: string, priority: int) returns (item: Item)
      requires Valid()
      modifies this, Elems()`index
      ensures Valid() && fresh(item) && item.value == v && item.priority == priority
      ensures Elems() == old(Elems()) + {item}
    {
      hide Heap, HeapBut, Below;
      item := new Item(v, priority);
      ghost var p := Prios();
      item.index := |items|;
      items := items + [item];
      Appended(p, Prios());
      Up(|items| - 1);
    }

    // Moves the least item behind all others, which keep heap order.
    method RootToEnd()
      requires Valid() && |items| > 0
      modifies this`items, Elems()`index
      ensures Indexed() && Elems() == old(Elems()) && |items| == |old(items)|
      ensures items[|items| - 1] == old(items)[0] && Heap(Prios()[..|items| - 1])
    {
      hide HeapBut, Heap, Below, Elems;
      var n := |items| - 1;
      LastToRoot(Prios(), n);
      Swap(0, n);
      var moved := Down(0, n);
      if !moved {
        RootSettles(Prios()[..n]);
      }
      assert items[n] == items[n..][0];
    }

    // Takes out the least item.
    method PopItem() returns (item: Item)
      requires Valid() && |items| > 0
      modifies this`items, Elems()`index
      ensures Valid() && item in old(items) && Elems() == old(Elems()) - {item}
      ensures item == old(items)[0] && |items| == |old(items)| - 1
    {
      hide Heap;
      RootToEnd();
      var n := |items| - 1;
      item := items[n];
      ghost var p := Prios()[..n];
      item.index := -1;
      items := items[..n];
      assert Prios() == p;
    }

    lemma LeastFirst(x: Item)
      requires Valid() && x in items
      ensures items[0].priority <= x.priority
    {
      var k :| 0 <= k < |items| && items[k] == x;
      RootIsLeast(Prios(), k);
    }

    // What comes first, if there is anything.
    method Peek() returns (item: Item?)
      ensures item == null <==> items == []
      ensures item != null ==> item == items[0]
      ensures item != null && Valid() ==> forall x :: x in items ==> item.priority <= x.priority
    {
      if |items| == 0 {
        return null;
      }
      item := items[0];
      if Valid() {
        forall x | x in items ensures item.priority <= x.priority {
          LeastFirst(x);
        }
      }
    }

    method Update(item: Item, priority: int)
      requires Valid() && item in items
      modifies this`items, Elems()`index, item`priority
      ensures Valid() && Elems() == old(Elems()) && item.priority == priority
    {
      var i := item.index;
      ghost var p := Prios();
      ChangeOne(p, i, priority);
      item.priority := priority;
      assert Prios() == p[i := priority];
      Fix(i);
    }
  }

  lemma Leaf(p: seq<int>, i: nat)
    requires 2 * i + 1 >= |p|
    ensures Below(p, i)
  {
  }

  // The smaller of the two children decides.
  lemma LeastChild(p: seq<int>, i: nat, j: nat)
    requires 2 * i + 1 <= j <= 2 * i + 2 && j < |p|
    requires p[j] <= p[2 * i + 1] && (2 * i + 2 < |p| ==> p[j] <= p[2 * i + 2])
    ensures Parent(j) == i && forall k :: 0 < k < |p| && Parent(k) == i ==> p[j] <= p[k]
    ensures p[i] <= p[j] ==> Below(p, i)
  {
  }

  lemma SwappedPrefix(p: seq<int>, i: nat, j: nat, n: nat)
    requires i < n <= |p| && j < n
    ensures Swapped(p, i, j)[..n] == Swapped(p[..n], i, j)
  {
  }

  lemma WholePrefix(p: seq<int>)
    ensures p[..|p|] == p
  {
  }

  lemma Appended(p: seq<int>, q: seq<int>)
    requires Heap(p) && |q| == |p| + 1 && q[..|p|] == p
    ensures HeapBut(q, |p|) && Below(q, |p|)
  {
    forall k | 0 < k < |q| && k != |p| && Parent(k) != |p| ensures Above(q, k) {
      assert Above(p, k);
    }
  }

  lemma LastToRoot(p: seq<int>, n: nat)
    requires Heap(p) && |p| == n + 1
    ensures HeapBut(Swapped(p, 0, n)[..n], 0)
  {
    var q := Swapped(p, 0, n)[..n];
    forall k | 0 < k < |q| && Parent(k) != 0 ensures Above(q, k) {
      assert Above(p, k);
    }
  }

  // At the root nothing is above.
  lemma RootSettles(p: seq<int>)
    requires HeapBut(p, 0) && Below(p, 0)
    ensures Heap(p)
  {
  }
}
