/** Upstream subscriptions of a broker: reference counts per stream decide when the
broadcaster subscribes to a stream and when it unsubscribes. */
module Upstream {
  type Stream = string

  // Counts, and the streams the broadcaster is subscribed to.
  datatype State = State(store: map<Stream, nat>, subscribed: set<Stream>)

  function Count(u: State, s: Stream): nat {
    if s in u.store then u.store[s] else 0
  }

  // No zero counts are kept, and the broadcaster follows the keys.
  ghost predicate InStep(u: State) {
    (forall s :: s in u.store ==> u.store[s] >= 1) && u.subscribed == u.store.Keys
  }

  function Subscribe(u: State, s: Stream): State {
    State(u.store[s := Count(u, s) + 1], if s in u.store then u.subscribed else u.subscribed + {s})
  }

  function Unsubscribe(u: State, s: Stream): State {
    if s !in u.store then u
    else if u.store[s] == 1 then State(u.store - {s}, u.subscribed - {s})
    else u.(store := u.store[s := if u.store[s] == 0 then 0 else u.store[s] - 1])
  }

  // Many subscriptions, or many cancellations, at once and in no particular order.
  ghost function Raise(u: State, m: multiset<Stream>): State {
    var keys := u.store.Keys + set s | s in m;
    var store := map s | s in keys :: Count(u, s) + m[s];
    State(store, store.Keys)
  }

  ghost function Lower(u: State, m: multiset<Stream>): State {
    var store := map s | s in u.store && u.store[s] > m[s] :: u.store[s] - m[s];
    State(store, store.Keys)
  }

  lemma RaiseCounts(u: State, m: multiset<Stream>)
    requires InStep(u)
    ensures InStep(Raise(u, m)) && forall s :: Count(Raise(u, m), s) == Count(u, s) + m[s]
  {
  }

  // Cancelling more often than subscribing has no effect beyond zero.
  lemma LowerCounts(u: State, m: multiset<Stream>)
    requires InStep(u)
    ensures InStep(Lower(u, m))
    ensures forall s :: Count(Lower(u, m), s) == if Count(u, s) > m[s] then Count(u, s) - m[s] else 0
  {
  }

  lemma SubscribedIffCounted(u: State, s: Stream)
    requires InStep(u)
    ensures s in u.subscribed <==> Count(u, s) > 0
  {
  }

  // The counts say everything.
  lemma SameCounts(u: State, v: State)
    requires InStep(u) && InStep(v) && forall s :: Count(u, s) == Count(v, s)
    ensures u == v
  {
    forall s | s in u.store || s in v.store ensures s in u.store && s in v.store && u.store[s] == v.store[s] {
      assert Count(u, s) == Count(v, s);
    }
    assert u.store == v.store;
  }

  lemma SubscribeCounts(u: State, s: Stream)
    requires InStep(u)
    ensures InStep(Subscribe(u, s))
    ensures forall x :: Count(Subscribe(u, s), x) == Count(u, x) + if x == s then 1 else 0
  {
  }

  lemma UnsubscribeCounts(u: State, s: Stream)
    requires InStep(u)
    ensures InStep(Unsubscribe(u, s))
    ensures forall x :: Count(Unsubscribe(u, s), x) ==
                        if x == s && Count(u, x) > 0 then Count(u, x) - 1 else Count(u, x)
  {
  }

  lemma RaiseMore(u: State, m: multiset<Stream>, s: Stream)
    requires InStep(u)
    ensures Subscribe(Raise(u, m), s) == Raise(u, m + multiset{s})
  {
    hide Subscribe, Raise, InStep, Count;
    RaiseCounts(u, m);
    RaiseCounts(u, m + multiset{s});
    SubscribeCounts(Raise(u, m), s);
    SameCounts(Subscribe(Raise(u, m), s), Raise(u, m + multiset{s}));
  }

  lemma LowerMore(u: State, m: multiset<Stream>, s: Stream)
    requires InStep(u)
    ensures Unsubscribe(Lower(u, m), s) == Lower(u, m + multiset{s})
  {
    hide Unsubscribe, Lower, InStep, Count;
    LowerCounts(u, m);
    LowerCounts(u, m + multiset{s});
    UnsubscribeCounts(Lower(u, m), s);
    SameCounts(Unsubscribe(Lower(u, m), s), Lower(u, m + multiset{s}));
  }

  lemma NoChange(u: State)
    requires InStep(u)
    ensures Raise(u, multiset{}) == u && Lower(u, multiset{}) == u
  {
    RaiseCounts(u, multiset{});
    LowerCounts(u, multiset{});
    SameCounts(Raise(u, multiset{}), u);
    SameCounts(Lower(u, multiset{}), u);
  }

  class StreamsTracker {
    var store: map<Stream, nat>

    constructor ()
      ensures store == map[]
    {
      store := map[];
    }

    method Add(name: Stream) returns (isNew: bool)
      modifies this
      ensures isNew == (name !in old(store))
      ensures store == Subscribe(State(old(store), {}), name).store
    {
      if name !in store {
        store := store[name := 1];
        return true;
      }
      store := store[name := store[name] + 1];
      isNew := false;
    }

    method Remove(name: Stream) returns (isLast: bool)
      requires name in store ==> store[name] >= 1
      modifies this
      ensures isLast == (name in old(store) && old(store)[name] == 1)
      ensures store == Unsubscribe(State(old(store), {}), name).store
    {
      if name !in store {
        return false;
      }
      if store[name] == 1 {
        store := store - {name};
        return true;
      }
      store := store[name := store[name] - 1];
      isLast := false;
    }
  }

  // The broker's subscription side, with the broadcaster's subscriptions as a set.
  class Gateway {
    const tracker: StreamsTracker
    var subscribed: set<Stream>

    ghost function View(): State
      reads this, tracker
    {
      State(tracker.store, subscribed)
    }

    constructor ()
      ensures fresh(tracker) && View() == State(map[], {}) && InStep(View())
    {
      tracker := new StreamsTracker();
      subscribed := {};
    }

    method SubscribeStream(s: Stream)
      requires InStep(View())
      modifies this, tracker
      ensures View() == Subscribe(old(View()), s) && InStep(View())
    {
      SubscribeCounts(View(), s);
      var isNew := tracker.Add(s);
      if isNew {
        subscribed := subscribed + {s};
      }
    }

    method UnsubscribeStream(s: Stream)
      requires InStep(View())
      modifies this, tracker
      ensures View() == Unsubscribe(old(View()), s) && InStep(View())
    {
      UnsubscribeCounts(View(), s);
      var isLast := tracker.Remove(s);
      if isLast {
        subscribed := subscribed - {s};
      }
    }
  }
}
