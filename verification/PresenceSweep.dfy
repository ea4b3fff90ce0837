/** Expiring presence: one sweep is the same as removing every presence of every expired
session one by one, in any order. */
module PresenceSweep {
  import opened Basics
  import opened Presence

  type Pair = (Sid, Stream)

  // ---------- Removing presences one by one ----------

  function RemoveAll(st: State, order: seq<Pair>): (State, seq<Event>) {
    if order == [] then (st, []) else
    var (mid, events) := RemoveAll(st, order[..|order| - 1]);
    var (sid, s) := order[|order| - 1];
    var (last, r) := RemoveSpec(mid, s, sid);
    (last, if r.Done? && r.event.Some? then events + [r.event.value] else events)
  }

  // The order in which a sweep at `now` meets the presences to drop.
  ghost predicate Enumerates(order: seq<Pair>, st: State, now: int) {
    && Distinct(order)
    && (forall sid, s :: (sid, s) in order <==> sid in Expired(st, now) && s in st.sessions[sid].streams)
  }

  // ---------- The result in closed form ----------

  function Rest(list: seq<Sid>, gone: set<Sid>): seq<Sid> {
    if list == [] then [] else
    var rest := Rest(list[1..], gone);
    if list[0] in gone then rest else [list[0]] + rest
  }

  function PruneCell(e: Option<Entry>, gone: set<Sid>): Option<Entry> {
    if e.None? || Rest(e.value.sessions, gone) == [] then None
    else Some(e.value.(sessions := Rest(e.value.sessions, gone)))
  }

  function PruneRow(row: map<Pid, Entry>, gone: set<Sid>): map<Pid, Entry> {
    map p | p in row && Rest(row[p].sessions, gone) != [] :: row[p].(sessions := Rest(row[p].sessions, gone))
  }

  function PruneIndex(x: Index, gone: set<Sid>): Index {
    map s | s in x && PruneRow(x[s], gone) != map[] :: PruneRow(x[s], gone)
  }

  // Expired sessions disappear from both indexes, and so does every presence id and stream
  // that nobody else holds.
  function SweepSpec(st: State, now: int): State {
    var gone := Expired(st, now);
    State(PruneIndex(st.streams, gone), st.sessions - gone)
  }

  // The presences that existed before and have no session left.
  function Vanished(before: Index, after: Index): set<Event> {
    set s, p | s in before && p in before[s] && Lookup(after, s, p).None? :: Leave(s, p)
  }

  lemma PruneCells(x: Index, gone: set<Sid>)
    ensures NoEmpty(PruneIndex(x, gone))
    ensures forall s, p :: Lookup(PruneIndex(x, gone), s, p) == PruneCell(Lookup(x, s, p), gone)
  {
    forall s, p ensures Lookup(PruneIndex(x, gone), s, p) == PruneCell(Lookup(x, s, p), gone) {
      if s in x && PruneRow(x[s], gone) == map[] {
        assert p !in PruneRow(x[s], gone);
      }
    }
  }

  lemma {:induction false} RestElements(list: seq<Sid>, gone: set<Sid>)
    ensures forall x :: x in Rest(list, gone) <==> x in list && x !in gone
  {
    if list != [] {
      RestElements(list[1..], gone);
      assert list == [list[0]] + list[1..];
    }
  }

  lemma {:induction false} RestMore(list: seq<Sid>, gone: set<Sid>, sid: Sid)
    requires Distinct(list) && sid !in gone
    ensures Rest(list, gone + {sid}) == Without(Rest(list, gone), sid)
  {
    if list != [] {
      RestMore(list[1..], gone, sid);
      if list[0] == sid {
        RestElements(list[1..], gone);
        assert sid !in list[1..];
      }
    }
  }

  lemma {:induction false} RestSame(list: seq<Sid>, a: set<Sid>, b: set<Sid>)
    requires forall x :: x in list ==> (x in a <==> x in b)
    ensures Rest(list, a) == Rest(list, b)
  {
    if list != [] {
      RestSame(list[1..], a, b);
    }
  }

  // ---------- One removal at a time ----------

  function At(done: set<Pair>, s: Stream): set<Sid> {
    set d | d in done && d.1 == s :: d.0
  }

  // `cur` is `st` with the presences in `done` removed.
  ghost predicate Progress(st: State, done: set<Pair>, cur: State) {
    && Agree(cur)
    && (forall s, p :: Lookup(cur.streams, s, p) == PruneCell(Lookup(st.streams, s, p), At(done, s)))
    && (forall sid, s, p :: Holds(cur, sid, s, p) <==> Holds(st, sid, s, p) && (sid, s) !in done)
    && (forall sid :: sid in cur.sessions ==>
         sid in st.sessions && cur.sessions[sid].deadline == st.sessions[sid].deadline)
  }

  lemma ProgressStart(st: State)
    requires Agree(st)
    ensures Progress(st, {}, st)
  {
    forall s, p ensures Lookup(st.streams, s, p) == PruneCell(Lookup(st.streams, s, p), At({}, s)) {
      assert At({}, s) == {};
      var e := Lookup(st.streams, s, p);
      if e.Some? {
        RestNothing(e.value.sessions);
      }
    }
  }

  lemma {:induction false} RestNothing(list: seq<Sid>)
    ensures Rest(list, {}) == list
  {
    if list != [] {
      RestNothing(list[1..]);
    }
  }

  lemma CellStep(e: Entry, gone: set<Sid>, sid: Sid)
    requires Distinct(e.sessions) && sid !in gone && PruneCell(Some(e), gone).Some?
    ensures PruneCell(Some(e), gone + {sid}) == Shrink(PruneCell(Some(e), gone).value, sid)
  {
    RestMore(e.sessions, gone, sid);
  }

  lemma ProgressStep(st: State, done: set<Pair>, cur: State, sid: Sid, s: Stream, pid: Pid)
    requires Agree(st) && Progress(st, done, cur)
    requires Holds(st, sid, s, pid) && (sid, s) !in done
    ensures Progress(st, done + {(sid, s)}, RemoveSpec(cur, s, sid).0)
  {
    hide RemoveSpec, Shrink, PruneCell, Agree, Lookup;
    var cur' := RemoveSpec(cur, s, sid).0;
    var done' := done + {(sid, s)};
    RemoveEffect(cur, s, sid, pid);
    assert At(done', s) == At(done, s) + {sid};
    forall s', p' ensures Lookup(cur'.streams, s', p') == PruneCell(Lookup(st.streams, s', p'), At(done', s')) {
      if s' == s {
        CellMoves(st, done, cur, sid, s, pid, p');
      } else {
        assert At(done', s') == At(done, s');
      }
    }
  }

  lemma CellMoves(st: State, done: set<Pair>, cur: State, sid: Sid, s: Stream, pid: Pid, p: Pid)
    requires Agree(st) && Progress(st, done, cur)
    requires Holds(st, sid, s, pid) && (sid, s) !in done
    ensures var e := Lookup(cur.streams, s, pid);
            && e.Some?
            && PruneCell(Lookup(st.streams, s, p), At(done, s) + {sid}) ==
               if p == pid then Shrink(e.value, sid) else Lookup(cur.streams, s, p)
  {
    assert Holds(cur, sid, s, pid);
    assert Listed(cur, sid, s, pid) && Listed(st, sid, s, pid);
    var e := Lookup(st.streams, s, p);
    if p == pid {
      CellStep(e.value, At(done, s), sid);
    } else if e.Some? {
      assert !Holds(st, sid, s, p);
      assert !Listed(st, sid, s, p);
      RestSame(e.value.sessions, At(done, s), At(done, s) + {sid});
    }
  }

  // A removal decides a leave event exactly when a presence id loses its last session.
  lemma VanishStep(st: State, done: set<Pair>, cur: State, sid: Sid, s: Stream, pid: Pid)
    requires Agree(st) && Progress(st, done, cur)
    requires Holds(st, sid, s, pid) && (sid, s) !in done
    ensures var (cur', r) := RemoveSpec(cur, s, sid);
            && r.Done?
            && r.event == (if Lookup(cur'.streams, s, pid).None? then Some(Leave(s, pid)) else None)
            && Leave(s, pid) !in Vanished(st.streams, cur.streams)
            && Vanished(st.streams, cur'.streams) ==
               Vanished(st.streams, cur.streams) + if r.event.Some? then {r.event.value} else {}
  {
    hide RemoveSpec, Shrink, PruneCell, DropHold, Put;
    var (cur', r) := RemoveSpec(cur, s, sid);
    assert Holds(cur, sid, s, pid);
    RemoveHeld(cur, s, sid, pid);
    RemoveEffect(cur, s, sid, pid);
    assert Listed(st, sid, s, pid) && Listed(cur, sid, s, pid);
    ShrinkToNothing(Lookup(cur.streams, s, pid).value, sid);
    var a, b := Vanished(st.streams, cur.streams), Vanished(st.streams, cur'.streams);
    forall s', p' ensures Leave(s', p') in b <==> Leave(s', p') in a || (r.event == Some(Leave(s', p'))) {
    }
  }

  lemma ShrinkToNothing(e: Entry, sid: Sid)
    requires Distinct(e.sessions) && sid in e.sessions
    ensures Shrink(e, sid).None? <==> e.sessions == [sid]
  {
    WithoutElements(e.sessions, sid);
    if Without(e.sessions, sid) == [] {
      assert forall i :: 0 <= i < |e.sessions| ==> e.sessions[i] == sid;
    }
  }

  // ---------- Whole sweeps ----------

  ghost predicate AllHeld(order: seq<Pair>, st: State) {
    forall d :: d in order ==> d.0 in st.sessions && d.1 in st.sessions[d.0].streams
  }

  lemma SplitOrder(order: seq<Pair>, st: State)
    requires order != [] && Distinct(order) && AllHeld(order, st)
    ensures var init, last := order[..|order| - 1], order[|order| - 1];
            && Distinct(init) && AllHeld(init, st) && last !in Elements(init)
            && Elements(order) == Elements(init) + {last}
            && last.0 in st.sessions && last.1 in st.sessions[last.0].streams
  {
    assert order == order[..|order| - 1] + [order[|order| - 1]];
  }

  lemma {:induction false} RemoveAllProgress(st: State, order: seq<Pair>)
    requires Agree(st) && Distinct(order) && AllHeld(order, st)
    ensures var (cur, events) := RemoveAll(st, order);
            && Progress(st, Elements(order), cur)
            && multiset(events) == multiset(Vanished(st.streams, cur.streams))
  {
    hide Progress, Agree, RemoveSpec, Vanished, Distinct, AllHeld, Elements;
    if order == [] {
      ProgressStart(st);
      NothingVanished(st.streams);
      NoPairs();
    } else {
      SplitOrder(order, st);
      var init := order[..|order| - 1];
      var (sid, s) := order[|order| - 1];
      RemoveAllProgress(st, init);
      var (mid, events) := RemoveAll(st, init);
      var pid := st.sessions[sid].streams[s];
      ProgressStep(st, Elements(init), mid, sid, s, pid);
      VanishStep(st, Elements(init), mid, sid, s, pid);
    }
  }

  lemma NoPairs()
    ensures Elements<Pair>([]) == {}
  {
  }

  lemma NothingVanished(x: Index)
    ensures Vanished(x, x) == {}
  {
  }

  lemma SweptCells(st: State, done: set<Pair>, cur: State, gone: set<Sid>)
    requires Agree(st) && Progress(st, done, cur)
    requires forall sid, s :: (sid, s) in done <==> sid in gone && sid in st.sessions && s in st.sessions[sid].streams
    ensures cur.streams == PruneIndex(st.streams, gone)
  {
    PruneCells(st.streams, gone);
    forall s, p ensures Lookup(cur.streams, s, p) == Lookup(PruneIndex(st.streams, gone), s, p) {
      var e := Lookup(st.streams, s, p);
      if e.Some? {
        forall sid | sid in e.value.sessions ensures sid in At(done, s) <==> sid in gone {
          assert Listed(st, sid, s, p);
          assert Holds(st, sid, s, p);
          assert sid in At(done, s) <==> (sid, s) in done;
        }
        RestSame(e.value.sessions, At(done, s), gone);
      }
    }
    SameCells(cur.streams, PruneIndex(st.streams, gone));
  }

  lemma SweptSessions(st: State, done: set<Pair>, cur: State, gone: set<Sid>)
    requires Agree(st) && Progress(st, done, cur)
    requires forall sid, s :: (sid, s) in done <==> sid in gone && sid in st.sessions && s in st.sessions[sid].streams
    ensures cur.sessions == st.sessions - gone
  {
    hide Lookup, PruneCell, Listed, NoEmpty, WellKept;
    forall sid | sid in cur.sessions ensures sid !in gone {
      var s :| s in cur.sessions[sid].streams;
      assert Holds(cur, sid, s, cur.sessions[sid].streams[s]);
    }
    forall sid | sid in st.sessions && sid !in gone
      ensures sid in cur.sessions && cur.sessions[sid] == st.sessions[sid]
    {
      var s0 :| s0 in st.sessions[sid].streams;
      assert Holds(cur, sid, s0, st.sessions[sid].streams[s0]);
      forall s | s in st.sessions[sid].streams
        ensures s in cur.sessions[sid].streams && cur.sessions[sid].streams[s] == st.sessions[sid].streams[s]
      {
        assert Holds(cur, sid, s, st.sessions[sid].streams[s]);
      }
      forall s | s in cur.sessions[sid].streams ensures s in st.sessions[sid].streams {
        assert Holds(st, sid, s, cur.sessions[sid].streams[s]);
      }
      assert cur.sessions[sid].streams == st.sessions[sid].streams;
    }
  }

  // Removing the presences of all expired sessions in any order ends in the same state as
  // the sweep, and decides the same leave events, each once.
  lemma SweepIsRemovals(st: State, now: int, order: seq<Pair>)
    requires Agree(st) && Enumerates(order, st, now)
    ensures var (cur, events) := RemoveAll(st, order);
            && cur == SweepSpec(st, now) && Agree(cur)
            && multiset(events) == multiset(Vanished(st.streams, SweepSpec(st, now).streams))
  {
    RemoveAllProgress(st, order);
    var cur := RemoveAll(st, order).0;
    var gone := Expired(st, now);
    SweptCells(st, Elements(order), cur, gone);
    SweptSessions(st, Elements(order), cur, gone);
  }

  lemma OrderIsIrrelevant(st: State, now: int, a: seq<Pair>, b: seq<Pair>)
    requires Agree(st) && Enumerates(a, st, now) && Enumerates(b, st, now)
    ensures RemoveAll(st, a).0 == RemoveAll(st, b).0
    ensures multiset(RemoveAll(st, a).1) == multiset(RemoveAll(st, b).1)
  {
    SweepIsRemovals(st, now, a);
    SweepIsRemovals(st, now, b);
  }
}
