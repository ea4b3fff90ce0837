/** Who is present, told from the operations alone: what joining, leaving, keeping alive and
sweeping come to, with times and the TTL but without the index or its deadlines. */
module PresenceTimes {
  import opened Basics
  import opened Presence
  import opened PresenceSweep
  import opened PresenceRuns

  // ---------- The meaning of a run ----------

  // The session holds presence p on the stream. A join counts unless the session already holds
  // another presence there; it lasts until the session leaves the stream or is swept.
  ghost predicate HoldsAfter(ops: seq<Op>, ttl: int, sid: Sid, s: Stream, p: Pid)
    decreases |ops|, 0
  {
    ops != [] &&
    var init := ops[..|ops| - 1];
    match ops[|ops| - 1]
    case Add(s', sid', p', _, _) =>
      HoldsAfter(init, ttl, sid, s, p) || (s' == s && sid' == sid && p' == p && Free(init, ttl, sid, s))
    case Remove(s', sid') => HoldsAfter(init, ttl, sid, s, p) && !(s' == s && sid' == sid)
    case Touch(_, _) => HoldsAfter(init, ttl, sid, s, p)
    case Sweep(now, _) => HoldsAfter(init, ttl, sid, s, p) && !Overdue(init, ttl, sid, now)
  }

  // The session holds nothing on the stream.
  ghost predicate Free(ops: seq<Op>, ttl: int, sid: Sid, s: Stream)
    decreases |ops|, 1
  {
    forall q :: !HoldsAfter(ops, ttl, sid, s, q)
  }

  ghost predicate Anywhere(ops: seq<Op>, ttl: int, sid: Sid)
    decreases |ops|, 1
  {
    exists s, p :: HoldsAfter(ops, ttl, sid, s, p)
  }

  // When the session was last renewed: by its first join, and by every touch while it holds
  // something. Further joins renew nothing.
  ghost function Renewed(ops: seq<Op>, ttl: int, sid: Sid): Option<int>
    decreases |ops|, 0
  {
    if ops == [] then None else
    var init, op := ops[..|ops| - 1], ops[|ops| - 1];
    if op.Add? && op.sid == sid && !Anywhere(init, ttl, sid) then Some(op.at)
    else if op.Touch? && op.sid == sid && Anywhere(init, ttl, sid) then Some(op.at)
    else Renewed(init, ttl, sid)
  }

  // More than a TTL has passed since. A moment that adds up to zero or less never expires.
  ghost predicate Overdue(ops: seq<Op>, ttl: int, sid: Sid, now: int)
    decreases |ops|, 1
  {
    var r := Renewed(ops, ttl, sid);
    r.Some? && 0 < r.value + ttl * 1000 < now
  }

  // Every sweep meets the expired presences, in some order.
  ghost predicate Genuine(ops: seq<Op>, ttl: int) {
    ops == [] || (
      && Genuine(ops[..|ops| - 1], ttl)
      && (ops[|ops| - 1].Sweep? ==> Enumerates(ops[|ops| - 1].order, Run(ops[..|ops| - 1], ttl).0, ops[|ops| - 1].at)))
  }

  // ---------- The index agrees with it ----------

  // The index holds what the run means, and each holder's deadline is a TTL after its renewal.
  ghost predicate Matches(st: State, ops: seq<Op>, ttl: int) {
    && (forall sid, s, p :: Holds(st, sid, s, p) <==> HoldsAfter(ops, ttl, sid, s, p))
    && (forall sid :: sid in st.sessions ==>
          var r := Renewed(ops, ttl, sid); r.Some? && st.sessions[sid].deadline == r.value + ttl * 1000)
  }

  // A session with a holder holds something.
  lemma HolderHolds(st: State, sid: Sid)
    requires Agree(st)
    ensures sid in st.sessions <==> exists s, p :: Holds(st, sid, s, p)
  {
    if sid in st.sessions {
      var s :| s in st.sessions[sid].streams;
      assert Holds(st, sid, s, st.sessions[sid].streams[s]);
    }
  }

  lemma AnywhereIff(st: State, ops: seq<Op>, ttl: int, sid: Sid)
    requires Agree(st) && Matches(st, ops, ttl)
    ensures Anywhere(ops, ttl, sid) <==> sid in st.sessions
  {
    hide HoldsAfter, Agree;
    HolderHolds(st, sid);
  }

  // Joining fails exactly for a session that holds another presence on the stream.
  lemma AddFailsIff(st: State, s: Stream, sid: Sid, pid: Pid, info: Info, ttl: int, now: int)
    ensures var (st', r) := AddSpec(st, s, sid, pid, info, ttl, now);
            && (r.Failed? <==> exists q :: q != pid && Holds(st, sid, s, q))
            && (r.Failed? ==> st' == st && r == Failed(Mismatch))
            && (r.Done? ==> forall a, b, c ::
                  Holds(st', a, b, c) <==> Holds(st, a, b, c) || (a == sid && b == s && c == pid))
            && (forall x :: x in st.sessions ==>
                  x in st'.sessions && st'.sessions[x].deadline == st.sessions[x].deadline)
            && (forall x :: x in st'.sessions && x !in st.sessions ==>
                  x == sid && st'.sessions[x].deadline == now + ttl * 1000)
  {
    hide Put, Enter, Lookup;
    if sid in st.sessions && s in st.sessions[sid].streams {
      assert Holds(st, sid, s, st.sessions[sid].streams[s]);
    }
  }

  lemma AddMatches(st: State, ops: seq<Op>, op: Op, ttl: int)
    requires op.Add? && Agree(st) && Matches(st, ops, ttl)
    ensures Matches(AddSpec(st, op.s, op.sid, op.pid, op.info, ttl, op.at).0, ops + [op], ttl)
  {
    hide AddSpec, Agree;
    var all := ops + [op];
    assert all[..|ops|] == ops;
    AddFailsIff(st, op.s, op.sid, op.pid, op.info, ttl, op.at);
    var st' := AddSpec(st, op.s, op.sid, op.pid, op.info, ttl, op.at).0;
    AnywhereIff(st, ops, ttl, op.sid);
    OneEach(st, op.sid, op.s, op.pid);
    assert Free(ops, ttl, op.sid, op.s) <==> forall q :: !Holds(st, op.sid, op.s, q);
    forall sid, s, p ensures Holds(st', sid, s, p) <==> HoldsAfter(all, ttl, sid, s, p) {
      assert Holds(st, sid, s, p) <==> HoldsAfter(ops, ttl, sid, s, p);
    }
  }

  // Nothing but the named presence, or nothing at all.
  lemma OneEach(st: State, sid: Sid, s: Stream, p: Pid)
    ensures (exists q :: q != p && Holds(st, sid, s, q)) || Holds(st, sid, s, p) || forall q :: !Holds(st, sid, s, q)
    ensures forall q, q' :: Holds(st, sid, s, q) && Holds(st, sid, s, q') ==> q == q'
  {
  }

  lemma RemoveMatches(st: State, ops: seq<Op>, op: Op, ttl: int)
    requires op.Remove? && Agree(st) && Matches(st, ops, ttl)
    ensures Matches(RemoveSpec(st, op.s, op.sid).0, ops + [op], ttl)
  {
    hide RemoveSpec, Agree, Holds;
    var all := ops + [op];
    assert all[..|ops|] == ops;
    if pid :| Holds(st, op.sid, op.s, pid) {
      RemoveEffect(st, op.s, op.sid, pid);
    } else {
      RemoveUnheld(st, op.s, op.sid);
    }
  }

  lemma TouchMatches(st: State, ops: seq<Op>, op: Op, ttl: int)
    requires op.Touch? && Agree(st) && Matches(st, ops, ttl)
    ensures Matches(TouchSpec(st, op.sid, ttl, op.at), ops + [op], ttl)
  {
    hide Agree;
    var all := ops + [op];
    assert all[..|ops|] == ops;
    AnywhereIff(st, ops, ttl, op.sid);
    var st' := TouchSpec(st, op.sid, ttl, op.at);
    forall sid, s, p ensures Holds(st', sid, s, p) <==> HoldsAfter(all, ttl, sid, s, p) {
      assert Holds(st', sid, s, p) <==> Holds(st, sid, s, p);
    }
  }

  lemma SweepMatches(st: State, ops: seq<Op>, op: Op, ttl: int)
    requires op.Sweep? && Agree(st) && Matches(st, ops, ttl)
    ensures Matches(SweepSpec(st, op.at), ops + [op], ttl)
  {
    hide Agree, PruneIndex;
    var all := ops + [op];
    assert all[..|ops|] == ops;
    var st' := SweepSpec(st, op.at);
    forall sid, s, p ensures Holds(st', sid, s, p) <==> HoldsAfter(all, ttl, sid, s, p) {
      assert Holds(st', sid, s, p) <==> Holds(st, sid, s, p) && sid !in Expired(st, op.at);
    }
  }

  lemma StartMatches(ttl: int)
    ensures Matches(State(map[], map[]), [], ttl)
  {
  }

  // On every run, a session holds a presence in the index if and only if the operations say so:
  // in particular a sweep at `now` ends it if and only if the session's last renewal lies more
  // than a TTL back.
  lemma {:induction false} PresenceIsAsTold(ops: seq<Op>, ttl: int)
    requires Genuine(ops, ttl)
    ensures Matches(Run(ops, ttl).0, ops, ttl)
  {
    hide Matches, AddSpec, RemoveSpec, TouchSpec, SweepSpec, RemoveAll, Agree, Enumerates;
    if ops == [] {
      StartMatches(ttl);
    } else {
      var init, op := ops[..|ops| - 1], ops[|ops| - 1];
      assert ops == init + [op];
      PresenceIsAsTold(init, ttl);
      RunExplains(init, ttl);
      var st := Run(init, ttl).0;
      match op {
        case Add(_, _, _, _, _) => AddMatches(st, init, op, ttl);
        case Remove(_, _) => RemoveMatches(st, init, op, ttl);
        case Touch(_, _) => TouchMatches(st, init, op, ttl);
        case Sweep(now, order) =>
          SweepIsRemovals(st, now, order);
          SweepMatches(st, init, op, ttl);
      }
    }
  }

  lemma SweepMeans(ops: seq<Op>, ttl: int, now: int, order: seq<Pair>, sid: Sid, s: Stream, p: Pid)
    ensures HoldsAfter(ops + [Sweep(now, order)], ttl, sid, s, p) <==>
              HoldsAfter(ops, ttl, sid, s, p) && !Overdue(ops, ttl, sid, now)
  {
    assert (ops + [Sweep(now, order)])[..|ops|] == ops;
  }

  // The same of one sweep: what was held is still held if and only if the last renewal is not
  // more than a TTL before.
  lemma SweepEndsIff(ops: seq<Op>, ttl: int, now: int, order: seq<Pair>, sid: Sid, s: Stream, p: Pid)
    requires Genuine(ops, ttl) && Enumerates(order, Run(ops, ttl).0, now) && Holds(Run(ops, ttl).0, sid, s, p)
    ensures Renewed(ops, ttl, sid).Some?
    ensures Holds(Run(ops + [Sweep(now, order)], ttl).0, sid, s, p) <==>
            var until := Renewed(ops, ttl, sid).value + ttl * 1000; until <= 0 || now <= until
  {
    hide Run, Renewed, Enumerates;
    var all := ops + [Sweep(now, order)];
    assert all[..|ops|] == ops;
    PresenceIsAsTold(ops, ttl);
    PresenceIsAsTold(all, ttl);
    assert Holds(Run(all, ttl).0, sid, s, p) <==> HoldsAfter(all, ttl, sid, s, p);
    SweepMeans(ops, ttl, now, order, sid, s, p);
  }

  // ---------- Some order can always be met ----------

  lemma {:induction false} SomeOrder(pairs: set<Pair>) returns (order: seq<Pair>)
    ensures Distinct(order) && forall d :: d in order <==> d in pairs
  {
    if pairs == {} {
      order := [];
    } else {
      var d :| d in pairs;
      var rest := SomeOrder(pairs - {d});
      order := [d] + rest;
    }
  }

  lemma SweepCanHappen(st: State, now: int) returns (order: seq<Pair>)
    ensures Enumerates(order, st, now)
  {
    var pairs := set sid, s | sid in Expired(st, now) && s in st.sessions[sid].streams :: (sid, s);
    order := SomeOrder(pairs);
  }
}
