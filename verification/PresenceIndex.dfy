/** The presence index as the memory broker keeps it: maps updated in place. */
module PresenceIndex {
  import opened Basics
  import opened Presence
  import opened PresenceSweep

  class PresenceState {
    const ttl: int
    var streams: Index
    var sessions: map<Sid, Holder>

    ghost function View(): State
      reads this
    {
      State(streams, sessions)
    }

    constructor (ttl: int)
      ensures this.ttl == ttl && View() == State(map[], map[]) && Agree(View())
    {
      this.ttl, streams, sessions := ttl, map[], map[];
    }

    // Enters the session in a presence record; says whether the record is new.
    method Enlist(s: Stream, pid: Pid, sid: Sid, info: Info) returns (joined: bool)
      requires s in streams
      modifies this`streams
      ensures joined == Lookup(old(streams), s, pid).None?
      ensures streams == old(streams)[s := old(streams)[s][pid := Enter(Lookup(old(streams), s, pid), sid, pid, info)]]
    {
      joined := pid !in streams[s];
      if joined {
        streams := streams[s := streams[s][pid := Entry(info, pid, [])]];
      }
      var e := streams[s][pid];
      if sid !in e.sessions {
        e := e.(sessions := e.sessions + [sid]);
      }
      streams := streams[s := streams[s][pid := e.(info := info)]];
      assert [] + [sid] == [sid];
      ghost var entered := Enter(Lookup(old(streams), s, pid), sid, pid, info);
      assert e.(info := info) == entered;
      assert streams[s] == old(streams)[s][pid := entered];
    }

    // Makes the missing row and holder.
    method Prepare(s: Stream, sid: Sid, now: int)
      modifies this
      ensures streams == old(streams)[s := Row(old(streams), s)]
      ensures sessions == old(sessions)[sid := if sid in old(sessions) then old(sessions)[sid]
          else Holder(map[], now + ttl * 1000)]
    {
      if s !in streams {
        streams := streams[s := map[]];
      }
      if sid !in sessions {
        sessions := sessions[sid := Holder(map[], now + ttl * 1000)];
      }
    }

    method PresenceAdd(s: Stream, sid: Sid, pid: Pid, info: Info, now: int) returns (r: Outcome)
      requires Agree(View())
      modifies this
      ensures Agree(View())
      ensures (View(), r) == AddSpec(old(View()), s, sid, pid, info, ttl, now)
      ensures r.Failed? ==> View() == old(View())
    {
      hide Agree, AddSpec, Enter, Lookup, Row;
      ghost var st := View();
      AddAgrees(st, s, sid, pid, info, ttl, now);
      AddUnfolds(st, s, sid, pid, info, ttl, now);
      Prepare(s, sid, now);
      var held := sessions[sid];
      if s in held.streams && held.streams[s] != pid {
        return Failed(Mismatch);
      }
      sessions := sessions[sid := held.(streams := held.streams[s := pid])];
      SameLookup(st.streams, s, pid);
      var joined := Enlist(s, pid, sid, info);
      UpdateTwice(st.streams, s, Row(st.streams, s), streams[s]);
      UpdateTwice(st.sessions, sid, held, sessions[sid]);
      r := Done(if joined then Some(Join(s, pid, info)) else None);
    }

    // Takes the session out of a presence record; says whether the record is gone.
    method Erase(s: Stream, pid: Pid, sid: Sid) returns (empty: bool)
      requires s in streams && pid in streams[s]
      modifies this`streams
      ensures var e := old(streams)[s][pid];
              && empty == (sid in e.sessions && Shrink(e, sid).None?)
              && streams == if sid in e.sessions then Put(old(streams), s, pid, Shrink(e, sid)) else old(streams)
    {
      var e, row := streams[s][pid], streams[s];
      var rest, found := Cut(e.sessions, sid);
      if !found {
        return false;
      }
      empty := |rest| == 0;
      row := if empty then row - {pid} else row[pid := e.(sessions := rest)];
      assert !empty ==> pid in row;
      streams := if |row| == 0 then streams - {s} else streams[s := row];
    }

    method PresenceRemove(s: Stream, sid: Sid) returns (r: Outcome)
      modifies this
      ensures (View(), r) == RemoveSpec(old(View()), s, sid)
    {
      hide Put, Shrink;
      if s !in streams {
        return Failed(StreamNotFound);
      }
      var pid := "";
      if sid in sessions {
        if s !in sessions[sid].streams {
          return Failed(NotPresent);
        }
        pid := sessions[sid].streams[s];
        var left := sessions[sid].streams - {s};
        sessions := if |left| == 0 then sessions - {sid} else sessions[sid := sessions[sid].(streams := left)];
      }
      if pid !in streams[s] {
        return Failed(RecordNotFound);
      }
      var empty := Erase(s, pid, sid);
      r := Done(if empty then Some(Leave(s, pid)) else None);
    }

    method TouchPresence(sid: Sid, now: int)
      modifies this`sessions
      ensures View() == TouchSpec(old(View()), sid, ttl, now)
    {
      if sid in sessions {
        sessions := sessions[sid := sessions[sid].(deadline := now + ttl * 1000)];
      }
    }

    // Reports each present id once, with its latest info.
    method PresenceInfo(s: Stream, withRecords: bool) returns (total: nat, records: seq<(Pid, Info)>)
      requires Agree(View())
      ensures total == |Row(streams, s)|
      ensures !withRecords ==> records == []
      ensures withRecords ==> |records| == total
      ensures withRecords ==> forall p :: p in Row(streams, s) ==> (p, Row(streams, s)[p].info) in records
      ensures forall i, j :: 0 <= i < j < |records| ==> records[i].0 != records[j].0
    {
      total, records := 0, [];
      if s !in streams {
        return;
      }
      var row := streams[s];
      total := |row|;
      if withRecords {
        forall p | p in row ensures row[p].id == p {
          assert Lookup(streams, s, p) == Some(row[p]);
        }
        var todo := row.Keys;
        while todo != {}
          invariant todo <= row.Keys && |records| + |todo| == |row|
          invariant forall p :: p in row.Keys - todo ==> (p, row[p].info) in records
          invariant forall i :: 0 <= i < |records| ==> records[i].0 in row.Keys - todo
          invariant forall i, j :: 0 <= i < j < |records| ==> records[i].0 != records[j].0
        {
          var p :| p in todo;
          records := records + [(row[p].id, row[p].info)];
          todo := todo - {p};
        }
      }
    }

    // The inner loop of the sweep: one expired session.
    method ExpireSession(sid: Sid, ghost st: State, ghost met: set<Sid>, before: seq<Event>, ghost was: seq<Pair>)
      returns (events: seq<Event>, ghost order: seq<Pair>)
      requires Agree(st) && Distinct(was) && Met(was, st, met) && met <= st.sessions.Keys
      requires sid !in met && sid in st.sessions && sid in sessions && sessions[sid] == st.sessions[sid]
      requires RemoveAll(st, was) == (View(), before)
      modifies this
      ensures Distinct(order) && Met(order, st, met + {sid})
      ensures RemoveAll(st, order) == (View(), events)
    {
      hide RemoveAll, Put, Shrink, DropHold, Partly;
      events, order := before, was;
      var held := sessions[sid].streams;
      var left := held.Keys;
      PartlyAll(sessions, sid);
      while left != {}
        invariant left <= held.Keys && sessions == old(sessions) && Distinct(order)
        invariant forall x, s :: (x, s) in order <==> (x, s) in was || (x == sid && s in held.Keys - left)
        invariant RemoveAll(st, order) == (State(streams, Partly(sessions, sid, left)), events)
      {
        var s :| s in left;
        var pid := held[s];
        CurrentlyHeld(st, order, sid, s, pid);
        PartlyStep(sessions, sid, left, s);
        if s in streams {
          if pid in streams[s] {
            var empty := Erase(s, pid, sid);
            if empty {
              events := events + [Leave(s, pid)];
            }
          }
        }
        left := left - {s};
        order := order + [(sid, s)];
        assert order[..|order| - 1] + [(sid, s)] == order;
      }
      PartlyNone(sessions, sid);
      sessions := sessions - {sid};
    }

    // One sweep. `order` records in which order the presences were met.
    method ExpirePresence(now: int) returns (events: seq<Event>, ghost order: seq<Pair>)
      requires Agree(View())
      modifies this
      ensures Enumerates(order, old(View()), now)
      ensures (View(), events) == RemoveAll(old(View()), order)
      ensures View() == SweepSpec(old(View()), now) && Agree(View())
      ensures multiset(events) == multiset(Vanished(old(streams), streams))
    {
      hide RemoveAll, Agree, Distinct, SweepSpec, Vanished, PruneIndex;
      ghost var st := View();
      NothingMet(st);
      ghost var gone := Expired(st, now);
      var todo := set sid | sid in sessions && 0 < sessions[sid].deadline < now;
      events, order := [], [];
      while todo != {}
        invariant todo <= gone && Distinct(order) && Met(order, st, gone - todo)
        invariant RemoveAll(st, order) == (View(), events)
      {
        var sid :| sid in todo;
        StillHeld(st, order, gone - todo, sid);
        events, order := ExpireSession(sid, st, gone - todo, events, order);
        todo := todo - {sid};
        assert gone - todo == (gone - (todo + {sid})) + {sid};
      }
      assert gone - todo == gone;
      SweepIsRemovals(st, now, order);
    }
  }

  lemma NothingMet(st: State)
    ensures Distinct<Pair>([]) && Met([], st, {}) && RemoveAll(st, []) == (st, [])
  {
  }

  // The session map while only the presences in `left` of one session remain.
  function Partly(sessions: map<Sid, Holder>, sid: Sid, left: set<Stream>): map<Sid, Holder>
    requires sid in sessions
  {
    if left == {} then sessions - {sid}
    else
      var all := sessions[sid].streams;
      sessions[sid := sessions[sid].(streams := map s | s in all && s in left :: all[s])]
  }

  lemma PartlyStep(sessions: map<Sid, Holder>, sid: Sid, left: set<Stream>, s: Stream)
    requires sid in sessions && left <= sessions[sid].streams.Keys && s in left
    ensures DropHold(Partly(sessions, sid, left), sid, s) == Partly(sessions, sid, left - {s})
  {
    var all := sessions[sid].streams;
    var p := map t | t in all && t in left :: all[t];
    var q := map t | t in all && t in left - {s} :: all[t];
    assert p - {s} == q && q.Keys == left - {s};
  }

  lemma PartlyAll(sessions: map<Sid, Holder>, sid: Sid)
    requires sid in sessions && sessions[sid].streams != map[]
    ensures Partly(sessions, sid, sessions[sid].streams.Keys) == sessions
  {
    var all := sessions[sid].streams;
    assert all.Keys != {};
    assert (map s | s in all && s in all.Keys :: all[s]) == all;
  }

  lemma PartlyNone(sessions: map<Sid, Holder>, sid: Sid)
    requires sid in sessions
    ensures Partly(sessions, sid, {}) == sessions - {sid}
  {
  }

  function Row(x: Index, s: Stream): map<Pid, Entry> {
    if s in x then x[s] else map[]
  }

  // What adding comes to, with the row and the holder made when missing. A session that holds
  // a presence finds its stream in the index, so the mismatch error leaves no empty row behind.
  lemma AddUnfolds(st: State, s: Stream, sid: Sid, pid: Pid, info: Info, ttl: int, now: int)
    requires Agree(st)
    ensures var held := if sid in st.sessions then st.sessions[sid] else Holder(map[], now + ttl * 1000);
            var was := Lookup(st.streams, s, pid);
            AddSpec(st, s, sid, pid, info, ttl, now) ==
            if s in held.streams && held.streams[s] != pid
            then (State(st.streams[s := Row(st.streams, s)], st.sessions[sid := held]), Failed(Mismatch))
            else (State(st.streams[s := Row(st.streams, s)[pid := Enter(was, sid, pid, info)]],
                        st.sessions[sid := held.(streams := held.streams[s := pid])]),
                  Done(if was.None? then Some(Join(s, pid, info)) else None))
    ensures var (st', r) := AddSpec(st, s, sid, pid, info, ttl, now); r.Failed? ==> st' == st
  {
    PutSome(st.streams, s, pid, Enter(Lookup(st.streams, s, pid), sid, pid, info));
    if sid in st.sessions && s in st.sessions[sid].streams {
      assert Holds(st, sid, s, st.sessions[sid].streams[s]);
      assert Listed(st, sid, s, st.sessions[sid].streams[s]);
      assert st.streams[s := Row(st.streams, s)] == st.streams && st.sessions[sid := st.sessions[sid]] == st.sessions;
    }
  }

  lemma UpdateTwice<K, V>(m: map<K, V>, k: K, a: V, b: V)
    ensures m[k := a][k := b] == m[k := b]
  {
  }

  lemma SameLookup(x: Index, s: Stream, p: Pid)
    ensures Lookup(x[s := Row(x, s)], s, p) == Lookup(x, s, p)
    ensures x[s := Row(x, s)][s] == Row(x, s)
  {
  }

  lemma PutSome(x: Index, s: Stream, p: Pid, e: Entry)
    ensures Put(x, s, p, Some(e)) == x[s := Row(x, s)[p := e]]
  {
    assert p in Row(x, s)[p := e];
  }

  // Until its turn comes a presence is still held, and can be removed.
  lemma CurrentlyHeld(st: State, order: seq<Pair>, sid: Sid, s: Stream, pid: Pid)
    requires Agree(st) && Distinct(order) && AllHeld(order, st)
    requires Holds(st, sid, s, pid) && (sid, s) !in order
    ensures var (cur, events) := RemoveAll(st, order);
            var e := Lookup(cur.streams, s, pid);
            && Agree(cur) && Holds(cur, sid, s, pid)
            && e.Some? && sid in e.value.sessions
            && RemoveAll(st, order + [(sid, s)]) ==
               (State(Put(cur.streams, s, pid, Shrink(e.value, sid)), DropHold(cur.sessions, sid, s)),
                if Shrink(e.value, sid).None? then events + [Leave(s, pid)] else events)
  {
    RemoveAllProgress(st, order);
    var (cur, events) := RemoveAll(st, order);
    RemoveHeld(cur, s, sid, pid);
    ShrinkToNothing(Lookup(cur.streams, s, pid).value, sid);
    var more := order + [(sid, s)];
    assert more[..|more| - 1] == order;
  }

  lemma StillHeld(st: State, order: seq<Pair>, met: set<Sid>, sid: Sid)
    requires Agree(st) && Distinct(order) && Met(order, st, met) && sid in st.sessions && sid !in met
    ensures var cur := RemoveAll(st, order).0; sid in cur.sessions && cur.sessions[sid] == st.sessions[sid]
  {
    RemoveAllProgress(st, order);
    SweptSessions(st, Elements(order), RemoveAll(st, order).0, met);
  }

  // Precisely the presences of these sessions were met.
  ghost predicate Met(order: seq<Pair>, st: State, sids: set<Sid>) {
    forall sid, s :: (sid, s) in order <==> sid in sids && sid in st.sessions && s in st.sessions[sid].streams
  }
}
