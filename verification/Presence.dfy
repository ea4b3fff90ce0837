/** The two-way presence index of the memory broker: stream -> presence id -> sessions, and
session -> stream -> presence id, with the join and leave events decided on the way. */
module Presence {
  import opened Basics

  type Stream = string
  type Sid = string
  type Pid = string
  type Info = string

  datatype Entry = Entry(info: Info, id: Pid, sessions: seq<Sid>)

  type Index = map<Stream, map<Pid, Entry>>

  // What one session holds, and when it expires.
  datatype Holder = Holder(streams: map<Stream, Pid>, deadline: int)

  datatype State = State(streams: Index, sessions: map<Sid, Holder>)

  datatype Event = Join(stream: Stream, pid: Pid, info: Info) | Leave(stream: Stream, pid: Pid)

  datatype Failure = Mismatch | StreamNotFound | NotPresent | RecordNotFound

  datatype Outcome = Done(event: Option<Event>) | Failed(failure: Failure)

  // ---------- The nested index seen as one flat table ----------

  function Lookup(x: Index, s: Stream, p: Pid): Option<Entry> {
    if s in x && p in x[s] then Some(x[s][p]) else None
  }

  ghost predicate NoEmpty(x: Index) {
    forall s :: s in x ==> x[s] != map[]
  }

  // Writes or erases one cell, leaving no empty row behind.
  function Put(x: Index, s: Stream, p: Pid, e: Option<Entry>): Index {
    var row := if s in x then x[s] else map[];
    var row' := if e.Some? then row[p := e.value] else row - {p};
    if row' == map[] then x - {s} else x[s := row']
  }

  lemma PutCells(x: Index, s: Stream, p: Pid, e: Option<Entry>)
    requires NoEmpty(x)
    ensures NoEmpty(Put(x, s, p, e))
    ensures forall s', p' :: Lookup(Put(x, s, p, e), s', p') == if s' == s && p' == p then e else Lookup(x, s', p')
  {
    var row := if s in x then x[s] else map[];
    var row' := if e.Some? then row[p := e.value] else row - {p};
    var y := Put(x, s, p, e);
    assert e.Some? ==> p in row';
    forall s', p' ensures Lookup(y, s', p') == if s' == s && p' == p then e else Lookup(x, s', p') {
      assert s' == s && p' != p ==> (p' in row <==> p' in row');
    }
  }

  // Tables with the same cells are the same index.
  lemma SameCells(x: Index, y: Index)
    requires NoEmpty(x) && NoEmpty(y)
    requires forall s, p :: Lookup(x, s, p) == Lookup(y, s, p)
    ensures x == y
  {
    forall s | s in x || s in y ensures s in x && s in y && x[s] == y[s] {
      RowPresent(x, y, s);
      RowPresent(y, x, s);
      forall p | p in x[s] || p in y[s] ensures p in x[s] && p in y[s] && x[s][p] == y[s][p] {
        assert Lookup(x, s, p) == Lookup(y, s, p);
      }
    }
  }

  lemma RowPresent(x: Index, y: Index, s: Stream)
    requires NoEmpty(x) && forall p :: Lookup(x, s, p) == Lookup(y, s, p)
    ensures s in x ==> s in y
  {
    if s in x {
      var p :| p in x[s];
      assert Lookup(x, s, p).Some?;
    }
  }

  // ---------- Specification ----------

  lemma {:induction false} WithoutElements(list: seq<Sid>, sid: Sid)
    requires Distinct(list)
    ensures Distinct(Without(list, sid))
    ensures forall x :: x in Without(list, sid) <==> x in list && x != sid
  {
    if list != [] {
      var head, tail := list[0], list[1..];
      assert list == [head] + tail;
      if head == sid {
        assert Without(list, sid) == tail;
      } else {
        assert Distinct(tail);
        WithoutElements(tail, sid);
        DistinctCons(head, Without(tail, sid));
      }
    }
  }

  lemma DistinctCons(head: Sid, tail: seq<Sid>)
    requires Distinct(tail) && head !in tail
    ensures Distinct([head] + tail)
  {
  }

  function Enter(e: Option<Entry>, sid: Sid, pid: Pid, info: Info): Entry {
    if e.None? then Entry(info, pid, [sid])
    else Entry(info, e.value.id, if sid in e.value.sessions then e.value.sessions else e.value.sessions + [sid])
  }

  function Shrink(e: Entry, sid: Sid): Option<Entry> {
    var rest := Without(e.sessions, sid);
    if rest == [] then None else Some(e.(sessions := rest))
  }

  function Held(st: State, sid: Sid): Holder {
    if sid in st.sessions then st.sessions[sid] else Holder(map[], 0)
  }

  function DropHold(sessions: map<Sid, Holder>, sid: Sid, s: Stream): map<Sid, Holder>
    requires sid in sessions
  {
    var left := sessions[sid].streams - {s};
    if left == map[] then sessions - {sid} else sessions[sid := sessions[sid].(streams := left)]
  }

  function AddSpec(st: State, s: Stream, sid: Sid, pid: Pid, info: Info, ttl: int, now: int): (State, Outcome) {
    var held := if sid in st.sessions then st.sessions[sid] else Holder(map[], now + ttl * 1000);
    if s in held.streams && held.streams[s] != pid then (st, Failed(Mismatch)) else
    var was := Lookup(st.streams, s, pid);
    (State(Put(st.streams, s, pid, Some(Enter(was, sid, pid, info))),
           st.sessions[sid := held.(streams := held.streams[s := pid])]),
     Done(if was.None? then Some(Join(s, pid, info)) else None))
  }

  function RemoveSpec(st: State, s: Stream, sid: Sid): (State, Outcome) {
    if s !in st.streams then (st, Failed(StreamNotFound)) else
    if sid in st.sessions && s !in st.sessions[sid].streams then (st, Failed(NotPresent)) else
    var pid := if sid in st.sessions then st.sessions[sid].streams[s] else "";
    var sessions := if sid in st.sessions then DropHold(st.sessions, sid, s) else st.sessions;
    if pid !in st.streams[s] then (State(st.streams, sessions), Failed(RecordNotFound)) else
    var e := st.streams[s][pid];
    if sid !in e.sessions then (State(st.streams, sessions), Done(None)) else
    var left := Shrink(e, sid);
    (State(Put(st.streams, s, pid, left), sessions), Done(if left.None? then Some(Leave(s, pid)) else None))
  }

  function TouchSpec(st: State, sid: Sid, ttl: int, now: int): State {
    if sid in st.sessions
    then st.(sessions := st.sessions[sid := st.sessions[sid].(deadline := now + ttl * 1000)])
    else st
  }

  // Sessions a sweep at `now` removes.
  function Expired(st: State, now: int): set<Sid> {
    set sid | sid in st.sessions && 0 < st.sessions[sid].deadline < now
  }

  // ---------- The indexes agree ----------

  predicate Holds(st: State, sid: Sid, s: Stream, p: Pid) {
    sid in st.sessions && s in st.sessions[sid].streams && st.sessions[sid].streams[s] == p
  }

  predicate Listed(st: State, sid: Sid, s: Stream, p: Pid) {
    var e := Lookup(st.streams, s, p);
    e.Some? && sid in e.value.sessions
  }

  ghost predicate WellKept(p: Pid, e: Entry) {
    e.id == p && e.sessions != [] && Distinct(e.sessions)
  }

  // Both directions name the same facts, each session once, and nothing is empty.
  ghost predicate Agree(st: State) {
    && NoEmpty(st.streams)
    && (forall sid :: sid in st.sessions ==> st.sessions[sid].streams != map[])
    && (forall s, p :: Lookup(st.streams, s, p).Some? ==> WellKept(p, Lookup(st.streams, s, p).value))
    && (forall sid, s, p :: Holds(st, sid, s, p) <==> Listed(st, sid, s, p))
  }

  lemma AddHolds(st: State, s: Stream, sid: Sid, pid: Pid, info: Info, ttl: int, now: int)
    requires AddSpec(st, s, sid, pid, info, ttl, now).1.Done?
    ensures var st' := AddSpec(st, s, sid, pid, info, ttl, now).0;
            && forall a, b, c :: Holds(st', a, b, c) <==> Holds(st, a, b, c) || (a == sid && b == s && c == pid)
  {
    hide Put, Enter, Lookup;
  }

  lemma AddLists(st: State, s: Stream, sid: Sid, pid: Pid, info: Info, ttl: int, now: int)
    requires NoEmpty(st.streams) && AddSpec(st, s, sid, pid, info, ttl, now).1.Done?
    ensures var st' := AddSpec(st, s, sid, pid, info, ttl, now).0;
            && forall a, b, c :: Listed(st', a, b, c) <==> Listed(st, a, b, c) || (a == sid && b == s && c == pid)
  {
    hide Put, NoEmpty, Lookup;
    PutCells(st.streams, s, pid, Some(Enter(Lookup(st.streams, s, pid), sid, pid, info)));
  }

  lemma AddAgrees(st: State, s: Stream, sid: Sid, pid: Pid, info: Info, ttl: int, now: int)
    requires Agree(st)
    ensures Agree(AddSpec(st, s, sid, pid, info, ttl, now).0)
  {
    hide Put, NoEmpty, Lookup, Holds, Listed;
    if AddSpec(st, s, sid, pid, info, ttl, now).1.Done? {
      AddHolds(st, s, sid, pid, info, ttl, now);
      AddLists(st, s, sid, pid, info, ttl, now);
      PutCells(st.streams, s, pid, Some(Enter(Lookup(st.streams, s, pid), sid, pid, info)));
    }
  }

  // Exactly one cell and one hold change when a held presence is removed.
  lemma RemoveHeld(st: State, s: Stream, sid: Sid, pid: Pid)
    requires Agree(st) && Holds(st, sid, s, pid)
    ensures var e := Lookup(st.streams, s, pid);
            && e.Some? && sid in e.value.sessions
            && RemoveSpec(st, s, sid) ==
               (State(Put(st.streams, s, pid, Shrink(e.value, sid)), DropHold(st.sessions, sid, s)),
                Done(if e.value.sessions == [sid] then Some(Leave(s, pid)) else None))
  {
    assert Listed(st, sid, s, pid);
    var e := Lookup(st.streams, s, pid).value;
    WithoutElements(e.sessions, sid);
    if Without(e.sessions, sid) == [] {
      assert forall i :: 0 <= i < |e.sessions| ==> e.sessions[i] == sid;
      assert e.sessions == [sid];
    }
  }

  // Without a hold nothing happens, whatever the error reported.
  lemma RemoveUnheld(st: State, s: Stream, sid: Sid)
    requires Agree(st) && forall p :: !Holds(st, sid, s, p)
    ensures RemoveSpec(st, s, sid).0 == st
    ensures RemoveSpec(st, s, sid).1 in {Failed(StreamNotFound), Failed(NotPresent), Failed(RecordNotFound), Done(None)}
  {
    assert !Listed(st, sid, s, "");
    var h := Held(st, sid);
    assert sid in st.sessions && s in h.streams ==> Holds(st, sid, s, h.streams[s]);
  }

  lemma DropHoldEffect(st: State, sid: Sid, s: Stream)
    requires sid in st.sessions
    ensures var st' := st.(sessions := DropHold(st.sessions, sid, s));
            && (forall sid', s', p' :: Holds(st', sid', s', p') <==>
                 Holds(st, sid', s', p') && !(sid' == sid && s' == s))
            && (forall x :: x in st'.sessions ==>
                 x in st.sessions && st'.sessions[x].deadline == st.sessions[x].deadline)
            && ((forall x :: x in st.sessions ==> st.sessions[x].streams != map[]) ==>
                 forall x :: x in st'.sessions ==> st'.sessions[x].streams != map[])
  {
    var st' := st.(sessions := DropHold(st.sessions, sid, s));
    var was, left := st.sessions[sid].streams, st.sessions[sid].streams - {s};
    forall sid', s', p' ensures Holds(st', sid', s', p') <==> Holds(st, sid', s', p') && !(sid' == sid && s' == s) {
      assert s' in left <==> s' in was && s' != s;
    }
  }

  // The facts that remain after removing a held presence.
  lemma RemoveEffect(st: State, s: Stream, sid: Sid, pid: Pid)
    requires Agree(st) && Holds(st, sid, s, pid)
    ensures var st' := RemoveSpec(st, s, sid).0;
            && Agree(st')
            && (forall sid', s', p' :: Holds(st', sid', s', p') <==>
                 Holds(st, sid', s', p') && !(sid' == sid && s' == s))
            && (forall s', p' :: Lookup(st'.streams, s', p') ==
                  if s' == s && p' == pid then Shrink(Lookup(st.streams, s, pid).value, sid)
                  else Lookup(st.streams, s', p'))
            && (forall x :: x in st'.sessions ==>
                 x in st.sessions && st'.sessions[x].deadline == st.sessions[x].deadline)
  {
    RemoveHeld(st, s, sid, pid);
    var e := Lookup(st.streams, s, pid).value;
    var st' := RemoveSpec(st, s, sid).0;
    PutCells(st.streams, s, pid, Shrink(e, sid));
    WithoutElements(e.sessions, sid);
    DropHoldEffect(st, sid, s);
    var mid := st.(sessions := DropHold(st.sessions, sid, s));
    assert st'.sessions == mid.sessions;
    hide Put, RemoveSpec, Without, NoEmpty, DropHold;
    assert forall a, b, c :: Holds(st', a, b, c) <==> Holds(mid, a, b, c);
    forall sid', s', p' ensures Holds(st', sid', s', p') <==> Listed(st', sid', s', p') {
      assert Holds(st, sid', s', p') <==> Listed(st, sid', s', p');
    }
  }
}
