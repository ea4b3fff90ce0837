/** Presence along whole runs: the indexes always agree, and for every presence id the join
and leave events alternate. */
module PresenceRuns {
  import opened Basics
  import opened Presence
  import opened PresenceSweep

  datatype Op =
    | Add(s: Stream, sid: Sid, pid: Pid, info: Info, at: int)
    | Remove(s: Stream, sid: Sid)
    | Touch(sid: Sid, at: int)
    | Sweep(at: int, order: seq<Pair>)

  function Decided(r: Outcome): seq<Event> {
    if r.Done? && r.event.Some? then [r.event.value] else []
  }

  // A sweep may meet the expired presences in any order.
  ghost function Step(st: State, op: Op, ttl: int): (State, seq<Event>) {
    match op
    case Add(s, sid, pid, info, now) =>
      var (st', r) := AddSpec(st, s, sid, pid, info, ttl, now); (st', Decided(r))
    case Remove(s, sid) =>
      var (st', r) := RemoveSpec(st, s, sid); (st', Decided(r))
    case Touch(sid, now) => (TouchSpec(st, sid, ttl, now), [])
    case Sweep(now, order) => if Enumerates(order, st, now) then RemoveAll(st, order) else (st, [])
  }

  ghost function Run(ops: seq<Op>, ttl: int): (State, seq<Event>) {
    if ops == [] then (State(map[], map[]), []) else
    var (mid, events) := Run(ops[..|ops| - 1], ttl);
    var (st, more) := Step(mid, ops[|ops| - 1], ttl);
    (st, events + more)
  }

  // ---------- Event bookkeeping for one presence id ----------

  // The events about (s, p), true for a join.
  function Marks(events: seq<Event>, s: Stream, p: Pid): seq<bool> {
    if events == [] then [] else
    var rest := Marks(events[..|events| - 1], s, p);
    var e := events[|events| - 1];
    if e.stream == s && e.pid == p then rest + [e.Join?] else rest
  }

  // Follows the marks from a given presence; None as soon as a join meets a present id or a
  // leave an absent one.
  function Flow(present: bool, marks: seq<bool>): Option<bool> {
    if marks == [] then Some(present) else
    var before := Flow(present, marks[..|marks| - 1]);
    var mark := marks[|marks| - 1];
    if before == Some(!mark) then Some(mark) else None
  }

  predicate Present(st: State, s: Stream, p: Pid) {
    Lookup(st.streams, s, p).Some?
  }

  // The events explain the change of every presence id.
  ghost predicate Explains(a: State, events: seq<Event>, b: State) {
    forall s, p :: Flow(Present(a, s, p), Marks(events, s, p)) == Some(Present(b, s, p))
  }

  lemma {:induction false} MarksConcat(a: seq<Event>, b: seq<Event>, s: Stream, p: Pid)
    ensures Marks(a + b, s, p) == Marks(a, s, p) + Marks(b, s, p)
  {
    if b == [] {
      assert a + b == a;
    } else {
      MarksConcat(a, b[..|b| - 1], s, p);
      assert (a + b)[..|a + b| - 1] == a + b[..|b| - 1];
    }
  }

  lemma {:induction false} FlowConcat(present: bool, a: seq<bool>, b: seq<bool>)
    requires Flow(present, a).Some?
    ensures Flow(present, a + b) == Flow(Flow(present, a).value, b)
  {
    if b == [] {
      assert a + b == a;
    } else {
      FlowConcat(present, a, b[..|b| - 1]);
      assert (a + b)[..|a + b| - 1] == a + b[..|b| - 1];
    }
  }

  lemma ExplainsConcat(a: State, e1: seq<Event>, b: State, e2: seq<Event>, c: State)
    requires Explains(a, e1, b) && Explains(b, e2, c)
    ensures Explains(a, e1 + e2, c)
  {
    forall s, p ensures Flow(Present(a, s, p), Marks(e1 + e2, s, p)) == Some(Present(c, s, p)) {
      MarksConcat(e1, e2, s, p);
      FlowConcat(Present(a, s, p), Marks(e1, s, p), Marks(e2, s, p));
    }
  }

  lemma NoEvent(a: State, b: State)
    requires forall s, p :: Present(a, s, p) == Present(b, s, p)
    ensures Explains(a, [], b)
  {
  }

  lemma OneEvent(a: State, e: Event, b: State)
    requires Present(a, e.stream, e.pid) == e.Leave? && Present(b, e.stream, e.pid) == e.Join?
    requires forall s, p :: !(s == e.stream && p == e.pid) ==> Present(a, s, p) == Present(b, s, p)
    ensures Explains(a, [e], b)
  {
    forall s, p ensures Flow(Present(a, s, p), Marks([e], s, p)) == Some(Present(b, s, p)) {
      assert [e][..0] == [];
      assert Marks([], s, p) == [];
      assert [e.Join?][..0] == [];
    }
  }

  lemma AddExplains(st: State, s: Stream, sid: Sid, pid: Pid, info: Info, ttl: int, now: int)
    requires Agree(st)
    ensures var (st', r) := AddSpec(st, s, sid, pid, info, ttl, now);
            Explains(st, Decided(r), st')
  {
    var (st', r) := AddSpec(st, s, sid, pid, info, ttl, now);
    if r.Failed? {
      NoEvent(st, st');
    } else {
      PutCells(st.streams, s, pid, Some(Enter(Lookup(st.streams, s, pid), sid, pid, info)));
      if r.event.Some? {
        OneEvent(st, r.event.value, st');
      } else {
        NoEvent(st, st');
      }
    }
  }

  lemma RemoveExplains(st: State, s: Stream, sid: Sid)
    requires Agree(st)
    ensures var (st', r) := RemoveSpec(st, s, sid);
            Agree(st') && Explains(st, Decided(r), st')
  {
    hide RemoveSpec, Explains, Agree, Put, DropHold;
    var (st', r) := RemoveSpec(st, s, sid);
    if pid :| Holds(st, sid, s, pid) {
      RemoveHeld(st, s, sid, pid);
      RemoveEffect(st, s, sid, pid);
      Kept(st, s, pid);
      ShrinkToNothing(Lookup(st.streams, s, pid).value, sid);
      if r.event.Some? {
        OneEvent(st, r.event.value, st');
      } else {
        NoEvent(st, st');
      }
    } else {
      RemoveUnheld(st, s, sid);
      NoEvent(st, st');
    }
  }

  lemma Kept(st: State, s: Stream, p: Pid)
    requires Agree(st) && Lookup(st.streams, s, p).Some?
    ensures WellKept(p, Lookup(st.streams, s, p).value)
  {
  }

  lemma {:induction false} RemoveAllExplains(st: State, order: seq<Pair>)
    requires Agree(st)
    ensures var (st', events) := RemoveAll(st, order);
            Agree(st') && Explains(st, events, st')
  {
    hide RemoveSpec, Explains, Agree;
    if order == [] {
      NoEvent(st, st);
    } else {
      var init := order[..|order| - 1];
      var (sid, s) := order[|order| - 1];
      RemoveAllExplains(st, init);
      var (mid, events) := RemoveAll(st, init);
      RemoveExplains(mid, s, sid);
      var (st', r) := RemoveSpec(mid, s, sid);
      ExplainsConcat(st, events, mid, Decided(r), st');
      assert events + [] == events;
    }
  }

  lemma TouchAgrees(st: State, sid: Sid, ttl: int, now: int)
    requires Agree(st)
    ensures Agree(TouchSpec(st, sid, ttl, now))
  {
    var st' := TouchSpec(st, sid, ttl, now);
    assert forall a, b, c :: Holds(st', a, b, c) <==> Holds(st, a, b, c);
    assert forall a, b, c :: Listed(st', a, b, c) <==> Listed(st, a, b, c);
  }

  lemma StepExplains(st: State, op: Op, ttl: int)
    requires Agree(st)
    ensures var (st', events) := Step(st, op, ttl);
            Agree(st') && Explains(st, events, st')
  {
    hide AddSpec, RemoveSpec, Explains, Agree;
    match op {
      case Add(s, sid, pid, info, now) =>
        AddAgrees(st, s, sid, pid, info, ttl, now);
        AddExplains(st, s, sid, pid, info, ttl, now);
      case Remove(s, sid) =>
        RemoveExplains(st, s, sid);
      case Touch(sid, now) =>
        TouchAgrees(st, sid, ttl, now);
        NoEvent(st, TouchSpec(st, sid, ttl, now));
      case Sweep(now, order) =>
        NoEvent(st, st);
        RemoveAllExplains(st, order);
    }
  }

  // On every run the two indexes agree, and the events account for who is present.
  lemma {:induction false} RunExplains(ops: seq<Op>, ttl: int)
    ensures var (st, events) := Run(ops, ttl);
            Agree(st) && Explains(State(map[], map[]), events, st)
  {
    var none := State(map[], map[]);
    if ops == [] {
      NoEvent(none, none);
    } else {
      hide Step, Explains, Agree;
      var init := ops[..|ops| - 1];
      RunExplains(init, ttl);
      var (mid, events) := Run(init, ttl);
      StepExplains(mid, ops[|ops| - 1], ttl);
      var (st, more) := Step(mid, ops[|ops| - 1], ttl);
      ExplainsConcat(none, events, mid, more, st);
    }
  }

  // ---------- Join and leave events alternate ----------

  function Count(marks: seq<bool>, b: bool): nat {
    if marks == [] then 0
    else Count(marks[..|marks| - 1], b) + if marks[|marks| - 1] == b then 1 else 0
  }

  lemma {:induction false} FlowAlternates(marks: seq<bool>)
    requires Flow(false, marks).Some?
    ensures forall i :: 0 <= i < |marks| ==> marks[i] == (i % 2 == 0)
    ensures Flow(false, marks).value == (|marks| % 2 == 1)
    ensures Count(marks, true) - Count(marks, false) == |marks| % 2
  {
    if marks != [] {
      FlowAlternates(marks[..|marks| - 1]);
    }
  }

  // For each presence id of each stream the events strictly alternate starting with a join,
  // and the id is present exactly when one join is still unmatched. The total reported for a
  // stream counts precisely those ids.
  lemma Conservation(ops: seq<Op>, ttl: int, s: Stream)
    ensures var (st, events) := Run(ops, ttl);
            && (forall p :: var m := Marks(events, s, p);
                  && (forall i :: 0 <= i < |m| ==> m[i] == (i % 2 == 0))
                  && (Present(st, s, p) <==> Count(m, true) - Count(m, false) == 1)
                  && (!Present(st, s, p) <==> Count(m, true) == Count(m, false)))
            && Total(st, s) == |Pids(st, s)|
            && (forall p :: p in Pids(st, s) <==> Present(st, s, p))
  {
    RunExplains(ops, ttl);
    var (st, events) := Run(ops, ttl);
    forall p ensures var m := Marks(events, s, p);
      && (forall i :: 0 <= i < |m| ==> m[i] == (i % 2 == 0))
      && (Present(st, s, p) <==> Count(m, true) - Count(m, false) == 1)
      && (!Present(st, s, p) <==> Count(m, true) == Count(m, false))
    {
      FlowAlternates(Marks(events, s, p));
    }
  }

  function Total(st: State, s: Stream): nat {
    if s in st.streams then |st.streams[s]| else 0
  }

  function Pids(st: State, s: Stream): set<Pid> {
    if s in st.streams then st.streams[s].Keys else {}
  }

  // ---------- The info on record is the latest one ----------

  // The info that came with the last accepted addition.
  ghost function LatestInfo(ops: seq<Op>, ttl: int, s: Stream, p: Pid): Option<Info> {
    if ops == [] then None else
    var init, op := ops[..|ops| - 1], ops[|ops| - 1];
    if op.Add? && op.s == s && op.pid == p
       && AddSpec(Run(init, ttl).0, s, op.sid, p, op.info, ttl, op.at).1.Done?
    then Some(op.info) else LatestInfo(init, ttl, s, p)
  }

  // Nothing appears, and what stays keeps its info.
  ghost predicate KeepsInfo(a: State, b: State) {
    forall s, p :: Lookup(b.streams, s, p).Some? ==>
      Lookup(a.streams, s, p).Some? && Lookup(a.streams, s, p).value.info == Lookup(b.streams, s, p).value.info
  }

  lemma RemoveKeepsInfo(st: State, s: Stream, sid: Sid)
    requires Agree(st)
    ensures KeepsInfo(st, RemoveSpec(st, s, sid).0)
  {
    hide RemoveSpec, Agree;
    if pid :| Holds(st, sid, s, pid) {
      RemoveHeld(st, s, sid, pid);
      RemoveEffect(st, s, sid, pid);
    } else {
      RemoveUnheld(st, s, sid);
    }
  }

  lemma {:induction false} RemoveAllKeepsInfo(st: State, order: seq<Pair>)
    requires Agree(st)
    ensures KeepsInfo(st, RemoveAll(st, order).0)
  {
    hide RemoveSpec, Agree;
    if order != [] {
      var init := order[..|order| - 1];
      var (sid, s) := order[|order| - 1];
      RemoveAllKeepsInfo(st, init);
      RemoveAllExplains(st, init);
      RemoveKeepsInfo(RemoveAll(st, init).0, s, sid);
    }
  }

  lemma AddInfo(st: State, s: Stream, sid: Sid, pid: Pid, info: Info, ttl: int, now: int, x: Stream, p: Pid)
    requires Agree(st)
    ensures var (st', r) := AddSpec(st, s, sid, pid, info, ttl, now);
            var cell := Lookup(st'.streams, x, p);
            if x == s && p == pid && r.Done? then cell.Some? && cell.value.info == info
            else cell == Lookup(st.streams, x, p)
  {
    PutCells(st.streams, s, pid, Some(Enter(Lookup(st.streams, s, pid), sid, pid, info)));
  }

  // Who is present is recorded with the info of the last accepted addition, whichever session
  // made it and whichever has left since.
  lemma {:induction false} InfoIsLatest(ops: seq<Op>, ttl: int, s: Stream, p: Pid)
    requires Present(Run(ops, ttl).0, s, p)
    ensures LatestInfo(ops, ttl, s, p) == Some(Lookup(Run(ops, ttl).0.streams, s, p).value.info)
  {
    hide AddSpec, RemoveSpec, RemoveAll, Agree;
    if ops != [] {
      var init := ops[..|ops| - 1];
      RunExplains(init, ttl);
      var st := Run(init, ttl).0;
      match ops[|ops| - 1] {
        case Add(a, sid, pid, info, now) => AddInfo(st, a, sid, pid, info, ttl, now, s, p);
        case Remove(a, sid) => RemoveKeepsInfo(st, a, sid);
        case Touch(_, _) =>
        case Sweep(_, order) => RemoveAllKeepsInfo(st, order);
      }
      if Present(st, s, p) {
        InfoIsLatest(init, ttl, s, p);
      }
    }
  }
}
