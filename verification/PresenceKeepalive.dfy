/** Presence and session timers together: a connected session touches its presence every half
TTL, so a sweep never expires it, and a disconnected one keeps it for a whole TTL. */
module PresenceKeepalive {
  import opened Basics
  import opened Presence
  import opened PresenceSweep
  import P = PingPong

  // `timers` holds the next keepalive of each connected session, `left` the moment each
  // departed session was disconnected.
  datatype World = World(st: State, timers: map<Sid, int>, left: map<Sid, int>, now: int)

  datatype Event =
    | Connect(sid: Sid)
    | Join(sid: Sid, s: Stream, pid: Pid, info: Info)
    | Leave(sid: Sid, s: Stream)
    | Fire(sid: Sid)
    | Disconnect(sid: Sid)
    | Sweep

  datatype Timed = Timed(at: int, event: Event)

  function Step(w: World, e: Timed, ttl: int): World {
    var t := e.at;
    match e.event
    case Connect(sid) => w.(timers := w.timers[sid := t + Half(ttl)], now := t)
    case Join(sid, s, pid, info) => w.(st := AddSpec(w.st, s, sid, pid, info, ttl, Ms(t)).0, now := t)
    case Leave(sid, s) => w.(st := RemoveSpec(w.st, s, sid).0, now := t)
    case Fire(sid) => w.(st := TouchSpec(w.st, sid, ttl, Ms(t)), timers := w.timers[sid := t + Half(ttl)], now := t)
    case Disconnect(sid) =>
      World(TouchSpec(w.st, sid, ttl, Ms(t)), w.timers - {sid}, w.left[sid := t], t)
    case Sweep => w.(st := SweepSpec(w.st, Ms(t)), now := t)
  }

  // Time does not run backwards, session ids are unique, commands come from connected
  // sessions, and every keepalive is handled less than half a TTL after it is due.
  ghost predicate Enabled(w: World, e: Timed, ttl: int) {
    && w.now <= e.at
    && (forall sid :: sid in w.timers ==> e.at < w.timers[sid] + Half(ttl))
    && match e.event
       case Connect(sid) => sid !in w.timers && sid !in w.left && sid !in w.st.sessions
       case Fire(sid) => sid in w.timers && w.timers[sid] <= e.at
       case Sweep => true
       case other => other.sid in w.timers
  }

  const START := World(State(map[], map[]), map[], map[], 0)

  ghost function Run(run: seq<Timed>, ttl: int): World {
    if run == [] then START else Step(Run(run[..|run| - 1], ttl), run[|run| - 1], ttl)
  }

  ghost predicate Timely(run: seq<Timed>, ttl: int) {
    run == [] || (Timely(run[..|run| - 1], ttl) && Enabled(Run(run[..|run| - 1], ttl), run[|run| - 1], ttl))
  }

  // The last touch, or the connection, still covers every presence held.
  ghost predicate Covered(w: World, ttl: int) {
    && w.timers.Keys !! w.left.Keys
    && (forall sid :: sid in w.st.sessions ==> sid in w.timers || sid in w.left)
    && (forall sid :: sid in w.timers ==> w.timers[sid] - Half(ttl) <= w.now)
    && (forall sid :: sid in w.timers && sid in w.st.sessions ==>
          w.st.sessions[sid].deadline >= Ms(w.timers[sid] - Half(ttl)) + ttl * 1000)
    && (forall sid :: sid in w.left && sid in w.st.sessions ==>
          w.st.sessions[sid].deadline >= Ms(w.left[sid]) + ttl * 1000)
  }

  lemma RemoveKeepsDeadlines(st: State, s: Stream, sid: Sid)
    ensures var st' := RemoveSpec(st, s, sid).0;
            forall x :: x in st'.sessions ==> x in st.sessions && st'.sessions[x].deadline == st.sessions[x].deadline
  {
    hide Put, Shrink, Lookup;
  }

  lemma JoinKeepsDeadlines(st: State, s: Stream, sid: Sid, pid: Pid, info: Info, ttl: int, now: int)
    ensures var st' := AddSpec(st, s, sid, pid, info, ttl, now).0;
            && (forall x :: x in st.sessions ==>
                 x in st'.sessions && st'.sessions[x].deadline == st.sessions[x].deadline)
            && (forall x :: x in st'.sessions && x !in st.sessions ==>
                 x == sid && st'.sessions[x].deadline == now + ttl * 1000)
  {
    hide Put, Enter, Lookup;
  }

  lemma StepCovers(w: World, e: Timed, ttl: int)
    requires ttl >= 1 && Covered(w, ttl) && Enabled(w, e, ttl)
    ensures Covered(Step(w, e, ttl), ttl)
  {
    hide AddSpec, RemoveSpec, SweepSpec, Ms;
    if e.event.Fire? || e.event.Disconnect? || e.event.Connect? {
      TimerCovers(w, e, ttl);
    } else {
      IndexCovers(w, e, ttl);
    }
  }

  lemma TimerCovers(w: World, e: Timed, ttl: int)
    requires ttl >= 1 && Covered(w, ttl) && Enabled(w, e, ttl)
    requires e.event.Fire? || e.event.Disconnect? || e.event.Connect?
    ensures Covered(Step(w, e, ttl), ttl)
  {
    hide AddSpec, RemoveSpec, SweepSpec, Ms;
  }

  lemma IndexCovers(w: World, e: Timed, ttl: int)
    requires ttl >= 1 && Covered(w, ttl) && Enabled(w, e, ttl)
    requires e.event.Join? || e.event.Leave? || e.event.Sweep?
    ensures Covered(Step(w, e, ttl), ttl)
  {
    hide AddSpec, RemoveSpec, SweepSpec, TouchSpec, Ms;
    match e.event {
      case Join(sid, s, pid, info) =>
        JoinKeepsDeadlines(w.st, s, sid, pid, info, ttl, Ms(e.at));
        MsMonotone(w.timers[sid] - Half(ttl), e.at);
      case Leave(sid, s) =>
        RemoveKeepsDeadlines(w.st, s, sid);
      case Sweep =>
        SweepKeepsDeadlines(w.st, Ms(e.at));
    }
  }

  lemma SweepKeepsDeadlines(st: State, now: int)
    ensures SweepSpec(st, now).sessions == st.sessions - Expired(st, now)
  {
  }

  lemma {:induction false} RunCovers(run: seq<Timed>, ttl: int)
    requires ttl >= 1 && Timely(run, ttl)
    ensures Covered(Run(run, ttl), ttl)
  {
    if run != [] {
      RunCovers(run[..|run| - 1], ttl);
      StepCovers(Run(run[..|run| - 1], ttl), run[|run| - 1], ttl);
    }
  }

  // Whatever happened before, a sweep removes no connected session's presence, and no
  // departed session's presence before a whole TTL has passed since it was disconnected.
  lemma SweepSparesTheLiving(run: seq<Timed>, t: int, ttl: int)
    requires ttl >= 1 && Timely(run + [Timed(t, Sweep)], ttl)
    ensures var w := Run(run, ttl);
            && (forall sid :: sid in w.timers ==> sid !in Expired(w.st, Ms(t)))
            && (forall sid :: sid in w.left && Ms(t) <= Ms(w.left[sid]) + ttl * 1000 ==> sid !in Expired(w.st, Ms(t)))
  {
    var all := run + [Timed(t, Sweep)];
    assert all[..|all| - 1] == run;
    RunCovers(run, ttl);
    var w := Run(run, ttl);
    forall sid | sid in w.timers && sid in w.st.sessions ensures w.st.sessions[sid].deadline >= Ms(t) {
      assert t <= w.timers[sid] - Half(ttl) + ttl * 1000 * 1_000_000;
      MsMonotone(t, w.timers[sid] - Half(ttl) + ttl * 1000 * 1_000_000);
    }
  }

  // The session's own timer, when it fires on time, is that timely: the next keepalive, which
  // `timers` holds, is never overdue.
  lemma TimerIsTimely(c: P.Conf, s: P.State, run: seq<P.Timed>, ttl: int)
    requires ttl >= 1 && c.presenceInterval == Half(ttl)
    requires P.Started(c, s) && P.PunctualRun(c, s, run) && P.NoEarlyPong(c, s, run)
    ensures var t := P.Run(c, s, run);
            !t.closed ==> t.now <= t.deadlines.presence == P.LastTouch(c, s, run) + Half(ttl)
  {
    P.TouchesAreOnTime(c, s, run);
  }
}
