/** The session cache and session timers together: a resumable session touches its cache entry
every half TTL, so a sweep never drops it while connected, nor for a TTL after it left. */
module SessionKeepalive {
  import opened Basics
  import opened SessionCache

  // `timers` holds the next keepalive of each connected session, `left` the moment each
  // departed session was disconnected.
  datatype World = World(cache: Cache, timers: map<Sid, int>, left: map<Sid, int>, now: int)

  datatype Event =
    | Connect(sid: Sid)
    | Save(sid: Sid, data: string)
    | Fire(sid: Sid)
    | Disconnect(sid: Sid)
    | Clean

  datatype Timed = Timed(at: int, event: Event)

  function Step(w: World, e: Timed, ttl: int): World {
    var t := e.at;
    match e.event
    case Connect(sid) => w.(timers := w.timers[sid := t + Half(ttl)], now := t)
    case Save(sid, data) => w.(cache := CommitSpec(w.cache, sid, data, ttl, Ms(t)), now := t)
    case Fire(sid) =>
      World(TouchSpec(w.cache, sid, ttl, Ms(t)), w.timers[sid := t + Half(ttl)], w.left, t)
    case Disconnect(sid) =>
      World(TouchSpec(w.cache, sid, ttl, Ms(t)), w.timers - {sid}, w.left[sid := t], t)
    case Clean => w.(cache := SweepSpec(w.cache, Ms(t)), now := t)
  }

  // How late a keepalive may be handled: an entry is dropped in the very millisecond its TTL
  // ends, one earlier than a presence.
  function Leeway(ttl: int): int {
    Half(ttl) - 1_000_000
  }

  // Time does not run backwards, session ids are unique, commands come from connected sessions,
  // and every keepalive is handled within the leeway.
  ghost predicate Enabled(w: World, e: Timed, ttl: int) {
    && w.now <= e.at
    && (forall sid :: sid in w.timers ==> e.at <= w.timers[sid] + Leeway(ttl))
    && match e.event
       case Connect(sid) => sid !in w.timers && sid !in w.left && sid !in w.cache
       case Fire(sid) => sid in w.timers && w.timers[sid] <= e.at
       case Clean => true
       case other => other.sid in w.timers
  }

  const START := World(map[], map[], map[], 0)

  function Run(run: seq<Timed>, ttl: int): World {
    if run == [] then START else Step(Run(run[..|run| - 1], ttl), run[|run| - 1], ttl)
  }

  ghost predicate Timely(run: seq<Timed>, ttl: int) {
    run == [] || (Timely(run[..|run| - 1], ttl) && Enabled(Run(run[..|run| - 1], ttl), run[|run| - 1], ttl))
  }

  // The last touch, or the connection, still covers every entry.
  ghost predicate Covered(w: World, ttl: int) {
    && w.timers.Keys !! w.left.Keys
    && (forall sid :: sid in w.cache ==> sid in w.timers || sid in w.left)
    && (forall sid :: sid in w.timers ==> w.timers[sid] - Half(ttl) <= w.now)
    && (forall sid :: sid in w.timers && sid in w.cache ==>
          w.cache[sid].deadline >= Ms(w.timers[sid] - Half(ttl)) + ttl * 1000)
    && (forall sid :: sid in w.left && sid in w.cache ==> w.cache[sid].deadline >= Ms(w.left[sid]) + ttl * 1000)
  }

  lemma StepCovers(w: World, e: Timed, ttl: int)
    requires ttl >= 1 && Covered(w, ttl) && Enabled(w, e, ttl)
    ensures Covered(Step(w, e, ttl), ttl)
  {
    hide Ms, Half, Leeway;
    if e.event.Save? {
      MsMonotone(w.timers[e.event.sid] - Half(ttl), e.at);
    }
  }

  lemma {:induction false} RunCovers(run: seq<Timed>, ttl: int)
    requires ttl >= 1 && Timely(run, ttl)
    ensures Covered(Run(run, ttl), ttl)
  {
    if run != [] {
      hide Step, Covered, Enabled;
      RunCovers(run[..|run| - 1], ttl);
      StepCovers(Run(run[..|run| - 1], ttl), run[|run| - 1], ttl);
    } else {
      assert Covered(START, ttl);
    }
  }

  // An entry touched some time ago survives a sweep, however the two moments fall into
  // milliseconds, if and only if that time is at least a millisecond short of the TTL.
  lemma SparesIff(d: int, ttl: int)
    ensures (forall u :: Ms(u + d) < Ms(u) + ttl * 1000) <==> d <= (ttl * 1000 - 1) * 1_000_000
  {
    if d > (ttl * 1000 - 1) * 1_000_000 {
      assert Ms(999_999) == 0;
      assert Ms(999_999 + d) >= ttl * 1000;
    }
  }

  // Whatever happened before, a sweep drops no connected session, and no departed one before a
  // whole TTL has passed since it was disconnected.
  lemma SweepKeepsTheLiving(run: seq<Timed>, t: int, ttl: int)
    requires ttl >= 1 && Timely(run + [Timed(t, Clean)], ttl)
    ensures var w := Run(run, ttl);
            var swept := SweepSpec(w.cache, Ms(t));
            && (forall sid :: sid in w.timers && sid in w.cache ==> sid in swept && swept[sid] == w.cache[sid])
            && (forall sid :: sid in w.left && sid in w.cache && Ms(t) < Ms(w.left[sid]) + ttl * 1000 ==> sid in swept)
  {
    var all := run + [Timed(t, Clean)];
    assert all[..|all| - 1] == run;
    RunCovers(run, ttl);
    var w := Run(run, ttl);
    hide Ms;
    forall sid | sid in w.timers && sid in w.cache ensures w.cache[sid].deadline > Ms(t) {
      var u := w.timers[sid] - Half(ttl);
      SparesAt(u, t, ttl);
    }
  }

  lemma SparesAt(u: int, t: int, ttl: int)
    requires t <= u + Half(ttl) + Leeway(ttl)
    ensures Ms(t) < Ms(u) + ttl * 1000
  {
  }

  // The leeway cannot be longer: a nanosecond more, and a sweep drops a connected session.
  lemma LeewayIsTight(sid: Sid, data: string, ttl: int)
    requires ttl >= 1
    ensures var u := 999_999;
            var late := u + Half(ttl) + Leeway(ttl) + 1;
            var w := Run([Timed(u, Connect(sid)), Timed(u, Save(sid, data)), Timed(late, Clean)], ttl);
            sid in w.timers && late == w.timers[sid] + Leeway(ttl) + 1 && sid !in w.cache
  {
    var u := 999_999;
    var a, b, c := Timed(u, Connect(sid)), Timed(u, Save(sid, data)), Timed(u + Half(ttl) + Leeway(ttl) + 1, Clean);
    var none: seq<Timed> := [];
    RunMore(none, a, ttl);
    RunMore(none + [a], b, ttl);
    RunMore(none + [a] + [b], c, ttl);
    assert none + [a] + [b] + [c] == [a, b, c];
    assert Ms(u) == 0 && Ms(c.at) == ttl * 1000;
  }

  lemma RunMore(run: seq<Timed>, e: Timed, ttl: int)
    ensures Run(run + [e], ttl) == Step(Run(run, ttl), e, ttl)
  {
    assert (run + [e])[..|run|] == run;
  }
}
