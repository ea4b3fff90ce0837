/** The memory broker's session cache: a map of cached sessions whose expiry is driven by the
indexed heap. */
module SessionCache {
  import opened Basics
  import opened SessionHeap

  type Sid = string

  // ---------- Specification ----------

  datatype Cached = Cached(data: string, deadline: int)

  type Cache = map<Sid, Cached>

  // Times are in milliseconds, the TTL in seconds.
  function CommitSpec(c: Cache, sid: Sid, data: string, ttl: int, now: int): Cache {
    c[sid := Cached(data, now + ttl * 1000)]
  }

  function TouchSpec(c: Cache, sid: Sid, ttl: int, now: int): Cache {
    if sid in c then c[sid := c[sid].(deadline := now + ttl * 1000)] else c
  }

  function SweepSpec(c: Cache, now: int): Cache {
    map sid | sid in c && c[sid].deadline > now :: c[sid]
  }

  datatype Op = Commit(sid: Sid, data: string, at: int) | Touch(sid: Sid, at: int) | Sweep(at: int)

  function Run(ops: seq<Op>, ttl: int): Cache {
    if ops == [] then map[] else
    var c := Run(ops[..|ops| - 1], ttl);
    match ops[|ops| - 1]
    case Commit(sid, data, now) => CommitSpec(c, sid, data, ttl, now)
    case Touch(sid, now) => TouchSpec(c, sid, ttl, now)
    case Sweep(now) => SweepSpec(c, now)
  }

  // When the session was last committed or touched, whether or not it was cached then.
  function LastSeen(ops: seq<Op>, sid: Sid): Option<int> {
    if ops == [] then None else
    var op := ops[|ops| - 1];
    if !op.Sweep? && op.sid == sid then Some(op.at) else LastSeen(ops[..|ops| - 1], sid)
  }

  // Committed once, and every sweep since came within a TTL of the last commit or touch.
  ghost predicate KeptAlive(ops: seq<Op>, sid: Sid, ttl: int) {
    exists i :: 0 <= i < |ops| && ops[i].Commit? && ops[i].sid == sid && AliveSince(ops, i, sid, ttl)
  }

  ghost predicate AliveSince(ops: seq<Op>, i: nat, sid: Sid, ttl: int) {
    forall j :: i < j < |ops| && ops[j].Sweep? ==>
      var seen := LastSeen(ops[..j], sid);
      seen.Some? && seen.value + ttl * 1000 > ops[j].at
  }

  // A session is cached exactly when it was kept alive, and it expires a TTL after it was last
  // seen: touches that come after it was dropped revive nothing.
  lemma {:induction false} CachedIffKeptAlive(ops: seq<Op>, sid: Sid, ttl: int)
    ensures sid in Run(ops, ttl) <==> KeptAlive(ops, sid, ttl)
    ensures sid in Run(ops, ttl) ==>
              LastSeen(ops, sid).Some? && Run(ops, ttl)[sid].deadline == LastSeen(ops, sid).value + ttl * 1000
  {
    if ops != [] {
      var init, op := ops[..|ops| - 1], ops[|ops| - 1];
      CachedIffKeptAlive(init, sid, ttl);
      KeptAliveStep(ops, sid, ttl);
    }
  }

  // What was last committed for the session.
  function LastCommitted(ops: seq<Op>, sid: Sid): Option<string> {
    if ops == [] then None else
    var op := ops[|ops| - 1];
    if op.Commit? && op.sid == sid then Some(op.data) else LastCommitted(ops[..|ops| - 1], sid)
  }

  // A cached session is restored with what was committed last, however often it was committed,
  // touched, or dropped and committed again before.
  lemma {:induction false} RestoresLastCommit(ops: seq<Op>, sid: Sid, ttl: int)
    ensures sid in Run(ops, ttl) ==> LastCommitted(ops, sid) == Some(Run(ops, ttl)[sid].data)
  {
    if ops != [] {
      RestoresLastCommit(ops[..|ops| - 1], sid, ttl);
    }
  }

  lemma KeptAliveStep(ops: seq<Op>, sid: Sid, ttl: int)
    requires ops != []
    ensures var init, op := ops[..|ops| - 1], ops[|ops| - 1];
            KeptAlive(ops, sid, ttl) <==>
              (op.Commit? && op.sid == sid) ||
              (KeptAlive(init, sid, ttl) && (op.Sweep? ==>
                LastSeen(init, sid).Some? && LastSeen(init, sid).value + ttl * 1000 > op.at))
  {
    hide LastSeen;
    var n := |ops| - 1;
    var init, op := ops[..n], ops[n];
    forall j | 0 <= j < n ensures init[..j] == ops[..j] {
    }
    if op.Commit? && op.sid == sid {
      assert AliveSince(ops, n, sid, ttl);
    }
    forall i | 0 <= i < n
      ensures AliveSince(ops, i, sid, ttl) <==> AliveSince(init, i, sid, ttl) && (op.Sweep? ==>
                LastSeen(init, sid).Some? && LastSeen(init, sid).value + ttl * 1000 > op.at)
    {
      AliveSinceStep(ops, i, sid, ttl);
    }
    if KeptAlive(init, sid, ttl) {
      var i :| 0 <= i < |init| && init[i].Commit? && init[i].sid == sid && AliveSince(init, i, sid, ttl);
      assert ops[i] == init[i];
    }
    if KeptAlive(ops, sid, ttl) {
      var i :| 0 <= i < |ops| && ops[i].Commit? && ops[i].sid == sid && AliveSince(ops, i, sid, ttl);
      assert i < n ==> init[i] == ops[i];
    }
  }

  lemma AliveSinceStep(ops: seq<Op>, i: nat, sid: Sid, ttl: int)
    requires i < |ops| - 1
    ensures var n := |ops| - 1;
            AliveSince(ops, i, sid, ttl) <==> AliveSince(ops[..n], i, sid, ttl) && (ops[n].Sweep? ==>
              LastSeen(ops[..n], sid).Some? && LastSeen(ops[..n], sid).value + ttl * 1000 > ops[n].at)
  {
    hide LastSeen;
    var n := |ops| - 1;
    var init := ops[..n];
    forall j | 0 <= j < n ensures init[..j] == ops[..j] && init[j] == ops[j] {
    }
  }

  // ---------- Implementation ----------

  datatype Entry = Entry(data: string, expiration: Item)

  lemma SweptCache(c: Cache, d: Cache, now: int)
    requires forall sid :: sid in d ==> sid in c && d[sid] == c[sid] && c[sid].deadline > now
    requires forall sid :: sid in c && sid !in d ==> c[sid].deadline <= now
    ensures d == SweepSpec(c, now)
  {
  }

  class Store {
    const ttl: int
    const expireSessions: PriorityQueue
    var sessions: map<Sid, Entry>

    // Each cached session owns exactly one heap item, and each item belongs to a session.
    ghost predicate Valid()
      reads this, expireSessions, expireSessions.items
    {
      && expireSessions.Valid()
      && (forall sid :: sid in sessions ==>
            sessions[sid].expiration in expireSessions.Elems() && sessions[sid].expiration.value == sid)
      && (forall x :: x in expireSessions.Elems() ==> x.value in sessions && sessions[x.value].expiration == x)
    }

    ghost function View(): Cache
      reads this, set sid | sid in sessions :: sessions[sid].expiration
    {
      map sid | sid in sessions :: Cached(sessions[sid].data, sessions[sid].expiration.priority)
    }

    constructor (ttl: int)
      ensures Valid() && fresh(expireSessions) && this.ttl == ttl && View() == map[]
    {
      this.ttl, sessions := ttl, map[];
      expireSessions := new PriorityQueue();
    }

    method CommitSession(sid: Sid, data: string, now: int)
      requires Valid()
      modifies this, expireSessions, expireSessions.items
      ensures Valid() && View() == CommitSpec(old(View()), sid, data, ttl, now)
    {
      hide PriorityQueue.Valid, Store.Valid, Store.View;
      if sid in sessions {
        Renew(sid, data, now + ttl * 1000);
      } else {
        Enrol(sid, data, now + ttl * 1000);
      }
    }

    method Renew(sid: Sid, data: string, deadline: int)
      requires Valid() && sid in sessions
      modifies this, expireSessions, expireSessions.items
      ensures Valid() && View() == old(View())[sid := Cached(data, deadline)]
    {
      hide PriorityQueue.Valid;
      var expiration := sessions[sid].expiration;
      assert expiration in expireSessions.items;
      expireSessions.Update(expiration, deadline);
      sessions := sessions[sid := Entry(data, expiration)];
    }

    method Enrol(sid: Sid, data: string, deadline: int)
      requires Valid() && sid !in sessions
      modifies this, expireSessions, expireSessions.items
      ensures Valid() && View() == old(View())[sid := Cached(data, deadline)]
    {
      hide PriorityQueue.Valid;
      var expiration := expireSessions.PushItem(sid, deadline);
      sessions := sessions[sid := Entry(data, expiration)];
    }

    method RestoreSession(from: Sid) returns (data: Option<string>)
      requires Valid()
      ensures data == if from in View() then Some(View()[from].data) else None
    {
      data := if from in sessions then Some(sessions[from].data) else None;
    }

    method TouchSession(sid: Sid, now: int)
      requires Valid()
      modifies this, expireSessions, expireSessions.items
      ensures Valid() && View() == TouchSpec(old(View()), sid, ttl, now)
    {
      hide PriorityQueue.Valid;
      if sid in sessions {
        assert sessions[sid].expiration in expireSessions.items;
        expireSessions.Update(sessions[sid].expiration, now + ttl * 1000);
      }
    }

    // Drops the session at the top of the heap.
    method DropFirst()
      requires Valid() && |expireSessions.items| > 0
      modifies this`sessions, expireSessions`items, expireSessions.Elems()`index
      ensures Valid() && |expireSessions.items| == |old(expireSessions.items)| - 1
      ensures expireSessions.Elems() <= old(expireSessions.Elems())
      ensures old(expireSessions.items)[0].value in old(sessions)
      ensures sessions == old(sessions) - {old(expireSessions.items)[0].value}
    {
      hide PriorityQueue.Valid;
      assert expireSessions.items[0] in expireSessions.Elems();
      var item := expireSessions.PopItem();
      sessions := sessions - {item.value};
    }

    // Pops due items until the heap's least one is not due.
    method ExpireSessionsCache(now: int)
      requires Valid()
      modifies this`sessions, expireSessions`items, expireSessions.Elems()`index
      ensures Valid() && View() == SweepSpec(old(View()), now)
    {
      hide PriorityQueue.Valid, SweepSpec;
      ghost var c := View();
      while true
        invariant Valid()
        invariant expireSessions.Elems() <= old(expireSessions.Elems())
        invariant forall sid :: sid in sessions ==> sid in old(sessions) && sessions[sid] == old(sessions)[sid]
        invariant forall sid :: sid in old(sessions) && sid !in sessions ==>
            old(sessions)[sid].expiration.priority <= now
        decreases |expireSessions.items|
      {
        var item := expireSessions.Peek();
        if item == null || item.priority > now {
          AllLater(now);
          SweptCache(c, View(), now);
          break;
        }
        assert item in expireSessions.Elems();
        DropFirst();
      }
    }

    lemma AllLater(now: int)
      requires Valid() && (expireSessions.items == [] || expireSessions.items[0].priority > now)
      ensures forall sid :: sid in sessions ==> sessions[sid].expiration.priority > now
    {
      hide PriorityQueue.Valid;
      forall sid | sid in sessions ensures sessions[sid].expiration.priority > now {
        assert sessions[sid].expiration in expireSessions.items;
        expireSessions.LeastFirst(sessions[sid].expiration);
      }
    }
  }
}
