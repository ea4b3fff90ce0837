/** The per-stream message log of the memory broker: bounded by a size limit and a TTL,
and read back by index arithmetic on offsets. */
module StreamLog {
  import opened Basics

  datatype Entry = Entry(timestamp: int, offset: nat, data: string)

  // `low` is the lowest available offset, 0 when nothing is retained.
  datatype Log = Log(offset: nat, deadline: int, low: nat, data: seq<Entry>)

  datatype Result<T> = Ok(value: T) | Err(reason: Failure)

  datatype Failure = Taken | TooOld | Empty | TooNew | UnknownEpoch | NoStream

  const EMPTY_LOG := Log(0, 0, 0, [])

  // ---------- Specification ----------

  function AppendSpec(l: Log, e: Entry, ttl: int, limit: nat, now: int): (r: Log)
    requires limit >= 1
    ensures r.data != [] && r.data[|r.data| - 1] == e
  {
    var data := if |l.data| + 1 > limit then (l.data + [e])[1..] else l.data + [e];
    assert data != [] && data[|data| - 1] == e;
    var low := if |l.data| + 1 > limit || l.low == 0 then data[0].offset else l.low;
    Log(l.offset, now + ttl * 10, low, data)
  }

  // The 64-bit increment.
  function Next(o: nat): nat {
    if o + 1 == U64 then 0 else o + 1
  }

  function AddSpec(l: Log, data: string, ttl: int, limit: nat, now: int): Log
    requires limit >= 1
  {
    var offset := Next(l.offset);
    AppendSpec(l.(offset := offset), Entry(now, offset, data), ttl, limit, now)
  }

  function InsertSpec(l: Log, data: string, offset: nat, ts: int, ttl: int, limit: nat, now: int): Result<Log>
    requires limit >= 1
  {
    if l.offset >= offset then Err(Taken)
    else Ok(AppendSpec(l.(offset := offset), Entry(ts, offset, data), ttl, limit, now))
  }

  // How many leading entries are older than the deadline.
  function Stale(data: seq<Entry>, deadline: int): (n: nat)
    ensures n <= |data|
    ensures forall i :: 0 <= i < n ==> data[i].timestamp < deadline
    ensures n < |data| ==> data[n].timestamp >= deadline
  {
    if data == [] || data[0].timestamp >= deadline then 0 else 1 + Stale(data[1..], deadline)
  }

  function ExpireSpec(l: Log, ttl: int, now: int): Log {
    var data := l.data[Stale(l.data, now - ttl)..];
    l.(data := data, low := if data == [] then 0 else data[0].offset)
  }

  // The 64-bit arithmetic of the source: start = (offset - low) + 1.
  function From(l: Log, k: nat): Result<seq<Entry>>
    requires k < U64
  {
    if l.low > k then Err(TooOld)
    else if l.low == 0 then Err(Empty)
    else
      var start := Next(k - l.low);
      if start > |l.data| then Err(TooNew) else Ok(l.data[start..])
  }

  // The plain search that the index arithmetic replaces.
  function Newer(data: seq<Entry>, k: nat): seq<Entry> {
    if data == [] then [] else
    var rest := Newer(data[..|data| - 1], k);
    if data[|data| - 1].offset > k then rest + [data[|data| - 1]] else rest
  }

  function Since(data: seq<Entry>, ts: int): seq<Entry> {
    if data == [] then [] else
    var rest := Since(data[..|data| - 1], ts);
    if data[|data| - 1].timestamp >= ts then rest + [data[|data| - 1]] else rest
  }

  // Reading since a time keeps precisely the entries that are not older, where they are.
  lemma SinceOne(e: Entry, ts: int)
    ensures Since([e], ts) == if e.timestamp < ts then [] else [e]
    ensures Since([], ts) == []
  {
    assert [e][..0] == [];
    assert Since([], ts) == [];
  }

  lemma {:induction false} SinceConcat(a: seq<Entry>, b: seq<Entry>, ts: int)
    ensures Since(a + b, ts) == Since(a, ts) + Since(b, ts)
  {
    if b == [] {
      assert a + b == a;
    } else {
      SinceConcat(a, b[..|b| - 1], ts);
      assert (a + b)[..|a + b| - 1] == a + b[..|b| - 1];
    }
  }

  lemma {:induction false} SinceAllOrNone(data: seq<Entry>, ts: int)
    ensures (forall i :: 0 <= i < |data| ==> data[i].timestamp >= ts) ==> Since(data, ts) == data
    ensures (forall i :: 0 <= i < |data| ==> data[i].timestamp < ts) ==> Since(data, ts) == []
  {
    if data != [] {
      SinceAllOrNone(data[..|data| - 1], ts);
    }
  }

  // In a log sorted by time that is a suffix.
  lemma SinceSplit(data: seq<Entry>, ts: int, n: nat)
    requires n <= |data|
    requires forall i :: 0 <= i < n ==> data[i].timestamp < ts
    requires forall i :: n <= i < |data| ==> data[i].timestamp >= ts
    ensures Since(data, ts) == data[n..]
  {
    hide Since;
    assert data == data[..n] + data[n..];
    SinceConcat(data[..n], data[n..], ts);
    SinceAllOrNone(data[..n], ts);
    SinceAllOrNone(data[n..], ts);
  }

  // ---------- Any log, with or without gaps ----------

  // Offsets strictly increase, nothing is newer than `offset`, `low` names the first entry.
  ghost predicate Ordered(l: Log) {
    && (l.data == [] <==> l.low == 0)
    && (l.data != [] ==> l.low == l.data[0].offset)
    && Increasing(l.data, l.offset) && l.offset < U64
  }

  ghost predicate Increasing(data: seq<Entry>, top: nat) {
    && (forall i :: 0 <= i < |data| ==> 1 <= data[i].offset <= top)
    && (forall i, j :: 0 <= i < j < |data| ==> data[i].offset < data[j].offset)
  }

  lemma IncreasingAppend(data: seq<Entry>, top: nat, e: Entry, drop: nat)
    requires Increasing(data, top) && top < e.offset && drop <= 1
    ensures Increasing((data + [e])[drop..], e.offset)
  {
  }

  lemma FirstOffset(l: Log)
    ensures Increasing(l.data, l.offset) && l.data != [] ==> l.data[0].offset >= 1
  {
  }

  lemma AppendLow(l: Log, e: Entry, ttl: int, limit: nat, now: int)
    requires limit >= 1 && (l.data == [] <==> l.low == 0) && (l.data != [] ==> l.low == l.data[0].offset)
    ensures var r := AppendSpec(l, e, ttl, limit, now);
            && r.data == (l.data + [e])[if |l.data| + 1 > limit then 1 else 0..]
            && r.offset == l.offset && r.data != [] && r.low == r.data[0].offset
  {
  }

  lemma AppendOrdered(l: Log, e: Entry, ttl: int, limit: nat, now: int)
    requires limit >= 1 && Ordered(l) && l.offset < e.offset < U64
    ensures Ordered(AppendSpec(l.(offset := e.offset), e, ttl, limit, now))
  {
    hide AppendSpec, Increasing;
    FirstOffset(l);
    IncreasingAppend(l.data, l.offset, e, if |l.data| + 1 > limit then 1 else 0);
    FirstOffset(AppendSpec(l.(offset := e.offset), e, ttl, limit, now));
    AppendLow(l.(offset := e.offset), e, ttl, limit, now);
  }

  lemma AddOrdered(l: Log, data: string, ttl: int, limit: nat, now: int)
    requires limit >= 1 && Ordered(l) && l.offset + 1 < U64
    ensures Ordered(AddSpec(l, data, ttl, limit, now))
  {
    AppendOrdered(l, Entry(now, l.offset + 1, data), ttl, limit, now);
  }

  lemma StoreKeepsOrder(l: Log, data: string, offset: nat, ts: int, ttl: int, limit: nat, now: int)
    requires limit >= 1 && offset < U64 && Ordered(l)
    ensures var r := InsertSpec(l, data, offset, ts, ttl, limit, now);
            && (r.Ok? <==> offset > l.offset)
            && (r.Ok? ==> Ordered(r.value) && r.value.offset == offset)
  {
    if l.offset < offset {
      AppendOrdered(l, Entry(ts, offset, data), ttl, limit, now);
    }
  }

  lemma ExpireKeepsOrder(l: Log, ttl: int, now: int)
    requires Ordered(l)
    ensures Ordered(ExpireSpec(l, ttl, now))
  {
  }

  lemma {:induction false} OffsetsSpread(l: Log, i: nat)
    requires Ordered(l) && i < |l.data|
    ensures l.data[i].offset >= l.low + i
  {
    if i > 0 {
      OffsetsSpread(l, i - 1);
    }
  }

  // Success needs only the position to be in range, and the subtraction never wraps.
  lemma FromInRange(l: Log, k: nat)
    requires Ordered(l) && k < U64
    ensures From(l, k).Ok? <==> l.low >= 1 && l.low <= k < l.low + |l.data|
    ensures From(l, k).Ok? ==> From(l, k).value == l.data[k - l.low + 1..]
  {
  }

  // Which refusal: nothing is retained, the position is before all that is, or it is too far on.
  lemma FromRefuses(l: Log, k: nat)
    requires Ordered(l) && k < U64
    ensures From(l, k) == Err(Empty) <==> l.data == []
    ensures From(l, k) == Err(TooOld) <==> l.data != [] && k < l.data[0].offset
    ensures From(l, k) == Err(TooNew) <==> l.data != [] && k >= l.data[0].offset + |l.data|
  {
    if l.data != [] {
      OffsetsSpread(l, |l.data| - 1);
    }
  }

  // A reader never receives a message it already has, gaps or not.
  lemma NeverRedelivers(l: Log, k: nat)
    requires Ordered(l) && k < U64 && From(l, k).Ok?
    ensures forall e :: e in From(l, k).value ==> e in l.data && e.offset > k
  {
    forall i | k - l.low + 1 <= i < |l.data| ensures l.data[i].offset > k {
      OffsetsSpread(l, i);
    }
  }

  lemma {:induction false} NewerElements(data: seq<Entry>, k: nat)
    ensures forall e :: e in Newer(data, k) <==> e in data && e.offset > k
  {
    if data != [] {
      NewerElements(data[..|data| - 1], k);
      assert data == data[..|data| - 1] + [data[|data| - 1]];
    }
  }

  lemma {:induction false} NewerConcat(a: seq<Entry>, b: seq<Entry>, k: nat)
    ensures Newer(a + b, k) == Newer(a, k) + Newer(b, k)
  {
    if b == [] {
      assert a + b == a;
    } else {
      NewerConcat(a, b[..|b| - 1], k);
      assert (a + b)[..|a + b| - 1] == a + b[..|b| - 1];
    }
  }

  lemma {:induction false} NewerAllOrNone(data: seq<Entry>, k: nat)
    ensures (forall i :: 0 <= i < |data| ==> data[i].offset > k) ==> Newer(data, k) == data
    ensures (forall i :: 0 <= i < |data| ==> data[i].offset <= k) ==> Newer(data, k) == []
  {
    if data != [] {
      NewerAllOrNone(data[..|data| - 1], k);
    }
  }

  lemma NewerSplit(data: seq<Entry>, k: nat, n: nat)
    requires n <= |data|
    requires forall i :: 0 <= i < n ==> data[i].offset <= k
    requires forall i :: n <= i < |data| ==> data[i].offset > k
    ensures Newer(data, k) == data[n..]
  {
    hide Newer;
    NewerConcat(data[..n], data[n..], k);
    NewerAllOrNone(data[..n], k);
    NewerAllOrNone(data[n..], k);
    assert data == data[..n] + data[n..];
  }

  lemma SearchFindsSuffix(l: Log, n: nat)
    requires Ordered(l) && n < |l.data|
    ensures Newer(l.data, l.data[n].offset) == l.data[n + 1..]
  {
    NewerSplit(l.data, l.data[n].offset, n + 1);
  }

  lemma SearchFindsMore(l: Log, k: nat, n: nat)
    requires Ordered(l) && n < |l.data| && l.data[n].offset > k
    ensures Newer(l.data, k) != l.data[n + 1..]
  {
    hide Newer;
    NewerElements(l.data, k);
    assert l.data[n] !in l.data[n + 1..];
  }

  // Index arithmetic finds what a search would find exactly when the entry at the computed
  // position is the requested one, that is when no offset is missing between low and k.
  lemma FromIsSearchIff(l: Log, k: nat)
    requires Ordered(l) && k < U64
    requires From(l, k).Ok?
    ensures From(l, k).value == Newer(l.data, k) <==> l.data[k - l.low].offset == k
  {
    hide Newer;
    FromInRange(l, k);
    var n := k - l.low;
    OffsetsSpread(l, n);
    if l.data[n].offset == k {
      SearchFindsSuffix(l, n);
    } else {
      SearchFindsMore(l, k, n);
    }
  }

  // The replicated log fed by a consumer: stores with arbitrary offsets, and sweeps, which drop
  // an idle stream altogether. A stream that is not there reads as an empty one.
  datatype ReplicaOp = Store(data: string, offset: nat, ts: int, at: int) | Sweep(at: int)

  function Replicate(ops: seq<ReplicaOp>, ttl: int, limit: nat): Log
    requires limit >= 1
  {
    if ops == [] then EMPTY_LOG else
    var l := Replicate(ops[..|ops| - 1], ttl, limit);
    match ops[|ops| - 1]
    case Store(d, o, ts, now) =>
      var r := InsertSpec(l, d, o, ts, ttl, limit, now);
      if r.Ok? then r.value else l
    case Sweep(now) =>
      var swept := ExpireSpec(l, ttl, now);
      if swept.deadline < now then EMPTY_LOG else swept
  }

  lemma {:induction false} ReplicaOrdered(ops: seq<ReplicaOp>, ttl: int, limit: nat)
    requires limit >= 1 && forall o :: o in ops && o.Store? ==> o.offset < U64
    ensures Ordered(Replicate(ops, ttl, limit))
  {
    if ops != [] {
      ReplicaOrdered(ops[..|ops| - 1], ttl, limit);
      var l := Replicate(ops[..|ops| - 1], ttl, limit);
      var o := ops[|ops| - 1];
      if o.Store? {
        StoreKeepsOrder(l, o.data, o.offset, o.ts, ttl, limit, o.at);
      } else {
        ExpireKeepsOrder(l, ttl, o.at);
      }
    }
  }

  lemma ReplicateMore(ops: seq<ReplicaOp>, op: ReplicaOp, ttl: int, limit: nat)
    requires limit >= 1
    ensures var l := Replicate(ops, ttl, limit);
            op.Store? && op.offset > l.offset ==>
              Replicate(ops + [op], ttl, limit)
              == AppendSpec(l.(offset := op.offset), Entry(op.ts, op.offset, op.data), ttl, limit, op.at)
  {
    assert (ops + [op])[..|ops|] == ops;
  }

  // Offsets 1, 5 and 6 are stored: asking from 2 skips 5, and asking from 5 fails although the
  // log holds it.
  lemma GapSkipsMessages()
    ensures var l := Replicate([Store("a", 1, 0, 0), Store("b", 5, 0, 0), Store("c", 6, 0, 0)], 60, 100);
            && l.data == [Entry(0, 1, "a"), Entry(0, 5, "b"), Entry(0, 6, "c")]
            && From(l, 2) == Ok([Entry(0, 6, "c")])
            && Entry(0, 5, "b") in Newer(l.data, 2)
            && From(l, 5) == Err(TooNew)
  {
    hide Replicate, Newer;
    var none: seq<ReplicaOp> := [];
    var a, b, c := Store("a", 1, 0, 0), Store("b", 5, 0, 0), Store("c", 6, 0, 0);
    NothingReplicated(60, 100);
    ReplicateMore(none, a, 60, 100);
    ReplicateMore(none + [a], b, 60, 100);
    ReplicateMore(none + [a] + [b], c, 60, 100);
    assert none + [a] + [b] + [c] == [a, b, c];
    var l := Replicate([a, b, c], 60, 100);
    assert l.data == [Entry(0, 1, "a"), Entry(0, 5, "b"), Entry(0, 6, "c")];
    NewerElements(l.data, 2);
    assert l.data[1] in l.data;
  }

  lemma NothingReplicated(ttl: int, limit: nat)
    requires limit >= 1
    ensures Replicate([], ttl, limit) == EMPTY_LOG
  {
  }

  // ---------- What a replica holds ----------

  // A message as accepted, and when that was.
  datatype Arrival = Arrival(entry: Entry, at: int)

  // The messages a replica accepted since it was last dropped: those newer than all before. It
  // is dropped by a sweep more than ten TTLs after the last arrival.
  function Accepted(ops: seq<ReplicaOp>, ttl: int): seq<Arrival> {
    if ops == [] then [] else
    var before := Accepted(ops[..|ops| - 1], ttl);
    match ops[|ops| - 1]
    case Store(d, o, ts, now) =>
      if Top(before) < o then before + [Arrival(Entry(ts, o, d), now)] else before
    case Sweep(now) =>
      if before != [] && now > before[|before| - 1].at + ttl * 10 then [] else before
  }

  function Top(all: seq<Arrival>): nat {
    if all == [] then 0 else all[|all| - 1].entry.offset
  }

  // The entries are those of the last arrivals.
  ghost predicate Tail(data: seq<Entry>, all: seq<Arrival>) {
    |data| <= |all| && forall i :: 0 <= i < |data| ==> data[i] == all[|all| - |data| + i].entry
  }

  ghost predicate Holds(l: Log, all: seq<Arrival>, ttl: int, limit: nat) {
    && Tail(l.data, all) && |l.data| <= limit && l.offset == Top(all)
    && (if all == [] then l == EMPTY_LOG else l.deadline == all[|all| - 1].at + ttl * 10)
  }

  lemma TailMore(data: seq<Entry>, all: seq<Arrival>, a: Arrival, drop: nat)
    requires Tail(data, all) && drop <= 1
    ensures Tail((data + [a.entry])[drop..], all + [a])
  {
    var more := (data + [a.entry])[drop..];
    forall i | 0 <= i < |more| ensures more[i] == (all + [a])[|all| + 1 - |more| + i].entry {
      assert more[i] == (data + [a.entry])[i + drop];
    }
  }

  lemma AppendIs(l: Log, e: Entry, ttl: int, limit: nat, now: int)
    requires limit >= 1 && |l.data| <= limit
    ensures var r := AppendSpec(l, e, ttl, limit, now);
            && r.data == (l.data + [e])[if |l.data| + 1 > limit then 1 else 0..] && |r.data| <= limit
            && r.offset == l.offset && r.deadline == now + ttl * 10
  {
  }

  lemma StoreHolds(l: Log, all: seq<Arrival>, op: ReplicaOp, ttl: int, limit: nat)
    requires limit >= 1 && op.Store? && op.offset > l.offset && Holds(l, all, ttl, limit)
    ensures Holds(AppendSpec(l.(offset := op.offset), Entry(op.ts, op.offset, op.data), ttl, limit, op.at),
                  all + [Arrival(Entry(op.ts, op.offset, op.data), op.at)], ttl, limit)
  {
    hide AppendSpec, Tail;
    var e := Entry(op.ts, op.offset, op.data);
    AppendIs(l.(offset := op.offset), e, ttl, limit, op.at);
    TailMore(l.data, all, Arrival(e, op.at), if |l.data| + 1 > limit then 1 else 0);
  }

  lemma TailCut(data: seq<Entry>, all: seq<Arrival>, n: nat)
    requires Tail(data, all) && n <= |data|
    ensures Tail(data[n..], all)
  {
  }

  lemma SweepHolds(l: Log, all: seq<Arrival>, now: int, ttl: int, limit: nat)
    requires Holds(l, all, ttl, limit)
    ensures var swept := ExpireSpec(l, ttl, now);
            Holds(if swept.deadline < now then EMPTY_LOG else swept,
                  if all != [] && now > all[|all| - 1].at + ttl * 10 then [] else all, ttl, limit)
  {
    hide ExpireSpec, Tail;
    NoTail();
    if all == [] {
      ExpireNothing(ttl, now);
    } else {
      var n := ExpireIs(l, ttl, now);
      TailCut(l.data, all, n);
    }
  }

  lemma ExpireNothing(ttl: int, now: int)
    ensures ExpireSpec(EMPTY_LOG, ttl, now) == EMPTY_LOG
  {
  }

  lemma ExpireIs(l: Log, ttl: int, now: int) returns (n: nat)
    ensures n <= |l.data| && ExpireSpec(l, ttl, now).data == l.data[n..]
    ensures ExpireSpec(l, ttl, now).deadline == l.deadline && ExpireSpec(l, ttl, now).offset == l.offset
  {
    hide Stale;
    n := Stale(l.data, now - ttl);
  }

  lemma NoTail()
    ensures Tail([], [])
  {
  }

  // A replica holds the last messages it accepted, each with its own time, offset and text.
  lemma {:induction false} ReplicaHolds(ops: seq<ReplicaOp>, ttl: int, limit: nat)
    requires limit >= 1
    ensures Holds(Replicate(ops, ttl, limit), Accepted(ops, ttl), ttl, limit)
  {
    hide AppendSpec, ExpireSpec, Tail;
    if ops == [] {
      NoTail();
    } else {
      var init, op := ops[..|ops| - 1], ops[|ops| - 1];
      ReplicaHolds(init, ttl, limit);
      var l, all := Replicate(init, ttl, limit), Accepted(init, ttl);
      if op.Store? {
        if op.offset > l.offset {
          StoreHolds(l, all, op, ttl, limit);
        }
      } else {
        SweepHolds(l, all, op.at, ttl, limit);
      }
    }
  }
}
