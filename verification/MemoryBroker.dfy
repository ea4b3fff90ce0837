/** The memory broker's streams: one in-place log per stream name, created on first use,
swept every second, and forgotten when idle for too long. */
module MemoryBroker {
  import opened Basics
  import opened StreamLog
  import H = StreamHistory

  datatype StreamMessage = StreamMessage(stream: string, data: string, transient: bool, offset: nat, epoch: string)

  // ---------- Specification ----------

  type Streams = map<string, Log>

  function Current(v: Streams, name: string): Log {
    if name in v then v[name] else EMPTY_LOG
  }

  function SweepSpec(v: Streams, ttl: int, now: int): Streams {
    map n | n in v && ExpireSpec(v[n], ttl, now).deadline >= now :: ExpireSpec(v[n], ttl, now)
  }

  function ToMessages(name: string, epoch: string, es: seq<Entry>): (r: seq<StreamMessage>)
    ensures |r| == |es| && Labelled(r, name, epoch, es)
  {
    seq(|es|, i requires 0 <= i < |es| => StreamMessage(name, es[i].data, false, es[i].offset, epoch))
  }

  // One message for each entry, in order, with the names of its stream and epoch.
  ghost predicate Labelled(ms: seq<StreamMessage>, name: string, epoch: string, es: seq<Entry>) {
    && |ms| == |es|
    && forall i :: 0 <= i < |ms| ==>
         && ms[i].data == es[i].data && ms[i].offset == es[i].offset
         && ms[i].stream == name && ms[i].epoch == epoch && !ms[i].transient
  }

  // The newest retained position; offset 0 doubles as the mark of an empty stream.
  function PeakSpec(l: Log, epoch: string): Option<(nat, string)> {
    if l.data == [] || l.data[|l.data| - 1].offset == 0 then None
    else Some((l.data[|l.data| - 1].offset, epoch))
  }

  datatype Op = Broadcast(name: string, data: string, transient: bool, at: int) | Tick(at: int)

  function Step(v: Streams, op: Op, conf: H.Conf): Streams
    requires conf.limit >= 1
  {
    match op
    case Broadcast(name, data, transient, now) =>
      if transient then v else v[name := AddSpec(Current(v, name), data, conf.ttl, conf.limit, now)]
    case Tick(now) => SweepSpec(v, conf.ttl, now)
  }

  function Run(ops: seq<Op>, conf: H.Conf): Streams
    requires conf.limit >= 1
  {
    if ops == [] then map[] else Step(Run(ops[..|ops| - 1], conf), ops[|ops| - 1], conf)
  }

  // What one stream sees of a run over many streams.
  function Project(ops: seq<Op>, name: string): (r: seq<H.Op>)
    ensures |r| <= |ops|
  {
    if ops == [] then [] else
    var rest := Project(ops[..|ops| - 1], name);
    match ops[|ops| - 1]
    case Broadcast(n, d, t, now) => if n == name then rest + [H.Broadcast(d, t, now)] else rest
    case Tick(now) => rest + [H.Tick(now)]
  }

  // The broker holds for this stream what the stream alone would.
  ghost predicate Agrees(v: Streams, name: string, c: H.Channel) {
    (name in v <==> c.log.Some?) && (name in v ==> v[name] == c.log.value)
  }

  lemma NothingAgrees(name: string)
    ensures Agrees(map[], name, H.FRESH)
  {
  }

  lemma StepAgrees(v: Streams, op: Op, name: string, c: H.Channel, conf: H.Conf)
    requires conf.limit >= 1 && Agrees(v, name, c)
    ensures var w := Step(v, op, conf);
            match op
            case Broadcast(n, d, t, now) =>
              Agrees(w, name, if n == name then H.Step(c, H.Broadcast(d, t, now), conf) else c)
            case Tick(now) => Agrees(w, name, H.Step(c, H.Tick(now), conf))
  {
    hide AddSpec, ExpireSpec;
  }

  // Streams do not interfere: each behaves as if it were alone.
  lemma {:induction false} Independent(ops: seq<Op>, name: string, conf: H.Conf)
    requires conf.limit >= 1
    ensures Agrees(Run(ops, conf), name, H.Run(H.FRESH, Project(ops, name), conf))
  {
    hide Step, H.Step, Agrees;
    if ops == [] {
      NothingAgrees(name);
    } else {
      var init, op := ops[..|ops| - 1], ops[|ops| - 1];
      Independent(init, name, conf);
      var before, after := Project(init, name), Project(ops, name);
      StepAgrees(Run(init, conf), op, name, H.Run(H.FRESH, before, conf), conf);
      if !(op.Broadcast? && op.name != name) {
        assert after[..|after| - 1] == before;
      }
    }
  }

  // ---------- Implementation ----------

  class MemStream {
    const ttl: int
    const limit: nat
    var offset: nat
    var deadline: int
    var low: nat
    var data: seq<Entry>

    ghost function View(): Log
      reads this
    {
      Log(offset, deadline, low, data)
    }

    constructor (ttl: int, limit: nat)
      ensures this.ttl == ttl && this.limit == limit && View() == EMPTY_LOG
    {
      this.ttl, this.limit := ttl, limit;
      offset, deadline, low, data := 0, 0, 0, [];
    }

    method AppendEntry(e: Entry, now: int)
      requires limit >= 1
      modifies this
      ensures View() == AppendSpec(old(View()), e, ttl, limit, now)
    {
      data := data + [e];
      if |data| > limit {
        data := data[1..];
        low := data[0].offset;
      }
      if low == 0 {
        low := data[0].offset;
      }
      deadline := now + ttl * 10;
    }

    method Add(text: string, now: int) returns (o: nat)
      requires limit >= 1
      modifies this
      ensures View() == AddSpec(old(View()), text, ttl, limit, now) && o == offset
    {
      offset := Next(offset);
      AppendEntry(Entry(now, offset, text), now);
      o := offset;
    }

    // `t` is absent when the producer gave no timestamp.
    method Insert(text: string, at: nat, t: Option<int>, now: int) returns (r: Result<nat>)
      requires limit >= 1
      modifies this
      ensures var s := InsertSpec(old(View()), text, at, if t.Some? then t.value else now, ttl, limit, now);
              && (s.Err? ==> r == Err(s.reason) && View() == old(View()))
              && (s.Ok? ==> r == Ok(at) && View() == s.value)
    {
      var ts := if t.Some? then t.value else now;
      if offset >= at {
        return Err(Taken);
      }
      offset := at;
      AppendEntry(Entry(ts, at, text), now);
      r := Ok(offset);
    }

    method Expire(now: int)
      modifies this
      ensures View() == ExpireSpec(old(View()), ttl, now)
    {
      var cut := 0;
      while cut < |data| && data[cut].timestamp < now - ttl
        invariant cut <= |data|
        invariant forall i :: 0 <= i < cut ==> data[i].timestamp < now - ttl
      {
        cut := cut + 1;
      }
      assert cut == Stale(data, now - ttl);
      data := data[cut..];
      low := if |data| > 0 then data[0].offset else 0;
    }

    method Peak() returns (o: nat)
      ensures data == [] ==> o == 0
      ensures data != [] ==> o == data[|data| - 1].offset
      // In an ordered log that is the newest offset retained, zero standing for none.
      ensures Ordered(View()) ==> (o == 0 <==> data == []) && forall e :: e in data ==> e.offset <= o
    {
      o := if |data| == 0 then 0 else data[|data| - 1].offset;
    }

    method FilterByOffset(k: nat) returns (r: Result<seq<Entry>>)
      requires k < U64
      ensures r == From(View(), k)
    {
      if low > k {
        return Err(TooOld);
      }
      if low == 0 {
        return Err(Empty);
      }
      var start := Next(k - low);
      if start > |data| {
        return Err(TooNew);
      }
      var found := [];
      for i := start to |data|
        invariant found == data[start..i]
      {
        found := found + [data[i]];
      }
      assert data[start..] == data[start..|data|];
      r := Ok(found);
    }

    method FilterByTime(since: int) returns (r: seq<Entry>)
      ensures r == StreamLog.Since(data, since)
    {
      r := [];
      for i := 0 to |data|
        invariant r == StreamLog.Since(data[..i], since)
      {
        assert data[..i + 1][..i] == data[..i];
        if data[i].timestamp >= since {
          r := r + [data[i]];
        }
      }
      assert data[..|data|] == data;
    }
  }

  // Only one stream was written to.
  lemma OneChanged(v: Streams, w: Streams, name: string)
    requires name in w && w.Keys == v.Keys && forall n :: n in v && n != name ==> w[n] == v[n]
    ensures w == v[name := w[name]]
  {
  }

  // The streams in `todo` are still to be expired.
  function PartlyExpired(v: Streams, todo: set<string>, ttl: int, now: int): (w: Streams)
    ensures w.Keys == v.Keys
  {
    map n | n in v :: if n in todo then v[n] else ExpireSpec(v[n], ttl, now)
  }

  lemma NoneExpired(v: Streams, ttl: int, now: int)
    ensures PartlyExpired(v, v.Keys, ttl, now) == v
  {
  }

  lemma OneMoreExpired(v: Streams, todo: set<string>, n: string, ttl: int, now: int)
    requires n in todo && n in v
    ensures var w := PartlyExpired(v, todo, ttl, now);
            PartlyExpired(v, todo - {n}, ttl, now) == w[n := ExpireSpec(w[n], ttl, now)]
  {
    hide ExpireSpec;
  }

  lemma SweptStreams(v: Streams, w: Streams, gone: set<string>, ttl: int, now: int)
    requires w == PartlyExpired(v, {}, ttl, now) && gone == set n | n in w && w[n].deadline < now
    ensures w - gone == SweepSpec(v, ttl, now)
  {
    hide ExpireSpec;
  }

  class Memory {
    const ttl: int
    const limit: nat
    var epoch: string
    var streams: map<string, MemStream>

    ghost predicate Valid()
      reads this, streams.Values
    {
      && limit >= 1
      && (forall n :: n in streams ==> streams[n].ttl == ttl && streams[n].limit == limit)
      && (forall m, n :: m in streams && n in streams && m != n ==> streams[m] != streams[n])
    }

    ghost function View(): Streams
      reads this, streams.Values
    {
      map n | n in streams :: streams[n].View()
    }

    constructor (ttl: int, limit: nat, epoch: string)
      requires limit >= 1
      ensures Valid() && View() == map[] && this.epoch == epoch && this.ttl == ttl && this.limit == limit
    {
      this.ttl, this.limit, this.epoch, this.streams := ttl, limit, epoch, map[];
    }

    method FindOrCreate(name: string) returns (s: MemStream)
      requires Valid()
      modifies this`streams
      ensures Valid() && name in streams && streams[name] == s
      ensures forall v :: v in streams.Values ==> v in old(streams.Values) || fresh(v)
      ensures streams.Keys == old(streams.Keys) + {name}
      ensures forall n :: n in old(streams) ==> streams[n] == old(streams[n])
      ensures s.View() == Current(old(View()), name) && View() == old(View())[name := s.View()]
      ensures limit >= 1
    {
      if name !in streams {
        var created := new MemStream(ttl, limit);
        streams := streams[name := created];
      }
      s := streams[name];
    }

    // Appends to a stream that is there.
    method AddTo(name: string, text: string, now: int) returns (o: nat)
      requires Valid() && name in streams
      modifies streams[name]
      ensures Valid() && View() == old(View())[name := AddSpec(old(View())[name], text, ttl, limit, now)]
      ensures o == View()[name].offset
    {
      hide AddSpec;
      ghost var v := View();
      o := streams[name].Add(text, now);
      OneChanged(v, View(), name);
    }

    method InsertTo(name: string, text: string, at: nat, t: Option<int>, now: int) returns (r: Result<nat>)
      requires Valid() && name in streams
      modifies streams[name]
      ensures Valid()
      ensures var s := InsertSpec(old(View())[name], text, at, if t.Some? then t.value else now, ttl, limit, now);
              && (s.Err? ==> r == Err(s.reason) && View() == old(View()))
              && (s.Ok? ==> r == Ok(at) && View() == old(View())[name := s.value])
    {
      hide InsertSpec;
      ghost var v := View();
      r := streams[name].Insert(text, at, t, now);
      OneChanged(v, View(), name);
    }

    // Returns what is handed to the broadcaster.
    method HandleBroadcast(msg: StreamMessage, now: int) returns (sent: StreamMessage)
      requires Valid()
      modifies this`streams, streams.Values
      ensures Valid()
      ensures View() == Step(old(View()), Broadcast(msg.stream, msg.data, msg.transient, now), H.Conf(ttl, limit))
      ensures msg.transient ==> sent == msg
      ensures !msg.transient ==> sent == msg.(offset := View()[msg.stream].offset, epoch := epoch)
    {
      hide AddSpec, Current, Memory.Valid, Memory.View;
      if msg.transient {
        return msg;
      }
      var s := FindOrCreate(msg.stream);
      var offset := AddTo(msg.stream, msg.data, now);
      sent := msg.(offset := offset, epoch := epoch);
    }

    method Store(name: string, data: string, at: nat, t: Option<int>, now: int) returns (r: Result<nat>)
      requires Valid()
      modifies this`streams, streams.Values
      ensures Valid()
      ensures var was := Current(old(View()), name);
              var s := InsertSpec(was, data, at, if t.Some? then t.value else now, ttl, limit, now);
              && (s.Err? ==> r == Err(s.reason) && View() == old(View())[name := was])
              && (s.Ok? ==> r == Ok(at) && View() == old(View())[name := s.value])
    {
      hide InsertSpec, Current, Memory.Valid, Memory.View;
      var s := FindOrCreate(name);
      r := InsertTo(name, data, at, t, now);
    }

    method HistoryFrom(name: string, wanted: string, k: nat) returns (r: Result<seq<StreamMessage>>)
      requires Valid() && k < U64
      ensures r.Ok? <==> wanted == epoch && name in streams && From(View()[name], k).Ok?
      ensures wanted != epoch ==> r == Err(UnknownEpoch)
      ensures wanted == epoch && name !in streams ==> r == Err(NoStream)
      ensures wanted == epoch && name in streams && r.Err? ==> r.reason == From(View()[name], k).reason
      ensures r.Ok? ==> Labelled(r.value, name, epoch, From(View()[name], k).value)
    {
      if wanted != epoch {
        return Err(UnknownEpoch);
      }
      if name !in streams {
        return Err(NoStream);
      }
      var f := streams[name].FilterByOffset(k);
      if f.Err? {
        return Err(f.reason);
      }
      r := Ok(ToMessages(name, epoch, f.value));
    }

    method HistorySince(name: string, since: int) returns (r: seq<StreamMessage>)
      requires Valid()
      ensures Labelled(r, name, epoch, StreamLog.Since(Current(View(), name).data, since))
    {
      if name !in streams {
        return [];
      }
      var f := streams[name].FilterByTime(since);
      r := ToMessages(name, epoch, f);
    }

    // The position of the newest retained message, if any.
    method Peak(name: string) returns (r: Option<(nat, string)>)
      requires Valid()
      ensures r == PeakSpec(Current(View(), name), epoch)
    {
      if name !in streams {
        return None;
      }
      var o := streams[name].Peak();
      r := if o == 0 then None else Some((o, epoch));
    }

    method ExpireOne(name: string, now: int) returns (idle: bool)
      requires Valid() && name in streams
      modifies streams[name]
      ensures Valid() && View() == old(View())[name := ExpireSpec(old(View())[name], ttl, now)]
      ensures idle == (View()[name].deadline < now)
    {
      hide ExpireSpec;
      ghost var v := View();
      streams[name].Expire(now);
      idle := streams[name].deadline < now;
      OneChanged(v, View(), name);
    }

    // Expires every stream and says which ones are idle.
    method ExpireAll(now: int) returns (toDelete: set<string>)
      requires Valid()
      modifies streams.Values
      ensures Valid() && View() == PartlyExpired(old(View()), {}, ttl, now)
      ensures toDelete == set n | n in View() && View()[n].deadline < now
    {
      hide ExpireSpec, Memory.Valid, Memory.View, PartlyExpired;
      ghost var v := View();
      SameNames();
      var todo := streams.Keys;
      toDelete := {};
      NoneExpired(v, ttl, now);
      while todo != {}
        invariant Valid() && todo <= streams.Keys == v.Keys && View() == PartlyExpired(v, todo, ttl, now)
        invariant toDelete == set n | n in View() && n !in todo && View()[n].deadline < now
      {
        var n :| n in todo;
        OneMoreExpired(v, todo, n, ttl, now);
        var idle := ExpireOne(n, now);
        if idle {
          toDelete := toDelete + {n};
        }
        todo := todo - {n};
      }
    }

    lemma SameNames()
      ensures View().Keys == streams.Keys
    {
    }

    method Sweep(now: int)
      requires Valid()
      modifies this`streams, streams.Values
      ensures Valid() && View() == SweepSpec(old(View()), ttl, now)
    {
      hide ExpireSpec, SweepSpec, PartlyExpired, Memory.Valid, Memory.View;
      ghost var v := View();
      var toDelete := ExpireAll(now);
      SweptStreams(v, View(), toDelete, ttl, now);
      Drop(toDelete);
    }

    method Drop(names: set<string>)
      requires Valid()
      modifies this`streams
      ensures Valid() && View() == old(View()) - names && streams.Values <= old(streams.Values)
    {
      streams := streams - names;
    }
  }
}
