/** Every run of one stream of the memory broker: broadcasts, transient broadcasts and
expiry sweeps, including the sweep that forgets an idle stream altogether. */
module StreamHistory {
  import opened Basics
  import opened StreamLog

  datatype Conf = Conf(ttl: int, limit: nat)

  // `sent` lists all non-transient messages ever broadcast to the stream, and `start` is
  // the position in it of the first message the current log was created for.
  datatype Channel = Channel(log: Option<Log>, sent: seq<string>, start: nat)

  datatype Op = Broadcast(data: string, transient: bool, at: int) | Tick(at: int)

  const FRESH := Channel(None, [], 0)

  function Step(c: Channel, op: Op, conf: Conf): Channel
    requires conf.limit >= 1
  {
    match op
    case Broadcast(data, transient, now) =>
      if transient then c else
      var l := if c.log.None? then EMPTY_LOG else c.log.value;
      Channel(Some(AddSpec(l, data, conf.ttl, conf.limit, now)), c.sent + [data], c.start)
    case Tick(now) =>
      if c.log.None? then c else
      var l := ExpireSpec(c.log.value, conf.ttl, now);
      if l.deadline < now then Channel(None, c.sent, |c.sent|) else c.(log := Some(l))
  }

  function Run(c: Channel, ops: seq<Op>, conf: Conf): Channel
    requires conf.limit >= 1
  {
    if ops == [] then c else Step(Run(c, ops[..|ops| - 1], conf), ops[|ops| - 1], conf)
  }

  function HistoryFrom(c: Channel, k: nat): Result<seq<Entry>>
    requires k < U64
  {
    if c.log.None? then Err(NoStream) else From(c.log.value, k)
  }

  // Lowest and highest offsets that can be resumed from; 0 and 0 when there are none.
  function Low(c: Channel): nat {
    if c.log.None? then 0 else c.log.value.low
  }

  function Last(c: Channel): nat {
    if c.log.None? then 0 else c.log.value.offset
  }

  // Entries are a contiguous tail of the given messages, and the offset of a message is
  // its position among them.
  ghost predicate Numbered(data: seq<Entry>, sent: seq<string>) {
    && |data| <= |sent|
    && forall i :: 0 <= i < |data| ==>
         data[i].offset == |sent| - |data| + 1 + i && data[i].data == sent[|sent| - |data| + i]
  }

  ghost predicate Retains(l: Log, sent: seq<string>) {
    Ordered(l) && l.offset == |sent| && Numbered(l.data, sent)
  }

  ghost predicate Tracks(c: Channel) {
    && c.start <= |c.sent|
    && match c.log
       case None => c.start == |c.sent|
       case Some(l) => l.offset >= 1 && Retains(l, c.sent[c.start..])
  }

  lemma StartInSent(c: Channel)
    requires Tracks(c)
    ensures c.start <= |c.sent|
  {
  }

  lemma NumberedAppend(data: seq<Entry>, sent: seq<string>, e: Entry, drop: nat)
    requires Numbered(data, sent) && e.offset == |sent| + 1 && drop <= 1
    ensures Numbered((data + [e])[drop..], sent + [e.data])
  {
    var r := (data + [e])[drop..];
    forall i | 0 <= i < |r|
      ensures r[i].offset == |sent| + 2 - |r| + i && r[i].data == (sent + [e.data])[|sent| + 1 - |r| + i]
    {
      assert r[i] == (data + [e])[i + drop];
    }
  }

  lemma AddRetains(l: Log, sent: seq<string>, data: string, now: int, conf: Conf)
    requires conf.limit >= 1 && Retains(l, sent) && |sent| + 1 < U64
    ensures Retains(AddSpec(l, data, conf.ttl, conf.limit, now), sent + [data])
  {
    hide Ordered, Numbered;
    var o := |sent| + 1;
    var e := Entry(now, o, data);
    AddOrdered(l, data, conf.ttl, conf.limit, now);
    NumberedAppend(l.data, sent, e, if |l.data| + 1 > conf.limit then 1 else 0);
  }

  lemma AddTracks(c: Channel, data: string, now: int, conf: Conf)
    requires conf.limit >= 1 && Tracks(c) && |c.sent| + 1 < U64
    ensures Tracks(Step(c, Broadcast(data, false, now), conf))
  {
    var l := if c.log.None? then EMPTY_LOG else c.log.value;
    AddRetains(l, c.sent[c.start..], data, now, conf);
    assert (c.sent + [data])[c.start..] == c.sent[c.start..] + [data];
  }

  lemma TickTracks(c: Channel, now: int, conf: Conf)
    requires conf.limit >= 1 && Tracks(c)
    ensures Tracks(Step(c, Tick(now), conf))
  {
    if c.log.Some? {
      ExpireKeepsOrder(c.log.value, conf.ttl, now);
    }
  }

  lemma StepTracks(c: Channel, op: Op, conf: Conf)
    requires conf.limit >= 1 && Tracks(c) && |c.sent| + 1 < U64
    ensures Tracks(Step(c, op, conf))
  {
    match op {
      case Broadcast(data, transient, now) =>
        if !transient { AddTracks(c, data, now, conf); }
      case Tick(now) =>
        TickTracks(c, now, conf);
    }
  }

  lemma {:induction false} RunTracks(c: Channel, ops: seq<Op>, conf: Conf)
    requires conf.limit >= 1 && Tracks(c) && |c.sent| + |ops| < U64
    ensures Tracks(Run(c, ops, conf))
    ensures |c.sent| <= |Run(c, ops, conf).sent| <= |c.sent| + |ops|
  {
    if ops != [] {
      RunTracks(c, ops[..|ops| - 1], conf);
      StepTracks(Run(c, ops[..|ops| - 1], conf), ops[|ops| - 1], conf);
    }
  }

  function Texts(es: seq<Entry>): (r: seq<string>)
    ensures |r| == |es| && forall i :: 0 <= i < |r| ==> r[i] == es[i].data
  {
    seq(|es|, i requires 0 <= i < |es| => es[i].data)
  }

  // Resuming works exactly from the retained offsets, and then yields every message sent
  // after that offset, in order, without gaps, numbered consecutively.
  lemma ResumeExact(ops: seq<Op>, conf: Conf, k: nat)
    requires conf.limit >= 1 && |ops| < U64 && k < U64
    ensures var c := Run(FRESH, ops, conf);
            var r := HistoryFrom(c, k);
            && (r.Ok? <==> 1 <= Low(c) <= k <= Last(c))
            && (r.Ok? ==> c.start + k <= |c.sent| && Texts(r.value) == c.sent[c.start + k..])
            && (r.Ok? ==> forall i :: 0 <= i < |r.value| ==> r.value[i].offset == k + 1 + i)
  {
    hide Run, Tracks, Texts, HistoryFrom;
    NothingSent();
    RunTracks(FRESH, ops, conf);
    TrackedResume(Run(FRESH, ops, conf), k);
  }

  lemma NothingSent()
    ensures Tracks(FRESH)
  {
  }

  lemma TrackedResume(c: Channel, k: nat)
    requires Tracks(c) && k < U64
    ensures var r := HistoryFrom(c, k);
            && (r.Ok? <==> 1 <= Low(c) <= k <= Last(c))
            && (r.Ok? ==> c.start + k <= |c.sent| && Texts(r.value) == c.sent[c.start + k..])
            && (r.Ok? ==> forall i :: 0 <= i < |r.value| ==> r.value[i].offset == k + 1 + i)
  {
    hide From, Ordered;
    if c.log.Some? {
      var l := c.log.value;
      FromInRange(l, k);
      LastRetained(l, c.sent[c.start..]);
      if From(l, k).Ok? {
        NumberedSuffix(l.data, c.sent[c.start..], k - l.low + 1);
        assert c.sent[c.start..][k..] == c.sent[c.start + k..];
      }
    }
  }

  lemma LastRetained(l: Log, sent: seq<string>)
    requires Retains(l, sent)
    ensures l.data != [] ==> l.low == |sent| - |l.data| + 1
    ensures l.data == [] <==> l.low == 0
  {
  }

  lemma NumberedSuffix(data: seq<Entry>, sent: seq<string>, n: nat)
    requires Numbered(data, sent) && n <= |data|
    ensures Texts(data[n..]) == sent[|sent| - |data| + n..]
    ensures forall i :: 0 <= i < |data[n..]| ==> data[n..][i].offset == |sent| - |data| + n + 1 + i
  {
  }

  lemma {:induction false} StartGrows(c: Channel, ops: seq<Op>, conf: Conf)
    requires conf.limit >= 1 && c.start <= |c.sent|
    ensures var d := Run(c, ops, conf);
            && c.sent <= d.sent && d.start <= |d.sent|
            && (d.start == c.start || d.start >= |c.sent|)
  {
    if ops != [] {
      StartGrows(c, ops[..|ops| - 1], conf);
    }
  }

  lemma {:induction false} RunConcat(c: Channel, a: seq<Op>, b: seq<Op>, conf: Conf)
    requires conf.limit >= 1
    ensures Run(c, a + b, conf) == Run(Run(c, a, conf), b, conf)
  {
    hide Step;
    if b == [] {
      assert a + b == a;
    } else {
      RunConcat(c, a, b[..|b| - 1], conf);
      assert (a + b)[..|a + b| - 1] == a + b[..|b| - 1];
    }
  }

  // A client that knows offset k at one moment and resumes from it later gets precisely
  // the messages it missed if and only if the idle stream was not forgotten in between.
  lemma ResumeLaterIff(before: seq<Op>, after: seq<Op>, conf: Conf, k: nat)
    requires conf.limit >= 1 && |before| + |after| < U64 && k < U64
    requires 1 <= k <= Last(Run(FRESH, before, conf))
    requires HistoryFrom(Run(FRESH, before + after, conf), k).Ok?
    ensures var c := Run(FRESH, before, conf);
            var d := Run(FRESH, before + after, conf);
            c.start + k <= |d.sent| &&
            (Texts(HistoryFrom(d, k).value) == d.sent[c.start + k..] <==> d.start == c.start)
  {
    var c := Run(FRESH, before, conf);
    var d := Run(FRESH, before + after, conf);
    RunTracks(FRESH, before, conf);
    RunConcat(FRESH, before, after, conf);
    StartGrows(c, after, conf);
    ResumeExact(before + after, conf, k);
  }

  // The forgotten stream restarts at offset 1 in the same epoch, so a stale position can
  // silently skip a message.
  lemma ForgottenStreamSkips()
    ensures var conf := Conf(1, 10);
            var before := [Broadcast("a", false, 0)];
            var after := [Tick(100), Broadcast("b", false, 100), Broadcast("c", false, 100)];
            var r := HistoryFrom(Run(FRESH, before + after, conf), 1);
            && Last(Run(FRESH, before, conf)) == 1
            && r.Ok? && Texts(r.value) == ["c"]
  {
    var conf := Conf(1, 10);
    var before := [Broadcast("a", false, 0)];
    var after := [Tick(100), Broadcast("b", false, 100), Broadcast("c", false, 100)];
    var all := before + after;
    assert before[..0] == [];
    var c1 := Run(FRESH, before, conf);
    assert all[..1] == before;
    assert all[..2][..1] == before && all[..3][..2] == all[..2] && all[..4][..3] == all[..3] && all[..4] == all;
    var c2 := Run(FRESH, all[..2], conf);
    assert c2 == Step(c1, Tick(100), conf);
    assert c2.log.None?;
    var c3 := Run(FRESH, all[..3], conf);
    assert c3.log.value.data == [Entry(100, 1, "b")];
    var c4 := Run(FRESH, all, conf);
    assert c4.log.value.data == [Entry(100, 1, "b"), Entry(100, 2, "c")];
    assert HistoryFrom(c4, 1).value == [Entry(100, 2, "c")];
  }

  // ---------- What is retained, and for how long ----------

  // When each message of `sent` was broadcast, when the last sweep took place, and the time of
  // the last operation.
  function Stamps(ops: seq<Op>): seq<int> {
    if ops == [] then [] else
    var op := ops[|ops| - 1];
    Stamps(ops[..|ops| - 1]) + if op.Broadcast? && !op.transient then [op.at] else []
  }

  function LastTick(ops: seq<Op>): Option<int> {
    if ops == [] then None
    else if ops[|ops| - 1].Tick? then Some(ops[|ops| - 1].at)
    else LastTick(ops[..|ops| - 1])
  }

  ghost predicate Chronological(ops: seq<Op>) {
    forall i, j :: 0 <= i < j < |ops| ==> ops[i].at <= ops[j].at
  }

  ghost predicate Sorted(stamps: seq<int>, latest: int) {
    && (forall i, j :: 0 <= i < j < |stamps| ==> stamps[i] <= stamps[j])
    && (forall i :: 0 <= i < |stamps| ==> stamps[i] <= latest)
  }

  predicate Young(stamp: int, tick: Option<int>, ttl: int) {
    tick.Some? ==> stamp >= tick.value - ttl
  }

  // Entry i is the message at position |sent| - |data| + i, as old as it says; what is missing
  // was evicted by the limit or had outlived the TTL at the last sweep.
  ghost predicate Kept(data: seq<Entry>, start: nat, stamps: seq<int>, tick: Option<int>, conf: Conf) {
    && |data| <= |stamps| && |data| <= conf.limit
    && (forall i :: 0 <= i < |data| ==>
          data[i].timestamp == stamps[|stamps| - |data| + i] && Young(data[i].timestamp, tick, conf.ttl))
    && (forall j :: start <= j < |stamps| - |data| ==>
          |stamps| - j > conf.limit || !Young(stamps[j], tick, conf.ttl))
  }

  lemma AddKeeps(l: Log, start: nat, stamps: seq<int>, tick: Option<int>, text: string, now: int, conf: Conf)
    requires conf.limit >= 1 && conf.ttl >= 0 && Kept(l.data, start, stamps, tick, conf)
    requires tick.Some? ==> tick.value <= now
    ensures Kept(AddSpec(l, text, conf.ttl, conf.limit, now).data, start, stamps + [now], tick, conf)
  {
    var e := Entry(now, Next(l.offset), text);
    var drop := if |l.data| + 1 > conf.limit then 1 else 0;
    var data := AddSpec(l, text, conf.ttl, conf.limit, now).data;
    assert data == (l.data + [e])[drop..];
    hide AddSpec;
    forall i | 0 <= i < |data|
      ensures data[i].timestamp == (stamps + [now])[|stamps| + 1 - |data| + i]
      ensures Young(data[i].timestamp, tick, conf.ttl)
    {
      assert data[i] == (l.data + [e])[i + drop];
    }
  }

  // Entries are as sorted as the times they were broadcast at.
  lemma KeptSorted(data: seq<Entry>, start: nat, stamps: seq<int>, tick: Option<int>, conf: Conf, now: int,
                   i: nat, j: nat)
    requires Kept(data, start, stamps, tick, conf) && Sorted(stamps, now) && i <= j < |data|
    ensures data[i].timestamp <= data[j].timestamp
  {
    hide Young;
  }

  lemma CutKeeps(data: seq<Entry>, cut: nat, start: nat, stamps: seq<int>, tick: Option<int>, now: int, conf: Conf)
    requires Kept(data, start, stamps, tick, conf) && cut <= |data|
    requires forall i :: 0 <= i < cut ==> data[i].timestamp < now - conf.ttl
    requires forall i :: cut <= i < |data| ==> data[i].timestamp >= now - conf.ttl
    requires tick.Some? ==> tick.value <= now
    ensures Kept(data[cut..], start, stamps, Some(now), conf)
  {
    var first := |stamps| - |data|;
    forall j | start <= j < first + cut
      ensures |stamps| - j > conf.limit || !Young(stamps[j], Some(now), conf.ttl)
    {
      if j >= first {
        assert data[j - first].timestamp == stamps[j];
      }
    }
  }

  lemma TickKeeps(l: Log, start: nat, stamps: seq<int>, tick: Option<int>, now: int, conf: Conf)
    requires Kept(l.data, start, stamps, tick, conf) && Sorted(stamps, now)
    requires tick.Some? ==> tick.value <= now
    ensures Kept(ExpireSpec(l, conf.ttl, now).data, start, stamps, Some(now), conf)
  {
    hide Kept, Sorted, Stale;
    var cut := Stale(l.data, now - conf.ttl);
    forall i | cut <= i < |l.data| ensures l.data[i].timestamp >= now - conf.ttl {
      KeptSorted(l.data, start, stamps, tick, conf, now, cut, i);
    }
    CutKeeps(l.data, cut, start, stamps, tick, now, conf);
  }

  ghost predicate ChannelKept(c: Channel, stamps: seq<int>, tick: Option<int>, conf: Conf) {
    && |stamps| == |c.sent| && (c.log.None? ==> c.start == |c.sent|)
    && (c.log.Some? ==>
          && Kept(c.log.value.data, c.start, stamps, tick, conf)
          && |c.sent| > 0 && c.log.value.deadline == stamps[|c.sent| - 1] + conf.ttl * 10)
  }

  lemma BroadcastKeeps(c: Channel, stamps: seq<int>, tick: Option<int>, text: string, now: int, conf: Conf)
    requires conf.limit >= 1 && conf.ttl >= 0 && ChannelKept(c, stamps, tick, conf)
    requires tick.Some? ==> tick.value <= now
    ensures ChannelKept(Step(c, Broadcast(text, false, now), conf), stamps + [now], tick, conf)
  {
    hide Kept, AddSpec;
    var l := if c.log.None? then EMPTY_LOG else c.log.value;
    if c.log.None? {
      NothingKept(c.start, stamps, tick, conf);
    }
    AddKeeps(l, c.start, stamps, tick, text, now, conf);
    AddDeadline(l, text, now, conf);
  }

  lemma SweepKeeps(c: Channel, stamps: seq<int>, tick: Option<int>, now: int, conf: Conf)
    requires conf.limit >= 1 && ChannelKept(c, stamps, tick, conf) && Sorted(stamps, now)
    requires tick.Some? ==> tick.value <= now
    ensures ChannelKept(Step(c, Tick(now), conf), stamps, Some(now), conf)
  {
    hide Kept, ExpireSpec, Sorted;
    if c.log.Some? {
      TickKeeps(c.log.value, c.start, stamps, tick, now, conf);
      ExpireDeadline(c.log.value, now, conf);
    }
  }

  lemma {:induction false} RunsKeep(ops: seq<Op>, conf: Conf)
    requires conf.limit >= 1 && conf.ttl >= 0 && Chronological(ops)
    ensures ChannelKept(Run(FRESH, ops, conf), Stamps(ops), LastTick(ops), conf)
  {
    hide ChannelKept, Sorted, Chronological, Step;
    if ops == [] {
      FreshKept(conf);
    } else {
      StampsSorted(ops);
      var init := ops[..|ops| - 1];
      RunsKeep(init, conf);
      var c := Run(FRESH, init, conf);
      match ops[|ops| - 1] {
        case Broadcast(text, transient, now) =>
          if transient {
            TransientIgnored(c, text, now, conf);
            assert Stamps(ops) == Stamps(init);
          } else {
            BroadcastKeeps(c, Stamps(init), LastTick(init), text, now, conf);
          }
        case Tick(now) =>
          assert Stamps(ops) == Stamps(init);
          SweepKeeps(c, Stamps(init), LastTick(init), now, conf);
      }
    }
  }

  lemma FreshKept(conf: Conf)
    ensures ChannelKept(FRESH, [], None, conf)
  {
  }

  lemma TransientIgnored(c: Channel, text: string, now: int, conf: Conf)
    requires conf.limit >= 1
    ensures Step(c, Broadcast(text, true, now), conf) == c
  {
  }

  lemma NothingKept(start: nat, stamps: seq<int>, tick: Option<int>, conf: Conf)
    requires start == |stamps|
    ensures Kept([], start, stamps, tick, conf)
  {
  }

  lemma AddDeadline(l: Log, text: string, now: int, conf: Conf)
    requires conf.limit >= 1
    ensures AddSpec(l, text, conf.ttl, conf.limit, now).deadline == now + conf.ttl * 10
  {
  }

  lemma ExpireDeadline(l: Log, now: int, conf: Conf)
    ensures ExpireSpec(l, conf.ttl, now).deadline == l.deadline
  {
  }

  lemma {:induction false} StampsSorted(ops: seq<Op>)
    requires ops != [] && Chronological(ops)
    ensures Sorted(Stamps(ops), ops[|ops| - 1].at) && Chronological(ops[..|ops| - 1])
    ensures LastTick(ops).Some? ==> LastTick(ops).value <= ops[|ops| - 1].at
    ensures LastTick(ops[..|ops| - 1]).Some? ==> LastTick(ops[..|ops| - 1]).value <= ops[|ops| - 1].at
  {
    var init := ops[..|ops| - 1];
    if init != [] {
      StampsSorted(init);
      assert init[|init| - 1] == ops[|init| - 1];
    }
  }

  // In a run whose clock does not go back, a message of the current log can still be read if
  // and only if it is among the newest ones the limit allows and was young enough at the last
  // sweep; and the log itself lives on for ten TTLs after its last message.
  lemma RetainedIff(ops: seq<Op>, conf: Conf, j: nat)
    requires conf.limit >= 1 && conf.ttl >= 0 && Chronological(ops)
    requires Run(FRESH, ops, conf).log.Some?
    requires Run(FRESH, ops, conf).start <= j < |Run(FRESH, ops, conf).sent|
    ensures var c := Run(FRESH, ops, conf);
            && |Stamps(ops)| == |c.sent|
            && (j >= |c.sent| - |c.log.value.data| <==>
                  |c.sent| - j <= conf.limit && Young(Stamps(ops)[j], LastTick(ops), conf.ttl))
            && forall now :: Step(c, Tick(now), conf).log.None? <==> now > Stamps(ops)[|c.sent| - 1] + conf.ttl * 10
  {
    hide Run, Stamps, LastTick, Young, Chronological;
    RunsKeep(ops, conf);
    var c := Run(FRESH, ops, conf);
    KeptIff(c, Stamps(ops), LastTick(ops), conf, j);
    forall now ensures Step(c, Tick(now), conf).log.None? <==> now > Stamps(ops)[|c.sent| - 1] + conf.ttl * 10 {
      ExpireDeadline(c.log.value, now, conf);
    }
  }

  lemma KeptIff(c: Channel, stamps: seq<int>, tick: Option<int>, conf: Conf, j: nat)
    requires ChannelKept(c, stamps, tick, conf) && c.log.Some? && c.start <= j < |c.sent|
    ensures j >= |c.sent| - |c.log.value.data| <==> |c.sent| - j <= conf.limit && Young(stamps[j], tick, conf.ttl)
  {
    hide Young;
    var data := c.log.value.data;
    if j >= |c.sent| - |data| {
      assert data[j - (|c.sent| - |data|)].timestamp == stamps[j];
    }
  }

  // ---------- When a log is dropped, in terms of the operations alone ----------

  // From operation `n` on, no sweep came more than ten TTLs after the last message before it.
  ghost predicate NeverIdle(ops: seq<Op>, n: nat, ttl: int) {
    forall i :: n <= i < |ops| && ops[i].Tick? && Stamps(ops[..i]) != [] ==>
      ops[i].at <= Stamps(ops[..i])[|Stamps(ops[..i])| - 1] + ttl * 10
  }

  lemma NeverIdleStep(ops: seq<Op>, n: nat, ttl: int)
    requires n < |ops|
    ensures var init, op := ops[..|ops| - 1], ops[|ops| - 1];
            NeverIdle(ops, n, ttl) <==>
              && NeverIdle(init, n, ttl)
              && (op.Tick? && Stamps(init) != [] ==> op.at <= Stamps(init)[|Stamps(init)| - 1] + ttl * 10)
  {
    hide Stamps;
    var init := ops[..|ops| - 1];
    forall i | n <= i < |init| ensures init[i] == ops[i] && init[..i] == ops[..i] {
    }
  }

  lemma ChronologicalPrefix(ops: seq<Op>, n: nat)
    requires Chronological(ops) && n <= |ops|
    ensures Chronological(ops[..n])
  {
  }

  lemma RunSplit(ops: seq<Op>, n: nat, conf: Conf)
    requires conf.limit >= 1 && n <= |ops|
    ensures Run(FRESH, ops, conf) == Run(Run(FRESH, ops[..n], conf), ops[n..], conf)
  {
    hide Run;
    RunConcat(FRESH, ops[..n], ops[n..], conf);
    assert ops[..n] + ops[n..] == ops;
  }

  // One operation drops the log exactly when it is a sweep that late.
  lemma DropIff(ops: seq<Op>, conf: Conf)
    requires conf.limit >= 1 && conf.ttl >= 0 && ops != [] && Chronological(ops)
    requires Run(FRESH, ops[..|ops| - 1], conf).log.Some?
    ensures var init, op := ops[..|ops| - 1], ops[|ops| - 1];
            var c, d := Run(FRESH, init, conf), Run(FRESH, ops, conf);
            && Stamps(init) != [] && |Stamps(init)| == |c.sent|
            && d.start == if op.Tick? && op.at > Stamps(init)[|Stamps(init)| - 1] + conf.ttl * 10
                          then |c.sent| else c.start
  {
    hide Stamps, Kept, ExpireSpec, AddSpec, Chronological;
    var init, op := ops[..|ops| - 1], ops[|ops| - 1];
    ChronologicalPrefix(ops, |ops| - 1);
    RunsKeep(init, conf);
    if op.Tick? {
      ExpireDeadline(Run(FRESH, init, conf).log.value, op.at, conf);
    }
  }

  // A log that is there after `n` operations is still the same one at the end if and only if
  // the stream was never idle for too long in between.
  lemma {:induction false} SameLogIff(ops: seq<Op>, n: nat, conf: Conf)
    requires conf.limit >= 1 && conf.ttl >= 0 && Chronological(ops) && n <= |ops| < U64
    requires Run(FRESH, ops[..n], conf).log.Some?
    ensures var c, d := Run(FRESH, ops[..n], conf), Run(FRESH, ops, conf);
            && c.start < |c.sent| && (d.start == c.start || d.start >= |c.sent|)
            && (d.start == c.start ==> d.log.Some?)
            && (d.start == c.start <==> NeverIdle(ops, n, conf.ttl))
    decreases |ops|
  {
    hide Run, NeverIdle, Chronological, Stamps;
    var c, d := Run(FRESH, ops[..n], conf), Run(FRESH, ops, conf);
    RunTracks(FRESH, ops[..n], conf);
    RunTracks(FRESH, ops, conf);
    RunSplit(ops, n, conf);
    StartGrows(c, ops[n..], conf);
    if n == |ops| {
      assert ops[..n] == ops;
      NeverIdleNow(ops, conf.ttl);
    } else {
      var init := ops[..|ops| - 1];
      assert init[..n] == ops[..n];
      ChronologicalPrefix(ops, |ops| - 1);
      SameLogIff(init, n, conf);
      NeverIdleStep(ops, n, conf.ttl);
      var e := Run(FRESH, init, conf);
      RunSplit(init, n, conf);
      StartGrows(c, init[n..], conf);
      if e.start == c.start {
        DropIff(ops, conf);
      } else {
        StartStays(ops, conf);
      }
    }
  }

  lemma NeverIdleNow(ops: seq<Op>, ttl: int)
    ensures NeverIdle(ops, |ops|, ttl)
  {
  }

  lemma StartStays(ops: seq<Op>, conf: Conf)
    requires conf.limit >= 1 && ops != []
    ensures var c, d := Run(FRESH, ops[..|ops| - 1], conf), Run(FRESH, ops, conf);
            d.start == c.start || d.start == |c.sent|
  {
  }

  // So, in terms of what happened to the stream: a client that knows offset k and resumes from
  // it later gets precisely what it missed if and only if no sweep in between came more than
  // ten TTLs after the last message.
  lemma ResumeIffNeverIdle(before: seq<Op>, after: seq<Op>, conf: Conf, k: nat)
    requires conf.limit >= 1 && conf.ttl >= 0 && Chronological(before + after) && |before| + |after| < U64 && k < U64
    requires 1 <= k <= Last(Run(FRESH, before, conf))
    requires HistoryFrom(Run(FRESH, before + after, conf), k).Ok?
    ensures var c, d := Run(FRESH, before, conf), Run(FRESH, before + after, conf);
            c.start + k <= |d.sent| &&
            (Texts(HistoryFrom(d, k).value) == d.sent[c.start + k..] <==> NeverIdle(before + after, |before|, conf.ttl))
  {
    hide Run, NeverIdle, Chronological, Texts;
    ResumeLaterIff(before, after, conf, k);
    assert (before + after)[..|before|] == before;
    SameLogIff(before + after, |before|, conf);
  }

  // ---------- Reading since a time ----------

  lemma {:induction false} FirstSince(data: seq<Entry>, ts: int) returns (n: nat)
    requires forall i, j :: 0 <= i < j < |data| ==> data[i].timestamp <= data[j].timestamp
    ensures n <= |data|
    ensures forall i :: 0 <= i < |data| ==> (i >= n <==> data[i].timestamp >= ts)
  {
    n := 0;
    while n < |data| && data[n].timestamp < ts
      invariant n <= |data| && forall i :: 0 <= i < n ==> data[i].timestamp < ts
    {
      n := n + 1;
    }
  }

  // With a clock that does not go back, reading since a time gives precisely the retained
  // messages that were broadcast at that time or later, in order.
  lemma SinceIsByTime(ops: seq<Op>, conf: Conf, ts: int)
    requires conf.limit >= 1 && conf.ttl >= 0 && Chronological(ops) && ops != [] && |ops| < U64
    requires Run(FRESH, ops, conf).log.Some?
    ensures var c := Run(FRESH, ops, conf);
            var data := c.log.value.data;
            && |Stamps(ops)| == |c.sent| && |data| <= |c.sent|
            && exists m :: |c.sent| - |data| <= m <= |c.sent|
                 && Texts(Since(data, ts)) == c.sent[m..]
                 && forall j :: |c.sent| - |data| <= j < |c.sent| ==> (j >= m <==> Stamps(ops)[j] >= ts)
  {
    hide Run, Stamps, Chronological, Since, Texts, Sorted;
    RunsKeep(ops, conf);
    RunTracks(FRESH, ops, conf);
    StampsSorted(ops);
    var c := Run(FRESH, ops, conf);
    var data, first := c.log.value.data, |c.sent| - |c.log.value.data|;
    forall i, j | 0 <= i < j < |data| ensures data[i].timestamp <= data[j].timestamp {
      KeptSorted(data, c.start, Stamps(ops), LastTick(ops), conf, ops[|ops| - 1].at, i, j);
    }
    var n := FirstSince(data, ts);
    SinceSplit(data, ts, n);
    TrackedTexts(c, n);
    forall j | first <= j < |c.sent| ensures j >= first + n <==> Stamps(ops)[j] >= ts {
      assert data[j - first].timestamp == Stamps(ops)[j];
    }
  }

  lemma TrackedTexts(c: Channel, n: nat)
    requires Tracks(c) && c.log.Some? && n <= |c.log.value.data|
    ensures |c.log.value.data| <= |c.sent|
    ensures Texts(c.log.value.data[n..]) == c.sent[|c.sent| - |c.log.value.data| + n..]
  {
    hide Ordered, Texts;
    var sent := c.sent[c.start..];
    NumberedSuffix(c.log.value.data, sent, n);
    assert sent[|sent| - |c.log.value.data| + n..] == c.sent[|c.sent| - |c.log.value.data| + n..];
  }
}
