/** Durable Streams: opaque offset tokens, the history they select, and the chain of
catch-up requests a client makes by feeding each returned token back. */
module DurableStreams {
  import opened Basics
  import opened Decimal
  import opened StreamLog
  import opened MemoryBroker
  import H = StreamHistory

  const SEPARATOR := "::"
  const START := "-1"

  // ---------- Tokens ----------

  function EncodeOffset(offset: nat, epoch: string): string {
    if epoch == "" then "0" else Format(offset) + SEPARATOR + epoch
  }

  predicate Reserved(token: string) {
    token == "" || token == "0" || token == START || token == "now"
  }

  function DecodeOffset(token: string): (r: Option<(nat, string)>)
    ensures r.Some? ==> r.value.0 < U64
  {
    if Reserved(token) then Some((0, "")) else
    var parts := Split(token, SEPARATOR);
    var offset := ParseUint(parts[0]);
    if offset.None? then None
    else Some((offset.value, if |parts| > 1 then parts[1] else ""))
  }

  lemma EncodedIsNotReserved(offset: nat, epoch: string)
    requires epoch != ""
    ensures !Reserved(EncodeOffset(offset, epoch))
  {
    var d := Format(offset);
    var s := EncodeOffset(offset, epoch);
    assert s[|d|] == ':' && |s| >= 4;
  }

  lemma TokenForm(offset: nat, epoch: string)
    ensures EncodeOffset(offset, epoch) == if epoch == "" then "0" else Format(offset) + "::" + epoch
  {
  }

  // A token decodes to what it was made from exactly when its epoch does not contain the
  // separator, and is not empty unless the offset is zero.
  lemma DecodeEncodeIff(offset: nat, epoch: string)
    requires offset < U64
    ensures DecodeOffset(EncodeOffset(offset, epoch)) == Some((offset, epoch))
       <==> if epoch == "" then offset == 0 else !Occurs(epoch, SEPARATOR)
  {
    if epoch != "" {
      var d := Format(offset);
      EncodedIsNotReserved(offset, epoch);
      FindAfter(d, SEPARATOR, epoch);
      ParseFormat(offset);
      FindNone(epoch, SEPARATOR);
      var s := EncodeOffset(offset, epoch);
      assert Split(s, SEPARATOR) == [d] + Split(epoch, SEPARATOR);
      if Occurs(epoch, SEPARATOR) {
        assert |Split(epoch, SEPARATOR)[0]| < |epoch|;
      }
    }
  }

  // Otherwise the epoch is cut at its first separator.
  lemma SeparatorCutsEpoch(offset: nat, a: string, b: string)
    requires offset < U64 && ':' !in a
    ensures DecodeOffset(EncodeOffset(offset, a + SEPARATOR + b)) == Some((offset, a))
  {
    hide Format, ParseUint;
    var epoch := a + SEPARATOR + b;
    var d := Format(offset);
    EncodedIsNotReserved(offset, epoch);
    FindAfter(d, SEPARATOR, epoch);
    ParseFormat(offset);
    FindAfter(a, SEPARATOR, b);
    assert Split(EncodeOffset(offset, epoch), SEPARATOR) == [d] + Split(epoch, SEPARATOR);
    assert Split(epoch, SEPARATOR) == [a] + Split(b, SEPARATOR);
  }

  // ---------- Requests ----------

  datatype Live = CatchUp | LongPoll

  datatype Response =
    | BadRequest
    | Gone
    | Batch(messages: seq<Entry>, token: string)
    | Waits

  datatype Fetched = Unreachable | Backlog(messages: seq<Entry>)

  function FetchHistory(log: Option<Log>, epoch: string, raw: string, pos: (nat, string)): Fetched
    requires pos.0 < U64
  {
    if raw == START || raw == "0" then Backlog(if log.None? then [] else StreamLog.Since(log.value.data, 0))
    else if raw == "now" then Backlog([])
    else if pos.1 == "" || pos.1 != epoch || log.None? then Unreachable
    else
      var r := From(log.value, pos.0);
      if r.Ok? then Backlog(r.value) else Unreachable
  }

  // The next token names the last message returned, or else the head of the stream.
  function NextToken(log: Option<Log>, epoch: string, backlog: seq<Entry>): string {
    if backlog != [] then EncodeOffset(backlog[|backlog| - 1].offset, epoch) else
    var tail := if log.None? then None else PeakSpec(log.value, epoch);
    if tail.None? then EncodeOffset(0, "") else EncodeOffset(tail.value.0, tail.value.1)
  }

  function Respond(log: Option<Log>, epoch: string, token: string, live: Live): Response {
    if token == "" && live.LongPoll? then BadRequest else
    var raw := if token == "" then START else token;
    var pos := DecodeOffset(raw);
    if pos.None? then BadRequest else
    var f := FetchHistory(log, epoch, raw, pos.value);
    if f.Unreachable? then Gone
    else if f.messages == [] && live.LongPoll? then Waits
    else Batch(f.messages, NextToken(log, epoch, f.messages))
  }

  function LogOf(v: Streams, name: string): Option<Log> {
    if name in v then Some(v[name]) else None
  }

  method Fetch(brk: Memory, name: string, raw: string, pos: (nat, string)) returns (f: Fetched)
    requires brk.Valid() && pos.0 < U64
    ensures f == FetchHistory(LogOf(brk.View(), name), brk.epoch, raw, pos)
  {
    if raw == START || raw == "0" {
      if name !in brk.streams {
        return Backlog([]);
      }
      var all := brk.streams[name].FilterByTime(0);
      return Backlog(all);
    }
    if raw == "now" {
      return Backlog([]);
    }
    if pos.1 == "" || pos.1 != brk.epoch || name !in brk.streams {
      return Unreachable;
    }
    var found := brk.streams[name].FilterByOffset(pos.0);
    f := if found.Ok? then Backlog(found.value) else Unreachable;
  }

  // The handler itself, against the broker object.
  method HandleHTTP(brk: Memory, name: string, token: string, live: Live) returns (r: Response)
    requires brk.Valid()
    ensures r == Respond(LogOf(brk.View(), name), brk.epoch, token, live)
  {
    hide DecodeOffset, FetchHistory, EncodeOffset;
    if token == "" && live.LongPoll? {
      return BadRequest;
    }
    var raw := if token == "" then START else token;
    var pos := DecodeOffset(raw);
    if pos.None? {
      return BadRequest;
    }
    var peak := brk.Peak(name);
    var tail := if peak.None? then (0, "") else peak.value;
    var f := Fetch(brk, name, raw, pos.value);
    if f.Unreachable? {
      return Gone;
    }
    if f.messages != [] {
      tail := (f.messages[|f.messages| - 1].offset, brk.epoch);
    }
    if f.messages != [] || live.CatchUp? {
      return Batch(f.messages, EncodeOffset(tail.0, tail.1));
    }
    r := Waits;
  }

  // ---------- The catch-up chain ----------

  // A client and what it received so far; `base` and `first` note, for the first batch, where
  // the log and the batch began in the sequence of all messages sent.
  datatype Client = Client(token: string, got: seq<string>, base: int, first: int)

  datatype World = World(chan: H.Channel, client: Client)

  datatype Event = Server(op: H.Op) | Poll(live: Live)

  function Receive(w: World, messages: seq<Entry>, token: string): Client {
    if messages == [] then w.client.(token := token)
    else if w.client.got == [] then
      Client(token, H.Texts(messages), w.chan.start, w.chan.start + messages[0].offset - 1)
    else w.client.(token := token, got := w.client.got + H.Texts(messages))
  }

  function Advance(w: World, e: Event, epoch: string, conf: H.Conf): World
    requires conf.limit >= 1
  {
    match e
    case Server(op) => w.(chan := H.Step(w.chan, op, conf))
    case Poll(live) =>
      var r := Respond(w.chan.log, epoch, w.client.token, live);
      if r.Batch? then w.(client := Receive(w, r.messages, r.token)) else w
  }

  function Chain(events: seq<Event>, epoch: string, conf: H.Conf): World
    requires conf.limit >= 1
  {
    if events == [] then World(H.FRESH, Client(START, [], 0, 0))
    else Advance(Chain(events[..|events| - 1], epoch, conf), events[|events| - 1], epoch, conf)
  }

  // Clock readings are seconds since 1970.
  ghost predicate Dated(log: Option<Log>) {
    log.Some? ==> forall i :: 0 <= i < |log.value.data| ==> log.value.data[i].timestamp >= 0
  }

  // The epoch can be carried by a token.
  ghost predicate Portable(epoch: string) {
    epoch != "" && !Occurs(epoch, SEPARATOR)
  }

  // A client that has received something holds a real position, never a start marker.
  ghost predicate Positioned(c: Client, epoch: string) {
    if c.got == [] then c.token == START || c.token == "0"
    else exists k :: 1 <= k < U64 && c.token == EncodeOffset(k, epoch)
  }

  // What was received is a run of consecutive messages, and the token names its end.
  ghost predicate Consecutive(w: World, epoch: string) {
    var end := w.client.first + |w.client.got|;
    && 0 <= w.client.base <= w.client.first && end <= |w.chan.sent|
    && w.client.got == w.chan.sent[w.client.first..end]
    && w.client.token == EncodeOffset(end - w.client.base, epoch)
  }

  ghost predicate CaughtUp(w: World, epoch: string) {
    && H.Tracks(w.chan) && Dated(w.chan.log) && |w.chan.sent| < U64
    && Positioned(w.client, epoch)
    && (w.client.got != [] ==> w.client.base <= w.chan.start)
    && (w.client.got != [] && w.chan.start == w.client.base ==> Consecutive(w, epoch))
  }

  lemma {:induction false} AllDated(data: seq<Entry>)
    requires forall i :: 0 <= i < |data| ==> data[i].timestamp >= 0
    ensures StreamLog.Since(data, 0) == data
  {
    if data != [] {
      AllDated(data[..|data| - 1]);
    }
  }

  // The newest retained message carries the log's own offset.
  lemma TailOffset(c: H.Channel)
    requires H.Tracks(c) && c.log.Some? && c.log.value.data != []
    ensures var l := c.log.value;
            1 <= l.data[|l.data| - 1].offset == l.offset == |c.sent| - c.start
  {
  }

  // The answer to a start marker: everything retained.
  lemma RespondFirst(c: H.Channel, epoch: string, token: string, live: Live)
    requires H.Tracks(c) && Dated(c.log) && (token == "-1" || token == "0")
    ensures var r := Respond(c.log, epoch, token, live);
            if c.log.Some? && c.log.value.data != []
            then r == Batch(c.log.value.data, EncodeOffset(|c.sent| - c.start, epoch))
            else r == if live.LongPoll? then Waits else Batch([], "0")
  {
    hide H.Tracks, DecodeOffset, EncodeOffset, StreamLog.Since, Dated;
    ReservedTokens(token);
    if c.log.Some? {
      SinceStart(c);
      if c.log.value.data != [] {
        TailOffset(c);
      }
    }
  }

  lemma ReservedTokens(token: string)
    ensures Reserved(token) ==> DecodeOffset(token) == Some((0, ""))
    ensures EncodeOffset(0, "") == "0"
  {
  }

  lemma SinceStart(c: H.Channel)
    requires Dated(c.log) && c.log.Some?
    ensures StreamLog.Since(c.log.value.data, 0) == c.log.value.data
  {
    AllDated(c.log.value.data);
  }

  // The answer to a position: what was sent after it, or a refusal.
  lemma RespondLater(c: H.Channel, epoch: string, k: nat, live: Live)
    requires H.Tracks(c) && Portable(epoch) && 1 <= k < U64
    ensures var r := Respond(c.log, epoch, EncodeOffset(k, epoch), live);
            match H.HistoryFrom(c, k)
            case Err(_) => r == Gone
            case Ok(found) =>
              && c.start + k <= |c.sent| && H.Texts(found) == c.sent[c.start + k..]
              && r == if found == [] && live.LongPoll? then Waits
                      else Batch(found, EncodeOffset(|c.sent| - c.start, epoch))
  {
    hide DecodeOffset, EncodeOffset, H.Tracks, H.Texts, From;
    EncodedIsNotReserved(k, epoch);
    DecodeEncodeIff(k, epoch);
    if H.HistoryFrom(c, k).Ok? {
      LaterTexts(c, k);
      TailOffset(c);
    }
  }

  lemma LaterTexts(c: H.Channel, k: nat)
    requires H.Tracks(c) && k < U64 && H.HistoryFrom(c, k).Ok?
    ensures c.start + k <= |c.sent| && c.log.value.data != []
    ensures var found := H.HistoryFrom(c, k).value;
            && H.Texts(found) == c.sent[c.start + k..]
            && (found != [] ==> found[|found| - 1].offset == |c.sent| - c.start)
  {
    FromInRange(c.log.value, k);
  }

  lemma RetainedTexts(c: H.Channel)
    requires H.Tracks(c) && c.log.Some?
    ensures var data := c.log.value.data;
            && |data| <= |c.sent| - c.start && H.Texts(data) == c.sent[|c.sent| - |data|..]
            && (data != [] ==> data[0].offset == |c.sent| - c.start - |data| + 1)
  {
    hide Ordered;
  }

  lemma FirstPoll(w: World, live: Live, epoch: string, conf: H.Conf)
    requires conf.limit >= 1 && CaughtUp(w, epoch) && w.client.got == []
    ensures CaughtUp(Advance(w, Poll(live), epoch, conf), epoch)
  {
    hide Respond, EncodeOffset, H.Tracks, H.Texts, Dated;
    RespondFirst(w.chan, epoch, w.client.token, live);
    if w.chan.log.Some? && w.chan.log.value.data != [] {
      RetainedTexts(w.chan);
    }
  }

  lemma LaterPoll(w: World, k: nat, live: Live, epoch: string, conf: H.Conf)
    requires conf.limit >= 1 && Portable(epoch) && CaughtUp(w, epoch) && w.client.got != []
    requires 1 <= k < U64 && w.client.token == EncodeOffset(k, epoch)
    ensures CaughtUp(Advance(w, Poll(live), epoch, conf), epoch)
  {
    hide Respond, EncodeOffset, H.Tracks, H.Texts, Dated, H.HistoryFrom;
    RespondLater(w.chan, epoch, k, live);
    if w.chan.start == w.client.base {
      SameToken(k, w.client.first + |w.client.got| - w.client.base, epoch);
    }
  }

  // Tokens are injective.
  lemma SameToken(j: nat, k: nat, epoch: string)
    requires j < U64 && k < U64 && Portable(epoch) && EncodeOffset(j, epoch) == EncodeOffset(k, epoch)
    ensures j == k
  {
    DecodeEncodeIff(j, epoch);
    DecodeEncodeIff(k, epoch);
  }

  // The lexicographic order of tokens is that of their offsets if and only if the successor of the
  // smaller offset, padded with zeros to as many digits, does not exceed the larger one: so
  // always among offsets with the same number of digits.
  lemma TokenOrderIff(j: nat, k: nat, epoch: string)
    requires j < k && epoch != ""
    ensures |Format(j)| <= |Format(k)|
    ensures Before(EncodeOffset(j, epoch), EncodeOffset(k, epoch)) <==>
            (j + 1) * Pow10(|Format(k)| - |Format(j)|) <= k
    ensures |Format(j)| == |Format(k)| ==> Before(EncodeOffset(j, epoch), EncodeOffset(k, epoch))
  {
    hide Before, Format;
    NumeralOrderIff(j, k, SEPARATOR + epoch);
    assert Format(j) + (SEPARATOR + epoch) == Format(j) + SEPARATOR + epoch;
    assert Format(k) + (SEPARATOR + epoch) == Format(k) + SEPARATOR + epoch;
  }

  // In every epoch the token of the tenth message sorts before that of the ninth.
  lemma TenthSortsFirst(epoch: string)
    requires epoch != ""
    ensures Before(EncodeOffset(10, epoch), EncodeOffset(9, epoch))
    ensures !Before(EncodeOffset(9, epoch), EncodeOffset(10, epoch))
  {
    assert Format(9) == "9" && Format(10) == Format(1) + "0" && Format(1) == "1";
  }

  // A token of another epoch, or of none, is refused, whatever it points at.
  lemma ForeignTokenIsGone(log: Option<Log>, epoch: string, token: string, live: Live)
    requires !Reserved(token) && DecodeOffset(token).Some?
    requires DecodeOffset(token).value.1 != epoch || DecodeOffset(token).value.1 == ""
    ensures Respond(log, epoch, token, live) == Gone
  {
    hide DecodeOffset;
  }

  lemma ForeignEpochIsGone(log: Option<Log>, epoch: string, other: string, k: nat, live: Live)
    requires k < U64 && Portable(other) && other != epoch
    ensures Respond(log, epoch, EncodeOffset(k, other), live) == Gone
  {
    hide Respond, DecodeOffset;
    DecodeEncodeIff(k, other);
    EncodedIsNotReserved(k, other);
    ForeignTokenIsGone(log, epoch, EncodeOffset(k, other), live);
  }

  // A number alone is a position without an epoch.
  lemma BareNumberIsGone(log: Option<Log>, epoch: string, k: nat, live: Live)
    requires 0 < k < U64
    ensures Respond(log, epoch, Format(k), live) == Gone
  {
    hide Respond, Format;
    NotReserved(k);
    ParseFormat(k);
    DecodeBare(Format(k));
    ForeignTokenIsGone(log, epoch, Format(k), live);
  }

  lemma NotReserved(k: nat)
    requires k > 0
    ensures !Reserved(Format(k)) && ':' !in Format(k)
  {
    ValueOfFormat(k);
    assert Value("0") == 0 by {
      assert "0"[..0] == [];
    }
    assert START[0] == '-' && "now"[0] == 'n';
  }

  lemma DecodeBare(d: string)
    requires ':' !in d && !Reserved(d)
    ensures DecodeOffset(d) == if ParseUint(d).None? then None else Some((ParseUint(d).value, ""))
  {
    hide ParseUint;
    FindNone(d, SEPARATOR);
    NoHeadNoSeparator(d, SEPARATOR);
  }

  // What does not start with a number is not understood.
  lemma MalformedIsBad(log: Option<Log>, epoch: string, d: string, rest: string, live: Live)
    requires ':' !in d && ParseUint(d).None?
    ensures Respond(log, epoch, d + SEPARATOR + rest, live) == BadRequest
    ensures !Reserved(d) ==> Respond(log, epoch, d, live) == BadRequest
  {
    hide ParseUint;
    var token := d + SEPARATOR + rest;
    FindAfter(d, SEPARATOR, rest);
    assert token[|d|] == ':';
    assert !Reserved(token);
    assert Split(token, SEPARATOR)[0] == d;
    if !Reserved(d) {
      DecodeBare(d);
    }
  }

  // Without a token a client starts from the beginning, but cannot wait.
  lemma MissingToken(log: Option<Log>, epoch: string)
    ensures Respond(log, epoch, "", CatchUp) == Respond(log, epoch, START, CatchUp)
    ensures Respond(log, epoch, "", LongPoll) == BadRequest
  {
  }

  // Asking for what comes now yields no message, and the token of the head to go on from.
  lemma RespondNow(c: H.Channel, epoch: string, live: Live)
    requires H.Tracks(c)
    ensures var r := Respond(c.log, epoch, "now", live);
            && (live.LongPoll? ==> r == Waits)
            && (live.CatchUp? ==>
                  r == Batch([], if c.log.Some? && c.log.value.data != []
                                 then EncodeOffset(|c.sent| - c.start, epoch) else "0"))
  {
    hide EncodeOffset, H.Tracks;
    ReservedTokens("now");
    if c.log.Some? && c.log.value.data != [] {
      TailOffset(c);
    }
  }

  lemma StepGrows(c: H.Channel, op: H.Op, conf: H.Conf)
    requires conf.limit >= 1 && c.start <= |c.sent| && Dated(c.log)
    requires op.Broadcast? ==> op.at >= 0
    ensures var d := H.Step(c, op, conf);
            c.sent <= d.sent && |d.sent| <= |c.sent| + 1 && c.start <= d.start && Dated(d.log)
  {
  }

  lemma ServerStep(w: World, op: H.Op, epoch: string, conf: H.Conf)
    requires conf.limit >= 1 && CaughtUp(w, epoch) && |w.chan.sent| + 1 < U64
    requires op.Broadcast? ==> op.at >= 0
    ensures CaughtUp(Advance(w, Server(op), epoch, conf), epoch)
    ensures |Advance(w, Server(op), epoch, conf).chan.sent| <= |w.chan.sent| + 1
  {
    hide H.Step, H.Tracks, Dated, EncodeOffset;
    H.StepTracks(w.chan, op, conf);
    H.StartInSent(w.chan);
    StepGrows(w.chan, op, conf);
  }

  // Along every chain of polls interleaved with broadcasts and sweeps, the client never goes
  // back to a start marker once it has received something, and unless the idle stream was
  // forgotten meanwhile all it received is one gapless run of the messages sent.
  lemma {:induction false} ChainIsGapless(events: seq<Event>, epoch: string, conf: H.Conf)
    requires conf.limit >= 1 && Portable(epoch) && |events| < U64
    requires forall e :: e in events && e.Server? && e.op.Broadcast? ==> e.op.at >= 0
    ensures CaughtUp(Chain(events, epoch, conf), epoch)
    ensures |Chain(events, epoch, conf).chan.sent| <= |events|
  {
    if events != [] {
      var init, e := events[..|events| - 1], events[|events| - 1];
      ChainIsGapless(init, epoch, conf);
      var w := Chain(init, epoch, conf);
      hide CaughtUp;
      match e {
        case Server(op) =>
          ServerStep(w, op, epoch, conf);
        case Poll(live) =>
          PollStep(w, live, epoch, conf);
      }
    }
  }

  lemma PollStep(w: World, live: Live, epoch: string, conf: H.Conf)
    requires conf.limit >= 1 && Portable(epoch) && CaughtUp(w, epoch)
    ensures CaughtUp(Advance(w, Poll(live), epoch, conf), epoch)
  {
    if w.client.got == [] {
      FirstPoll(w, live, epoch, conf);
    } else {
      var k :| 1 <= k < U64 && w.client.token == EncodeOffset(k, epoch);
      LaterPoll(w, k, live, epoch, conf);
    }
  }

  // ---------- The same, in terms of the operations alone ----------

  function ServerOps(events: seq<Event>): (r: seq<H.Op>)
    ensures |r| <= |events|
  {
    if events == [] then [] else
    var rest := ServerOps(events[..|events| - 1]);
    if events[|events| - 1].Server? then rest + [events[|events| - 1].op] else rest
  }

  // How many server operations preceded the first response with messages.
  ghost function FirstBatch(events: seq<Event>, epoch: string, conf: H.Conf): (n: nat)
    requires conf.limit >= 1
    ensures n <= |ServerOps(events)|
  {
    if events == [] || Chain(events[..|events| - 1], epoch, conf).client.got == []
    then |ServerOps(events)|
    else FirstBatch(events[..|events| - 1], epoch, conf)
  }

  lemma {:induction false} ChainRuns(events: seq<Event>, epoch: string, conf: H.Conf)
    requires conf.limit >= 1
    ensures Chain(events, epoch, conf).chan == H.Run(H.FRESH, ServerOps(events), conf)
  {
    hide Respond, H.Step;
    if events != [] {
      var init, e := events[..|events| - 1], events[|events| - 1];
      ChainRuns(init, epoch, conf);
      if e.Server? {
        assert ServerOps(events)[..|ServerOps(init)|] == ServerOps(init);
      }
    }
  }

  // What the client counts from is the log it received its first messages from.
  lemma {:induction false} BaseIsStart(events: seq<Event>, epoch: string, conf: H.Conf)
    requires conf.limit >= 1 && Chain(events, epoch, conf).client.got != []
    ensures var c := H.Run(H.FRESH, ServerOps(events)[..FirstBatch(events, epoch, conf)], conf);
            c.log.Some? && c.start == Chain(events, epoch, conf).client.base
  {
    hide H.Run, H.Step, EncodeOffset, DecodeOffset;
    var init, e := events[..|events| - 1], events[|events| - 1];
    var w := Chain(init, epoch, conf);
    var ops := ServerOps(events);
    if w.client.got == [] {
      ChainRuns(events, epoch, conf);
      assert ops[..|ops|] == ops;
    } else {
      BaseIsStart(init, epoch, conf);
      var n := FirstBatch(init, epoch, conf);
      assert ops[..n] == ServerOps(init)[..n];
    }
  }

  // Unless a sweep came more than ten TTLs after the last message, all that a client received
  // since its first messages is one gapless run of the messages sent.
  lemma ChainIsGaplessUnlessIdle(events: seq<Event>, epoch: string, conf: H.Conf)
    requires conf.limit >= 1 && conf.ttl >= 0 && Portable(epoch) && |events| < U64
    requires forall e :: e in events && e.Server? && e.op.Broadcast? ==> e.op.at >= 0
    requires H.Chronological(ServerOps(events)) && Chain(events, epoch, conf).client.got != []
    ensures var w := Chain(events, epoch, conf);
            var n := FirstBatch(events, epoch, conf);
            && (w.chan.start == w.client.base <==> H.NeverIdle(ServerOps(events), n, conf.ttl))
            && (H.NeverIdle(ServerOps(events), n, conf.ttl) ==> Consecutive(w, epoch))
  {
    hide Chain, H.Run, H.NeverIdle, H.Chronological, FirstBatch, Consecutive, ServerOps;
    ChainIsGapless(events, epoch, conf);
    ChainRuns(events, epoch, conf);
    BaseIsStart(events, epoch, conf);
    H.SameLogIff(ServerOps(events), FirstBatch(events, epoch, conf), conf);
  }
}
