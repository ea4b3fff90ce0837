/** The node's commands over hub rows, upstream subscriptions and per-session channels, and
the theorem that a stream somebody listens to is never unsubscribed upstream. */
module NodeState {
  import opened Basics
  import opened HubState
  import U = Upstream

  type Channels = map<Id, set<Stream>>

  // A session is new until authenticated or restored, then connected until closed. Commands are
  // handled from the start: only those of a closed session are skipped.
  datatype Phase = New | Connected | Closed

  datatype Session = Session(channels: Channels, phase: Phase, inactive: bool)

  datatype CommandResult = CommandResult(stopAll: bool, stopped: seq<Stream>, streams: seq<Stream>, disconnect: bool)

  // What the controller answered: nothing usable, or a reply, with or without an error,
  // accepting or rejecting the command.
  datatype Call = NoResult | Answered(failed: bool, accepted: bool, reply: CommandResult)

  datatype Core = Core(rows: set<Row>, upstream: U.State)

  // ---------- How often a session uses a stream ----------

  function Users(ch: Channels, s: Stream): set<Id> {
    set id | id in ch && s in ch[id]
  }

  // Each stream as often as there are channels that use it.
  ghost function Uses(ch: Channels): multiset<Stream> {
    if ch == map[] then multiset{} else
    var id :| id in ch;
    multiset(ch[id]) + Uses(ch - {id})
  }

  lemma UsesPick(ch: Channels) returns (id: Id)
    requires ch != map[]
    ensures id in ch && Uses(ch) == multiset(ch[id]) + Uses(ch - {id})
  {
    id :| id in ch && Uses(ch) == multiset(ch[id]) + Uses(ch - {id});
  }

  lemma UsersStep(ch: Channels, id: Id, s: Stream)
    requires id in ch
    ensures |Users(ch, s)| == |Users(ch - {id}, s)| + if s in ch[id] then 1 else 0
  {
    var rest := Users(ch - {id}, s);
    assert Users(ch, s) == if s in ch[id] then rest + {id} else rest;
  }

  lemma {:induction false} UsesCount(ch: Channels, s: Stream)
    ensures Uses(ch)[s] == |Users(ch, s)|
    decreases |ch|
  {
    if ch == map[] {
      assert Users(ch, s) == {};
    } else {
      hide Uses, Users;
      var id := UsesPick(ch);
      UsersStep(ch, id, s);
      UsesCount(ch - {id}, s);
    }
  }

  function SessionRows(sid: Sid, ch: Channels): set<Row> {
    set id, s | id in ch && s in ch[id] :: Row(sid, s, id)
  }

  function ChannelRows(sid: Sid, id: Id, streams: seq<Stream>): set<Row> {
    set s | s in streams :: Row(sid, s, id)
  }

  // ---------- Specification of the steps ----------

  // Disconnecting reaches the node only for such a session; others keep their rows.
  predicate Dropped(s: Session) {
    s.phase.Connected? && !s.inactive
  }

  ghost function DisconnectSpec(c: Core, sid: Sid, s: Session): (Core, Session) {
    if !Dropped(s) then (c, s.(phase := Closed)) else
    (Core((set r | r in c.rows && r.sid != sid), U.Lower(c.upstream, Uses(s.channels))), s.(phase := Closed))
  }

  // The streams a reply stops, each as often as the broker is told.
  ghost function Stops(s: Session, id: Id, reply: CommandResult): multiset<Stream> {
    if !reply.stopAll then multiset(reply.stopped)
    else if id in s.channels then multiset(s.channels[id])
    else multiset{}
  }

  function Remaining(rows: set<Row>, sid: Sid, id: Id, reply: CommandResult): set<Row> {
    if reply.stopAll then set r | r in rows && !(r.sid == sid && r.id == id)
    else rows - ChannelRows(sid, id, reply.stopped)
  }

  function NewChannels(ch: Channels, id: Id, reply: CommandResult): Channels {
    if id !in ch then ch else
    var kept := if reply.stopAll then {} else ch[id] - Elements(reply.stopped);
    ch[id := kept + Elements(reply.streams)]
  }

  ghost function ReplySpec(c: Core, sid: Sid, s: Session, id: Id, reply: CommandResult): (Core, Session) {
    var c' := Core(Remaining(c.rows, sid, id, reply) + ChannelRows(sid, id, reply.streams),
                   U.Raise(U.Lower(c.upstream, Stops(s, id, reply)), multiset(reply.streams)));
    var s' := s.(channels := NewChannels(s.channels, id, reply));
    if reply.disconnect then DisconnectSpec(c', sid, s') else (c', s')
  }

  ghost function SubscribeSpec(c: Core, sid: Sid, s: Session, id: Id, call: Call): (Core, Session) {
    if s.phase.Closed? || id in s.channels || call.NoResult? then (c, s) else
    var s' := if !call.failed && call.accepted then s.(channels := s.channels[id := {}]) else s;
    ReplySpec(c, sid, s', id, call.reply)
  }

  // The channel goes before its streams are looked up, so the broker is not told about them.
  ghost function UnsubscribeSpec(c: Core, sid: Sid, s: Session, id: Id, call: Call): (Core, Session) {
    if s.phase.Closed? || id !in s.channels || call.NoResult? then (c, s)
    else if call.failed then ReplySpec(c, sid, s, id, call.reply)
    else ReplySpec(c, sid, s.(channels := s.channels - {id}), id, call.reply.(stopAll := true))
  }

  ghost function PerformSpec(c: Core, sid: Sid, s: Session, id: Id, call: Call): (Core, Session) {
    if s.phase.Closed? || id !in s.channels || call.NoResult? then (c, s)
    else ReplySpec(c, sid, s, id, call.reply)
  }

  // Cached channels replace those of the same name, and all are subscribed to again.
  ghost function RestoreSpec(c: Core, sid: Sid, s: Session, cached: Channels): (Core, Session) {
    var ch := s.channels + cached;
    (Core(c.rows + SessionRows(sid, ch), U.Raise(c.upstream, Uses(ch))), Session(ch, Connected, s.inactive))
  }

  // ---------- Safety ----------

  function RowsFor(rows: set<Row>, s: Stream): set<Row> {
    set r | r in rows && r.stream == s
  }

  // By how much the tracker's count of a stream exceeds its rows.
  ghost function Slack(c: Core, x: Stream): int {
    U.Count(c.upstream, x) - |RowsFor(c.rows, x)|
  }

  // The tracker counts at least the rows of every stream.
  ghost predicate Enough(c: Core) {
    U.InStep(c.upstream) && forall x :: Slack(c, x) >= 0
  }

  // It counts nothing else.
  ghost predicate Exact(c: Core) {
    U.InStep(c.upstream) && forall x :: Slack(c, x) == 0
  }

  ghost predicate NoLess(a: Core, b: Core) {
    forall x :: Slack(b, x) >= Slack(a, x)
  }

  ghost predicate Backed(rows: set<Row>, sid: Sid, s: Session) {
    !s.phase.Closed? ==> SessionRows(sid, s.channels) <= rows
  }

  // StoppedStreams names distinct streams that the channel holds.
  ghost predicate Proper(rows: set<Row>, sid: Sid, id: Id, reply: CommandResult) {
    reply.stopAll || (
      && Distinct(reply.stopped)
      && ChannelRows(sid, id, reply.stopped) <= rows)
  }

  lemma Fewer(rows: set<Row>, less: set<Row>, s: Stream, gone: set<Row>)
    requires less <= rows && gone <= RowsFor(rows, s) && gone !! less
    ensures |RowsFor(less, s)| + |gone| <= |RowsFor(rows, s)|
  {
    Subset(RowsFor(less, s) + gone, RowsFor(rows, s));
  }

  lemma {:induction false} Subset<T>(a: set<T>, b: set<T>)
    requires a <= b
    ensures |a| <= |b|
  {
    if a != {} {
      var x :| x in a;
      Subset(a - {x}, b - {x});
    }
  }

  lemma SumBound<T>(a: set<T>, b: set<T>)
    ensures |a + b| <= |a| + |b|
  {
    Subset(a - b, a);
    assert |a + b| == |a - b| + |b| by { assert a + b == (a - b) + b; }
  }

  // As many rows as channels that use the stream.
  lemma SessionRowsCount(sid: Sid, ch: Channels, s: Stream)
    ensures |RowsFor(SessionRows(sid, ch), s)| == Uses(ch)[s]
  {
    UsesCount(ch, s);
    ImageCount(sid, s, Users(ch, s));
    assert RowsFor(SessionRows(sid, ch), s) == set id | id in Users(ch, s) :: Row(sid, s, id);
  }

  lemma {:induction false} ImageCount(sid: Sid, s: Stream, ids: set<Id>)
    ensures |set id | id in ids :: Row(sid, s, id)| == |ids|
  {
    if ids != {} {
      var x :| x in ids;
      ImageCount(sid, s, ids - {x});
      var rest := set id | id in ids - {x} :: Row(sid, s, id);
      assert (set id | id in ids :: Row(sid, s, id)) == rest + {Row(sid, s, x)};
    }
  }

  lemma DisconnectSafe(c: Core, sid: Sid, s: Session)
    requires Enough(c) && Backed(c.rows, sid, s)
    ensures var (c', s') := DisconnectSpec(c, sid, s); Enough(c') && NoLess(c, c') && Backed(c'.rows, sid, s')
  {
    if s.phase.Connected? && !s.inactive {
      var c' := DisconnectSpec(c, sid, s).0;
      U.LowerCounts(c.upstream, Uses(s.channels));
      forall x ensures Slack(c', x) >= Slack(c, x) >= 0 {
        SessionRowsCount(sid, s.channels, x);
        Fewer(c.rows, c'.rows, x, RowsFor(SessionRows(sid, s.channels), x));
      }
    }
  }

  lemma StopSafe(c: Core, sid: Sid, s: Session, id: Id, reply: CommandResult)
    requires Enough(c) && SessionRows(sid, s.channels) <= c.rows && Proper(c.rows, sid, id, reply)
    ensures var c' := Core(Remaining(c.rows, sid, id, reply), U.Lower(c.upstream, Stops(s, id, reply)));
            Enough(c') && NoLess(c, c')
  {
    hide U.Lower, Stops, Remaining;
    var stops := Stops(s, id, reply);
    var left := Remaining(c.rows, sid, id, reply);
    RemainingRows(c.rows, sid, id, reply);
    U.LowerCounts(c.upstream, stops);
    var c' := Core(left, U.Lower(c.upstream, stops));
    forall x ensures Slack(c', x) >= Slack(c, x) >= 0 {
      StopsHeld(c, sid, s, id, reply, x);
      var r := Row(sid, x, id);
      Fewer(c.rows, left, x, if stops[x] > 0 then {r} else {});
    }
  }

  lemma RemainingRows(rows: set<Row>, sid: Sid, id: Id, reply: CommandResult)
    ensures Remaining(rows, sid, id, reply) <= rows
  {
  }

  // What is stopped is stopped once, and its row goes.
  lemma StopsHeld(c: Core, sid: Sid, s: Session, id: Id, reply: CommandResult, x: Stream)
    requires SessionRows(sid, s.channels) <= c.rows && Proper(c.rows, sid, id, reply)
    ensures Stops(s, id, reply)[x] <= 1
    ensures Stops(s, id, reply)[x] > 0 ==>
              Row(sid, x, id) in c.rows && Row(sid, x, id) !in Remaining(c.rows, sid, id, reply)
  {
    if reply.stopAll {
      if id in s.channels && x in s.channels[id] {
        assert Row(sid, x, id) in SessionRows(sid, s.channels);
      }
    } else {
      OncePerStream(reply.stopped, x);
      if x in reply.stopped {
        assert Row(sid, x, id) in ChannelRows(sid, id, reply.stopped);
      }
    }
  }

  lemma {:induction false} OncePerStream(list: seq<Stream>, x: Stream)
    requires Distinct(list)
    ensures multiset(list)[x] <= 1
  {
    if list != [] {
      var init, last := list[..|list| - 1], list[|list| - 1];
      OncePerStream(init, x);
      assert list == init + [last];
      assert last !in init;
    }
  }

  lemma AttachSafe(c: Core, sid: Sid, id: Id, streams: seq<Stream>)
    requires Enough(c)
    ensures var c' := Core(c.rows + ChannelRows(sid, id, streams), U.Raise(c.upstream, multiset(streams)));
            Enough(c') && NoLess(c, c')
  {
    hide U.Raise, U.Count;
    var added := ChannelRows(sid, id, streams);
    U.RaiseCounts(c.upstream, multiset(streams));
    var c' := Core(c.rows + added, U.Raise(c.upstream, multiset(streams)));
    forall x ensures Slack(c', x) >= Slack(c, x) >= 0 {
      var more := RowsFor(added, x);
      assert more <= {Row(sid, x, id)};
      Subset(more, {Row(sid, x, id)});
      if more != {} {
        assert x in streams;
      }
      SumBound(RowsFor(c.rows, x), more);
      assert RowsFor(c.rows + added, x) == RowsFor(c.rows, x) + more;
    }
  }

  lemma ReplyBacked(rows: set<Row>, sid: Sid, s: Session, id: Id, reply: CommandResult)
    requires SessionRows(sid, s.channels) <= rows
    ensures SessionRows(sid, NewChannels(s.channels, id, reply))
         <= Remaining(rows, sid, id, reply) + ChannelRows(sid, id, reply.streams)
  {
    var ch := NewChannels(s.channels, id, reply);
    forall r | r in SessionRows(sid, ch)
      ensures r in Remaining(rows, sid, id, reply) + ChannelRows(sid, id, reply.streams)
    {
      if !(r.id == id && r.stream in reply.streams) {
        assert r.id in s.channels && r.stream in s.channels[r.id];
        assert r in SessionRows(sid, s.channels);
      }
    }
  }

  lemma ReplySafe(c: Core, sid: Sid, s: Session, id: Id, reply: CommandResult)
    requires Enough(c) && !s.phase.Closed? && Backed(c.rows, sid, s) && Proper(c.rows, sid, id, reply)
    ensures var (c', s') := ReplySpec(c, sid, s, id, reply); Enough(c') && NoLess(c, c') && Backed(c'.rows, sid, s')
  {
    hide Enough, Slack, DisconnectSpec, Remaining, Stops, NewChannels;
    StopSafe(c, sid, s, id, reply);
    var mid := Core(Remaining(c.rows, sid, id, reply), U.Lower(c.upstream, Stops(s, id, reply)));
    AttachSafe(mid, sid, id, reply.streams);
    ReplyBacked(c.rows, sid, s, id, reply);
    var c' := Core(mid.rows + ChannelRows(sid, id, reply.streams), U.Raise(mid.upstream, multiset(reply.streams)));
    DisconnectSafe(c', sid, s.(channels := NewChannels(s.channels, id, reply)));
  }

  lemma RestoreSafe(c: Core, sid: Sid, s: Session, cached: Channels)
    requires Enough(c)
    ensures var (c', s') := RestoreSpec(c, sid, s, cached); Enough(c') && NoLess(c, c') && Backed(c'.rows, sid, s')
  {
    hide SessionRows, Uses, U.Raise, U.InStep, U.Count;
    var ch := s.channels + cached;
    var added := SessionRows(sid, ch);
    U.RaiseCounts(c.upstream, Uses(ch));
    var c' := Core(c.rows + added, U.Raise(c.upstream, Uses(ch)));
    forall x ensures Slack(c', x) >= Slack(c, x) >= 0 {
      SessionRowsCount(sid, ch, x);
      SumBound(RowsFor(c.rows, x), RowsFor(added, x));
      assert RowsFor(c.rows + added, x) == RowsFor(c.rows, x) + RowsFor(added, x);
    }
  }

  // ---------- Whole runs ----------

  datatype World = World(core: Core, sessions: map<Sid, Session>)

  datatype Event =
    | Open(sid: Sid, inactive: bool)
    | Authenticated(sid: Sid)
    | Restored(sid: Sid, cached: Channels)
    | Subscribed(sid: Sid, id: Id, call: Call)
    | Unsubscribed(sid: Sid, id: Id, call: Call)
    | Performed(sid: Sid, id: Id, call: Call)
    | Disconnected(sid: Sid)

  ghost function Act(w: World, e: Event): (Core, Session)
    requires e.sid in w.sessions
  {
    var s := w.sessions[e.sid];
    match e
    case Open(_, _) => (w.core, s)
    case Authenticated(_) => (w.core, if s.phase.Closed? then s else s.(phase := Connected))
    case Restored(sid, cached) => if s.phase.Closed? then (w.core, s) else RestoreSpec(w.core, sid, s, cached)
    case Subscribed(sid, id, call) => SubscribeSpec(w.core, sid, s, id, call)
    case Unsubscribed(sid, id, call) => UnsubscribeSpec(w.core, sid, s, id, call)
    case Performed(sid, id, call) => PerformSpec(w.core, sid, s, id, call)
    case Disconnected(sid) => DisconnectSpec(w.core, sid, s)
  }

  ghost function Step(w: World, e: Event): World {
    if e.sid !in w.sessions then
      (if e.Open? then w.(sessions := w.sessions[e.sid := Session(map[], New, e.inactive)]) else w)
    else
      var (c, s) := Act(w, e);
      World(c, w.sessions[e.sid := s])
  }

  ghost function Run(events: seq<Event>): World {
    if events == [] then World(Core({}, U.State(map[], {})), map[])
    else Step(Run(events[..|events| - 1]), events[|events| - 1])
  }

  // The replies of a run name only streams their channel holds when they stop some, and no
  // session is registered while it has rows that its new list would not lead to: the hub could
  // not remove those when the session goes.
  ghost predicate ProperEvent(w: World, e: Event) {
    match e
    case Authenticated(sid) =>
      sid in w.sessions && !w.sessions[sid].phase.Closed? && !w.sessions[sid].inactive ==>
        RowsOf(w.core.rows, sid) == {}
    case Restored(sid, cached) =>
      sid in w.sessions && !w.sessions[sid].phase.Closed? ==>
        RowsOf(w.core.rows, sid) <= SessionRows(sid, w.sessions[sid].channels + cached)
    case Subscribed(sid, id, call) => call.Answered? ==> Proper(w.core.rows, sid, id, call.reply)
    case Unsubscribed(sid, id, call) => call.Answered? && call.failed ==> Proper(w.core.rows, sid, id, call.reply)
    case Performed(sid, id, call) => call.Answered? ==> Proper(w.core.rows, sid, id, call.reply)
    case _ => true
  }

  ghost predicate ProperRun(events: seq<Event>) {
    events == [] ||
    (ProperRun(events[..|events| - 1]) && ProperEvent(Run(events[..|events| - 1]), events[|events| - 1]))
  }

  ghost predicate Safe(w: World) {
    && Enough(w.core)
    && (forall sid :: sid in w.sessions ==> Backed(w.core.rows, sid, w.sessions[sid]))
    && (forall r :: r in w.core.rows ==> r.sid in w.sessions)
  }

  // A step touches only the rows of its own session.
  lemma Local(w: World, e: Event)
    requires e.sid in w.sessions
    ensures var c := Act(w, e).0;
            forall r: Row :: r.sid != e.sid ==> (r in c.rows <==> r in w.core.rows)
  {
    hide Uses, NewChannels, Stops, U.Raise, U.Lower;
  }

  lemma ActSafe(w: World, e: Event)
    requires e.sid in w.sessions && Safe(w) && ProperEvent(w, e)
    ensures var (c, s) := Act(w, e); Enough(c) && NoLess(w.core, c) && Backed(c.rows, e.sid, s)
  {
    hide Slack, ReplySpec, DisconnectSpec, RestoreSpec, Enough, Proper;
    var c, s := w.core, w.sessions[e.sid];
    match e {
      case Open(_, _) =>
      case Authenticated(_) =>
      case Restored(sid, cached) =>
        if !s.phase.Closed? { RestoreSafe(c, sid, s, cached); }
      case Subscribed(sid, id, call) =>
        if !s.phase.Closed? && id !in s.channels && call.Answered? {
          var s' := if !call.failed && call.accepted then s.(channels := s.channels[id := {}]) else s;
          assert SessionRows(sid, s'.channels) == SessionRows(sid, s.channels);
          ReplySafe(c, sid, s', id, call.reply);
        }
      case Unsubscribed(sid, id, call) =>
        if !s.phase.Closed? && id in s.channels && call.Answered? {
          if call.failed {
            ReplySafe(c, sid, s, id, call.reply);
          } else {
            StopAllProper(c.rows, sid, id, call.reply);
            assert SessionRows(sid, s.channels - {id}) <= SessionRows(sid, s.channels);
            ReplySafe(c, sid, s.(channels := s.channels - {id}), id, call.reply.(stopAll := true));
          }
        }
      case Performed(sid, id, call) =>
        if !s.phase.Closed? && id in s.channels && call.Answered? {
          ReplySafe(c, sid, s, id, call.reply);
        }
      case Disconnected(sid) =>
        DisconnectSafe(c, sid, s);
    }
  }

  lemma StopAllProper(rows: set<Row>, sid: Sid, id: Id, reply: CommandResult)
    ensures Proper(rows, sid, id, reply.(stopAll := true))
  {
  }

  lemma StepSafe(w: World, e: Event)
    requires Safe(w) && ProperEvent(w, e)
    ensures Safe(Step(w, e)) && NoLess(w.core, Step(w, e).core)
  {
    hide Act, Slack, Enough, ProperEvent;
    if e.sid in w.sessions {
      ActSafe(w, e);
      Local(w, e);
    }
  }

  // No premature upstream unsubscribe: on every proper run, every stream with a local listener
  // is counted at least once per row, and the broadcaster is subscribed to it.
  lemma {:induction false} ListenedStreamsStaySubscribed(events: seq<Event>)
    requires ProperRun(events)
    ensures var w := Run(events);
            && Safe(w)
            && w.core.upstream.subscribed == w.core.upstream.store.Keys
            && forall r :: r in w.core.rows ==> r.stream in w.core.upstream.subscribed
  {
    if events != [] {
      ListenedStreamsStaySubscribed(events[..|events| - 1]);
      StepSafe(Run(events[..|events| - 1]), events[|events| - 1]);
    }
    var w := Run(events);
    forall r | r in w.core.rows ensures r.stream in w.core.upstream.subscribed {
      assert r in RowsFor(w.core.rows, r.stream);
      assert Slack(w.core, r.stream) >= 0;
      assert U.Count(w.core.upstream, r.stream) >= 1;
    }
  }

  lemma ProperPrefix(events: seq<Event>, n: nat)
    requires ProperRun(events) && n <= |events|
    ensures ProperRun(events[..n])
    decreases |events|
  {
    if n < |events| {
      ProperPrefix(events[..|events| - 1], n);
      assert events[..|events| - 1][..n] == events[..n];
    } else {
      assert events[..n] == events;
    }
  }

  // What a count is ahead of its rows it stays ahead: along a proper run no slack is lost.
  lemma {:induction false} SlackNeverShrinks(events: seq<Event>, n: nat)
    requires ProperRun(events) && n <= |events|
    ensures NoLess(Run(events[..n]).core, Run(events).core)
    decreases |events|
  {
    hide Slack, Step, ProperEvent, Safe;
    if n == |events| {
      assert events[..n] == events;
    } else {
      var init := events[..|events| - 1];
      assert init[..n] == events[..n];
      SlackNeverShrinks(init, n);
      ListenedStreamsStaySubscribed(init);
      StepSafe(Run(init), events[|events| - 1]);
    }
  }

  // A leaked subscription is for ever: once a stream is counted beyond its rows, the
  // broadcaster stays subscribed to it however the run goes on.
  lemma LeakIsPermanent(events: seq<Event>, n: nat, x: Stream)
    requires ProperRun(events) && n <= |events| && Slack(Run(events[..n]).core, x) > 0
    ensures x in Run(events).core.upstream.subscribed
  {
    SlackNeverShrinks(events, n);
    ListenedStreamsStaySubscribed(events);
    assert Slack(Run(events).core, x) > 0;
  }

  // Counts are exact at the end of a proper run if and only if they were at every moment.
  lemma ExactIffAlways(events: seq<Event>)
    requires ProperRun(events)
    ensures Exact(Run(events).core) <==> forall n :: 0 <= n <= |events| ==> Exact(Run(events[..n]).core)
  {
    assert events[..|events|] == events;
    if Exact(Run(events).core) {
      forall n | 0 <= n <= |events| ensures Exact(Run(events[..n]).core) {
        SlackNeverShrinks(events, n);
        ProperPrefix(events, n);
        ListenedStreamsStaySubscribed(events[..n]);
        forall x ensures Slack(Run(events[..n]).core, x) == 0 {
          assert 0 == Slack(Run(events).core, x) >= Slack(Run(events[..n]).core, x) >= 0;
        }
      }
    }
  }

  // ---------- Stopping streams the channel does not hold ----------

  // The rows of a stream other than the one a channel may hold itself.
  function Others(rows: set<Row>, sid: Sid, id: Id, x: Stream): set<Row> {
    RowsFor(rows, x) - {Row(sid, x, id)}
  }

  ghost function Stopped(c: Core, sid: Sid, id: Id, stopped: seq<Stream>): Core {
    Core(c.rows - ChannelRows(sid, id, stopped), U.Lower(c.upstream, multiset(stopped)))
  }

  lemma StoppedSlack(c: Core, sid: Sid, id: Id, stopped: seq<Stream>, x: Stream)
    requires U.InStep(c.upstream)
    ensures var c' := Stopped(c, sid, id, stopped);
            var count, m := U.Count(c.upstream, x), multiset(stopped)[x];
            && (m > 0 <==> x in stopped)
            && RowsFor(c'.rows, x) == (if x in stopped then Others(c.rows, sid, id, x) else RowsFor(c.rows, x))
            && U.Count(c'.upstream, x) == (if count > m then count - m else 0)
  {
    U.LowerCounts(c.upstream, multiset(stopped));
  }

  // Whatever list of streams a reply stops, the counts stay sufficient if and only if, for
  // each stream with other listeners, it is named no more often than the count exceeds them.
  lemma StopEnoughIff(c: Core, sid: Sid, id: Id, stopped: seq<Stream>)
    requires Enough(c)
    ensures Enough(Stopped(c, sid, id, stopped)) <==>
            forall x :: x in stopped ==>
              var others := |Others(c.rows, sid, id, x)|;
              others == 0 || multiset(stopped)[x] + others <= U.Count(c.upstream, x)
  {
    hide Stopped, Others, RowsFor, U.Count;
    var c' := Stopped(c, sid, id, stopped);
    StoppedInStep(c, sid, id, stopped);
    forall x ensures Slack(c', x) >= 0 <==> x in stopped ==>
      var others := |Others(c.rows, sid, id, x)|;
      others == 0 || multiset(stopped)[x] + others <= U.Count(c.upstream, x)
    {
      StoppedSlack(c, sid, id, stopped, x);
      assert Slack(c, x) >= 0;
    }
  }

  lemma StoppedInStep(c: Core, sid: Sid, id: Id, stopped: seq<Stream>)
    requires U.InStep(c.upstream)
    ensures U.InStep(Stopped(c, sid, id, stopped).upstream)
  {
    U.LowerCounts(c.upstream, multiset(stopped));
  }

  // Every listened stream is still subscribed upstream if and only if each stopped stream with
  // other listeners is named less often than it is counted.
  lemma StopCutsOffIff(c: Core, sid: Sid, id: Id, stopped: seq<Stream>)
    requires Enough(c)
    ensures var c' := Stopped(c, sid, id, stopped);
            (forall r :: r in c'.rows ==> r.stream in c'.upstream.subscribed) <==>
            forall x :: x in stopped ==>
              Others(c.rows, sid, id, x) == {} || multiset(stopped)[x] < U.Count(c.upstream, x)
  {
    hide Stopped, Others, U.Count;
    var c' := Stopped(c, sid, id, stopped);
    StoppedInStep(c, sid, id, stopped);
    forall x ensures (RowsFor(c'.rows, x) == {} || x in c'.upstream.subscribed) <==>
      (x in stopped ==> Others(c.rows, sid, id, x) == {} || multiset(stopped)[x] < U.Count(c.upstream, x))
    {
      StoppedSlack(c, sid, id, stopped, x);
      U.SubscribedIffCounted(c'.upstream, x);
      assert Slack(c, x) >= 0;
    }
    forall r | r in c'.rows ensures r in RowsFor(c'.rows, r.stream) {
    }
  }

  // ---------- Concrete runs ----------

  function Accepted(reply: CommandResult): Call {
    Answered(false, true, reply)
  }

  lemma RunMore(events: seq<Event>, e: Event)
    ensures Run(events + [e]) == Step(Run(events), e)
    ensures ProperRun(events + [e]) <==> ProperRun(events) && ProperEvent(Run(events), e)
  {
    assert (events + [e])[..|events|] == events;
  }

  // A session opens, is authenticated, and subscribes to a channel that starts some streams.
  function Joining(sid: Sid, id: Id, streams: seq<Stream>): seq<Event> {
    [Open(sid, false)] + [Authenticated(sid)] + [Subscribed(sid, id, Accepted(Starting(streams)))]
  }

  lemma SubscribedStep(w: World, sid: Sid, id: Id, streams: seq<Stream>)
    requires U.InStep(w.core.upstream) && sid in w.sessions
    requires !w.sessions[sid].phase.Closed? && id !in w.sessions[sid].channels
    ensures var s := w.sessions[sid];
            Step(w, Subscribed(sid, id, Accepted(Starting(streams)))) ==
            World(Core(w.core.rows + ChannelRows(sid, id, streams), U.Raise(w.core.upstream, multiset(streams))),
                  w.sessions[sid := s.(channels := s.channels[id := Elements(streams)])])
  {
    hide U.Raise, U.Lower, ChannelRows, NewChannels;
    var s := w.sessions[sid];
    U.NoChange(w.core.upstream);
    NoRows(sid, id);
    assert w.core.rows - {} == w.core.rows;
    var s' := s.(channels := s.channels[id := {}]);
    StartAll(s'.channels, id, streams);
    assert s'.channels[id := Elements(streams)] == s.channels[id := Elements(streams)];
    assert Stops(s', id, Starting(streams)) == multiset{};
    assert Remaining(w.core.rows, sid, id, Starting(streams)) == w.core.rows;
  }

  lemma NoRows(sid: Sid, id: Id)
    ensures ChannelRows(sid, id, []) == {}
  {
  }

  lemma StartAll(ch: Channels, id: Id, streams: seq<Stream>)
    requires id in ch && ch[id] == {}
    ensures NewChannels(ch, id, Starting(streams)) == ch[id := Elements(streams)]
  {
    assert {} - Elements([]) + Elements(streams) == Elements(streams);
  }

  lemma Joined(events: seq<Event>, sid: Sid, id: Id, streams: seq<Stream>)
    requires var w := Run(events); U.InStep(w.core.upstream) && sid !in w.sessions
    ensures var w := Run(events);
            Run(events + Joining(sid, id, streams)) ==
            World(Core(w.core.rows + ChannelRows(sid, id, streams), U.Raise(w.core.upstream, multiset(streams))),
                  w.sessions[sid := Session(map[id := Elements(streams)], Connected, false)])
    ensures ProperRun(events) ==> ProperRun(events + Joining(sid, id, streams))
  {
    hide Run, ProperRun, ChannelRows, SubscribeSpec, U.Raise;
    var e1, e2, e3 := Open(sid, false), Authenticated(sid), Subscribed(sid, id, Accepted(Starting(streams)));
    RunMore(events, e1);
    RunMore(events + [e1], e2);
    RunMore(events + [e1] + [e2], e3);
    if ProperRun(events) {
      ListenedStreamsStaySubscribed(events);
      assert RowsOf(Run(events).core.rows, sid) == {};
    }
    assert events + [e1] + [e2] + [e3] == events + Joining(sid, id, streams);
    var w := Run(events + [e1] + [e2]);
    SubscribedStep(w, sid, id, streams);
    NoRows(sid, id);
    assert w.sessions[sid := Session(map[id := Elements(streams)], Connected, false)]
        == Run(events).sessions[sid := Session(map[id := Elements(streams)], Connected, false)];
  }

  lemma NothingYet()
    ensures Run([]) == World(Core({}, U.State(map[], {})), map[]) && ProperRun([]) && U.InStep(Run([]).core.upstream)
  {
  }

  // One listener, and nothing else.
  lemma OneListener(a: Sid, c: Id, x: Stream)
    ensures var w := Run(Joining(a, c, [x]));
            && w.core.rows == {Row(a, x, c)} && U.InStep(w.core.upstream)
            && (forall y :: U.Count(w.core.upstream, y) == if y == x then 1 else 0)
            && w.sessions == map[a := Session(map[c := {x}], Connected, false)]
            && ProperRun(Joining(a, c, [x]))
  {
    hide Run, ProperRun, U.Raise;
    NothingYet();
    Joined([], a, c, [x]);
    assert [] + Joining(a, c, [x]) == Joining(a, c, [x]);
    U.RaiseCounts(U.State(map[], {}), multiset([x]));
    ElementsMore([], x);
    assert ChannelRows(a, c, [x]) == {Row(a, x, c)};
  }

  // Another session's reply stops a stream its channel does not hold: the broadcaster is
  // unsubscribed although the listener is still there.
  lemma ForeignStopIsPremature(a: Sid, c: Id, x: Stream, b: Sid, d: Id)
    requires a != b
    ensures var events := Joining(a, c, [x]) + Joining(b, d, []);
            var w := Run(events + [Performed(b, d, Accepted(Stopping([x])))]);
            && ProperRun(events)
            && Row(a, x, c) in w.core.rows && a in w.sessions && w.sessions[a].phase.Connected?
            && x !in w.core.upstream.subscribed
  {
    hide Run, ProperRun, U.Raise, U.Lower, U.InStep, U.Count, Joining, NewChannels;
    OneListener(a, c, x);
    var before := Joining(a, c, [x]);
    Joined(before, b, d, []);
    var w := Run(before + Joining(b, d, []));
    NoRows(b, d);
    U.NoChange(Run(before).core.upstream);
    RunMore(before + Joining(b, d, []), Performed(b, d, Accepted(Stopping([x]))));
    PerformedStop(w, b, d, x);
  }

  lemma PerformedStop(w: World, sid: Sid, id: Id, x: Stream)
    requires U.InStep(w.core.upstream) && U.Count(w.core.upstream, x) <= 1
    requires sid in w.sessions && !w.sessions[sid].phase.Closed? && id in w.sessions[sid].channels
    ensures var v := Step(w, Performed(sid, id, Accepted(Stopping([x]))));
            && v.core.rows == w.core.rows - {Row(sid, x, id)}
            && (forall y :: y in w.sessions && y != sid ==> y in v.sessions && v.sessions[y] == w.sessions[y])
            && x !in v.core.upstream.subscribed
  {
    hide U.Raise, U.Lower, U.Count, U.InStep, NewChannels;
    var low := U.Lower(w.core.upstream, multiset([x]));
    U.LowerCounts(w.core.upstream, multiset([x]));
    U.NoChange(low);
    U.SubscribedIffCounted(low, x);
    NoRows(sid, id);
    assert ChannelRows(sid, id, [x]) == {Row(sid, x, id)};
    assert w.core.rows - {Row(sid, x, id)} + {} == w.core.rows - {Row(sid, x, id)};
  }

  // ---------- Counts are not exact ----------

  // Leaving a channel removes its rows but cancels nothing upstream, whatever the reply starts.
  lemma UnsubscribeKeepsCounts(c: Core, sid: Sid, s: Session, id: Id, call: Call)
    requires U.InStep(c.upstream) && !s.phase.Closed? && id in s.channels
    requires call.Answered? && !call.failed && !(call.reply.disconnect && Dropped(s))
    ensures var (c', s') := UnsubscribeSpec(c, sid, s, id, call);
            && s' == s.(channels := s.channels - {id}, phase := if call.reply.disconnect then Closed else s.phase)
            && c'.rows == (set r | r in c.rows && !(r.sid == sid && r.id == id))
                          + ChannelRows(sid, id, call.reply.streams)
            && U.InStep(c'.upstream)
            && forall x :: U.Count(c'.upstream, x) == U.Count(c.upstream, x) + multiset(call.reply.streams)[x]
  {
    hide U.Raise, U.Lower, U.Count, U.InStep;
    U.NoChange(c.upstream);
    U.RaiseCounts(c.upstream, multiset(call.reply.streams));
  }

  // So after the only listener has left its channel, the stream is still subscribed.
  lemma UnsubscribeLeaks(a: Sid, c: Id, x: Stream)
    ensures var events := Joining(a, c, [x]) + [Unsubscribed(a, c, Accepted(Starting([])))];
            var w := Run(events);
            && ProperRun(events) && w.core.rows == {} && w.sessions == map[a := Session(map[], Connected, false)]
            && x in w.core.upstream.subscribed && !Exact(w.core)
  {
    hide Run, ProperRun, Joining, UnsubscribeSpec, U.Count, U.InStep;
    OneListener(a, c, x);
    var e := Unsubscribed(a, c, Accepted(Starting([])));
    var w := Run(Joining(a, c, [x]));
    RunMore(Joining(a, c, [x]), e);
    UnsubscribeKeepsCounts(w.core, a, w.sessions[a], c, e.call);
    NoRows(a, c);
    assert map[c := {x}] - {c} == map[];
    var v := Step(w, e);
    U.SubscribedIffCounted(v.core.upstream, x);
    assert RowsFor(v.core.rows, x) == {};
    assert Slack(v.core, x) == 1;
  }

  lemma DistinctIff(list: seq<Stream>)
    ensures Distinct(list) <==> forall x :: multiset(list)[x] <= 1
  {
    if Distinct(list) {
      forall x ensures multiset(list)[x] <= 1 {
        OncePerStream(list, x);
      }
    } else {
      var i, j :| 0 <= i < j < |list| && list[i] == list[j];
      assert list == list[..i + 1] + list[i + 1..];
      assert list[i] in list[..i + 1] && list[i + 1..][j - i - 1] == list[i];
      assert multiset(list)[list[i]] == multiset(list[..i + 1])[list[i]] + multiset(list[i + 1..])[list[i]];
    }
  }

  function ChannelRow(rows: set<Row>, sid: Sid, x: Stream, id: Id): nat {
    if Row(sid, x, id) in rows then 1 else 0
  }

  lemma LeftRows(rows: set<Row>, left: set<Row>, sid: Sid, id: Id, streams: seq<Stream>, x: Stream)
    requires left == (set r | r in rows && !(r.sid == sid && r.id == id)) + ChannelRows(sid, id, streams)
    ensures |RowsFor(left, x)| == |RowsFor(rows, x)| - ChannelRow(rows, sid, x, id)
                                  + if multiset(streams)[x] > 0 then 1 else 0
  {
    var row := Row(sid, x, id);
    var rest := RowsFor(rows, x) - {row};
    assert x in streams <==> multiset(streams)[x] > 0;
    assert row in RowsFor(rows, x) <==> row in rows;
    assert RowsFor(left, x) == if x in streams then rest + {row} else rest;
  }

  // The slack grows by the row that went and by the repetitions among the streams started.
  lemma UnsubscribeSlack(c: Core, sid: Sid, s: Session, id: Id, call: Call, x: Stream)
    requires U.InStep(c.upstream) && !s.phase.Closed? && id in s.channels
    requires call.Answered? && !call.failed && !(call.reply.disconnect && Dropped(s))
    ensures var c' := UnsubscribeSpec(c, sid, s, id, call).0;
            var m := multiset(call.reply.streams)[x];
            Slack(c', x) == Slack(c, x) + ChannelRow(c.rows, sid, x, id) + m - if m > 0 then 1 else 0
  {
    hide UnsubscribeSpec, U.Count, U.InStep;
    UnsubscribeKeepsCounts(c, sid, s, id, call);
    var c' := UnsubscribeSpec(c, sid, s, id, call).0;
    LeftRows(c.rows, c'.rows, sid, id, call.reply.streams, x);
  }

  // When the session is dropped as well, the slack grows by the streams started in vain and by
  // the rows that none of the other channels accounts for.
  lemma DroppedSlack(c: Core, sid: Sid, s: Session, id: Id, call: Call, x: Stream)
    requires Enough(c) && Dropped(s) && id in s.channels && Backed(c.rows, sid, s)
    requires call.Answered? && !call.failed && call.reply.disconnect
    ensures var c' := UnsubscribeSpec(c, sid, s, id, call).0;
            var mine := RowsFor(SessionRows(sid, s.channels - {id}), x);
            && U.InStep(c'.upstream)
            && mine <= RowsFor(RowsOf(c.rows, sid), x)
            && Slack(c', x) == Slack(c, x) + multiset(call.reply.streams)[x]
                               + |RowsFor(RowsOf(c.rows, sid), x)| - |mine|
  {
    hide U.Raise, U.Lower, U.Count, U.InStep, Uses;
    var ch := s.channels - {id};
    var m := multiset(call.reply.streams);
    var c' := UnsubscribeSpec(c, sid, s, id, call).0;
    U.NoChange(c.upstream);
    U.RaiseCounts(c.upstream, m);
    U.LowerCounts(U.Raise(c.upstream, m), Uses(ch));
    SessionRowsCount(sid, ch, x);
    assert SessionRows(sid, ch) <= SessionRows(sid, s.channels);
    var all, his := RowsFor(c.rows, x), RowsFor(RowsOf(c.rows, sid), x);
    assert RowsFor(c'.rows, x) == all - his && his <= all;
    Subset(RowsFor(SessionRows(sid, ch), x), his);
    Subset(his, all);
    assert |all - his| == |all| - |his|;
    assert Slack(c, x) >= 0;
  }

  lemma SameSize<T>(a: set<T>, b: set<T>)
    requires a <= b && |a| >= |b|
    ensures a == b
  {
    if x :| x in b && x !in a {
      Subset(a, b - {x});
    }
  }

  lemma DroppedExactIff(c: Core, sid: Sid, s: Session, id: Id, call: Call)
    requires Exact(c) && Dropped(s) && id in s.channels && Backed(c.rows, sid, s)
    requires call.Answered? && !call.failed && call.reply.disconnect
    ensures Exact(UnsubscribeSpec(c, sid, s, id, call).0) <==>
            call.reply.streams == [] && SessionRows(sid, s.channels - {id}) == RowsOf(c.rows, sid)
  {
    hide UnsubscribeSpec, Slack, RowsOf, SessionRows;
    var c' := UnsubscribeSpec(c, sid, s, id, call).0;
    var mine, his := SessionRows(sid, s.channels - {id}), RowsOf(c.rows, sid);
    var m := multiset(call.reply.streams);
    DroppedSlack(c, sid, s, id, call, "");
    forall x ensures Slack(c', x) == 0 <==> m[x] == 0 && RowsFor(mine, x) == RowsFor(his, x) {
      DroppedSlack(c, sid, s, id, call, x);
      Subset(RowsFor(mine, x), RowsFor(his, x));
      if |RowsFor(mine, x)| >= |RowsFor(his, x)| {
        SameSize(RowsFor(mine, x), RowsFor(his, x));
      }
    }
    SameRows(mine, his);
    if Exact(c') {
      forall x ensures m[x] == 0 && RowsFor(mine, x) == RowsFor(his, x) {
        assert Slack(c', x) == 0;
      }
      assert call.reply.streams != [] ==> m[call.reply.streams[0]] > 0;
    }
  }

  lemma SameRows(a: set<Row>, b: set<Row>)
    ensures a == b <==> forall x :: RowsFor(a, x) == RowsFor(b, x)
  {
    if forall x :: RowsFor(a, x) == RowsFor(b, x) {
      forall r | r in a || r in b ensures r in a && r in b {
        assert r in RowsFor(a, r.stream) || r in RowsFor(b, r.stream);
      }
    }
  }

  // From exact counts an acknowledged unsubscribe keeps them exact if and only if the channel
  // had no rows and the reply starts distinct streams; when it disconnects the session as
  // well, if and only if it starts none and the other channels account for all of its rows.
  lemma UnsubscribeExactIff(c: Core, sid: Sid, s: Session, id: Id, call: Call)
    requires Exact(c) && !s.phase.Closed? && id in s.channels && Backed(c.rows, sid, s)
    requires call.Answered? && !call.failed
    ensures Exact(UnsubscribeSpec(c, sid, s, id, call).0) <==>
            if call.reply.disconnect && Dropped(s)
            then call.reply.streams == [] && SessionRows(sid, s.channels - {id}) == RowsOf(c.rows, sid)
            else Distinct(call.reply.streams) && forall x :: Row(sid, x, id) !in c.rows
  {
    hide UnsubscribeSpec, Slack, Distinct;
    if call.reply.disconnect && Dropped(s) {
      DroppedExactIff(c, sid, s, id, call);
    } else {
      var c' := UnsubscribeSpec(c, sid, s, id, call).0;
      UnsubscribeKeepsCounts(c, sid, s, id, call);
      DistinctIff(call.reply.streams);
      forall x ensures Slack(c', x) == 0 <==> Row(sid, x, id) !in c.rows && multiset(call.reply.streams)[x] <= 1 {
        UnsubscribeSlack(c, sid, s, id, call, x);
      }
    }
  }

  // One more channel adds its streams once each.
  lemma UsesAdd(ch: Channels, id: Id, streams: set<Stream>)
    requires id !in ch
    ensures Uses(ch[id := streams]) == Uses(ch) + multiset(streams)
  {
    hide Uses;
    var more := ch[id := streams];
    forall s ensures Uses(more)[s] == (Uses(ch) + multiset(streams))[s] {
      UsesCount(ch, s);
      UsesCount(more, s);
      assert Users(more, s) == if s in streams then Users(ch, s) + {id} else Users(ch, s);
    }
  }

  lemma UsesNone()
    ensures Uses(map[]) == multiset{}
  {
  }

  // ---------- Replies taken apart ----------

  function Stopping(list: seq<Stream>): CommandResult {
    CommandResult(false, list, [], false)
  }

  function Starting(list: seq<Stream>): CommandResult {
    CommandResult(false, [], list, false)
  }

  lemma StopOneMore(ch: Channels, sid: Sid, id: Id, list: seq<Stream>, x: Stream)
    ensures NewChannels(NewChannels(ch, id, Stopping(list)), id, Stopping([x])) ==
        NewChannels(ch, id, Stopping(list + [x]))
    ensures ChannelRows(sid, id, list + [x]) == ChannelRows(sid, id, list) + {Row(sid, x, id)}
    ensures multiset(list + [x]) == multiset(list) + multiset{x}
  {
    ElementsMore(list, x);
    if id in ch {
      assert (ch[id] - Elements(list) + {}) - {x} + {} == ch[id] - (Elements(list) + {x}) + {};
    }
  }

  lemma ElementsMore(list: seq<Stream>, x: Stream)
    ensures Elements(list + [x]) == Elements(list) + {x} && Elements([x]) == {x} && Elements<Stream>([]) == {}
  {
  }

  lemma StartOne(ch: Channels, id: Id, x: Stream)
    ensures NewChannels(ch, id, Starting([x])) == if id in ch then ch[id := ch[id] + {x}] else ch
    ensures NewChannels(ch, id, Stopping([x])) == if id in ch then ch[id := ch[id] - {x}] else ch
    ensures NewChannels(ch, id, CommandResult(true, [], [], false)) == if id in ch then ch[id := {}] else ch
  {
    ElementsMore([], x);
    if id in ch {
      var none: set<Stream> := {};
      assert ch[id] - none + {x} == ch[id] + {x} && ch[id] - {x} + none == ch[id] - {x} && none + none == none;
    }
  }

  lemma StartOneMore(ch: Channels, sid: Sid, id: Id, list: seq<Stream>, x: Stream)
    ensures NewChannels(NewChannels(ch, id, Starting(list)), id, Starting([x])) ==
        NewChannels(ch, id, Starting(list + [x]))
  {
    ElementsMore(list, x);
    if id in ch {
      assert (ch[id] - {} + Elements(list)) - {} + {x} == ch[id] - {} + (Elements(list) + {x});
    }
  }

  lemma NothingStarted(ch: Channels, id: Id)
    ensures NewChannels(ch, id, Starting([])) == ch
  {
    if id in ch {
      assert NewChannels(ch, id, Starting([]))[id] == ch[id];
    }
  }

  lemma StopThenStart(ch: Channels, id: Id, reply: CommandResult)
    ensures NewChannels(NewChannels(ch, id, reply.(streams := [])), id, Starting(reply.streams)) ==
        NewChannels(ch, id, reply)
  {
  }
}
