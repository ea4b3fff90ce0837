/** The node's commands as the source runs them: step by step over the hub, the broker's
subscriptions and the session's own subscription state. */
module Node {
  import opened Basics
  import H = HubState
  import U = Upstream
  import opened NodeState
  import opened SessionHub

  type Id = H.Id
  type Stream = H.Stream
  type Sid = H.Sid

  // The elements of a set, each once, in arbitrary order.
  method Listing(s: set<Stream>) returns (r: seq<Stream>)
    ensures multiset(r) == multiset(s)
  {
    r := [];
    var todo := s;
    while todo != {}
      invariant todo <= s && multiset(r) == multiset(s - todo)
    {
      var x :| x in todo;
      r := r + [x];
      assert s - (todo - {x}) == (s - todo) + {x};
      todo := todo - {x};
    }
    assert s - todo == s;
  }

  class SubscriptionState {
    var channels: Channels

    constructor ()
      ensures channels == map[]
    {
      channels := map[];
    }

    method AddChannel(id: Id)
      modifies this
      ensures channels == old(channels)[id := {}]
    {
      channels := channels[id := {}];
    }

    method RemoveChannel(id: Id)
      modifies this
      ensures channels == old(channels) - {id}
    {
      channels := channels - {id};
    }

    method AddChannelStream(id: Id, s: Stream)
      modifies this
      ensures channels == NewChannels(old(channels), id, Starting([s]))
    {
      StartOne(channels, id, s);
      if id in channels {
        channels := channels[id := channels[id] + {s}];
      }
    }

    method RemoveChannelStream(id: Id, s: Stream)
      modifies this
      ensures channels == NewChannels(old(channels), id, Stopping([s]))
    {
      StartOne(channels, id, s);
      if id in channels {
        channels := channels[id := channels[id] - {s}];
      }
    }

    // Empties the channel and returns what it held.
    method RemoveChannelStreams(id: Id) returns (removed: seq<Stream>)
      modifies this
      ensures channels == NewChannels(old(channels), id, CommandResult(true, [], [], false))
      ensures multiset(removed) == if id in old(channels) then multiset(old(channels)[id]) else multiset{}
    {
      StartOne(channels, id, "");
      if id !in channels {
        return [];
      }
      removed := Listing(channels[id]);
      channels := channels[id := {}];
    }

    method ToMap() returns (res: map<Id, seq<Stream>>)
      ensures res.Keys == channels.Keys
      ensures forall id :: id in res ==> multiset(res[id]) == multiset(channels[id])
    {
      res := map[];
      var todo := channels.Keys;
      while todo != {}
        invariant todo <= channels.Keys && res.Keys == channels.Keys - todo
        invariant forall id :: id in res ==> multiset(res[id]) == multiset(channels[id])
      {
        var id :| id in todo;
        var streams := Listing(channels[id]);
        res := res[id := streams];
        todo := todo - {id};
      }
    }
  }

  class ClientSession {
    const uid: Sid
    const inactive: bool
    const subscriptions: SubscriptionState
    var phase: Phase

    ghost function View(): Session
      reads this, subscriptions
    {
      Session(subscriptions.channels, phase, inactive)
    }

    constructor (uid: Sid, inactive: bool)
      ensures this.uid == uid && fresh(subscriptions)
      ensures View() == Session(map[], New, inactive)
    {
      this.uid, this.inactive, phase := uid, inactive, New;
      subscriptions := new SubscriptionState();
    }
  }

  class Node {
    const hub: Hub
    const gateway: U.Gateway

    ghost predicate Sound()
      reads hub, hub.gates, gateway, gateway.tracker
    {
      hub.Valid() && U.InStep(gateway.View())
    }

    // Sound, and the hub can find every row through its session's list.
    ghost predicate Valid()
      reads hub, hub.gates, gateway, gateway.tracker
    {
      Sound() && H.Covered(hub.View())
    }

    ghost function View(): Core
      reads hub, hub.gates, gateway, gateway.tracker
    {
      Core(hub.View().rows, gateway.View())
    }

    constructor (poolSize: nat, index: Stream -> nat)
      requires forall s :: index(s) < poolSize
      ensures Valid() && fresh(hub) && fresh(hub.gates) && fresh(gateway) && fresh(gateway.tracker)
      ensures View() == Core({}, U.State(map[], {}))
    {
      hub := new Hub(poolSize, index);
      gateway := new U.Gateway();
    }

    method StopStream(s: ClientSession, id: Id, x: Stream)
      requires Valid()
      modifies hub, hub.gates, gateway, gateway.tracker, s.subscriptions
      ensures Valid()
      ensures View() == Core(old(View()).rows - {H.Row(s.uid, x, id)}, U.Unsubscribe(old(View()).upstream, x))
      ensures s.subscriptions.channels == NewChannels(old(s.subscriptions.channels), id, Stopping([x]))
    {
      hide H.Covered, U.InStep, NewChannels, Hub.Valid, Hub.View;
      H.UnsubscribeCovers(hub.View(), s.uid, x, id);
      gateway.UnsubscribeStream(x);
      hub.UnsubscribeSession(s.uid, x, id);
      s.subscriptions.RemoveChannelStream(id, x);
    }

    method StartStream(s: ClientSession, id: Id, x: Stream)
      requires Valid()
      modifies hub, hub.gates, gateway, gateway.tracker, s.subscriptions
      ensures Valid()
      ensures View() == Core(old(View()).rows + {H.Row(s.uid, x, id)}, U.Subscribe(old(View()).upstream, x))
      ensures s.subscriptions.channels == NewChannels(old(s.subscriptions.channels), id, Starting([x]))
    {
      hide H.Covered, U.InStep, NewChannels, Hub.Valid, Hub.View;
      SubscribeCovers(hub.View(), s.uid, x, id);
      gateway.SubscribeStream(x);
      hub.SubscribeSession(s.uid, x, id);
      s.subscriptions.AddChannelStream(id, x);
    }

    // The loop over StoppedStreams.
    method StopStreams(s: ClientSession, id: Id, stopped: seq<Stream>)
      requires Valid()
      modifies hub, hub.gates, gateway, gateway.tracker, s.subscriptions
      ensures Valid()
      ensures View() == Core(old(View()).rows - ChannelRows(s.uid, id, stopped),
                             U.Lower(old(View()).upstream, multiset(stopped)))
      ensures s.subscriptions.channels == NewChannels(old(s.subscriptions.channels), id, Stopping(stopped))
    {
      hide H.Covered, U.InStep, U.Lower, U.Unsubscribe, NewChannels, ChannelRows, Hub.Valid, Hub.View;
      ghost var c, ch := View(), s.subscriptions.channels;
      NothingStopped(c, ch, s.uid, id);
      for i := 0 to |stopped|
        invariant Valid()
        invariant View() == Core(c.rows - ChannelRows(s.uid, id, stopped[..i]),
                                 U.Lower(c.upstream, multiset(stopped[..i])))
        invariant s.subscriptions.channels == NewChannels(ch, id, Stopping(stopped[..i]))
      {
        var x := stopped[i];
        StopOneMore(ch, s.uid, id, stopped[..i], x);
        U.LowerMore(c.upstream, multiset(stopped[..i]), x);
        StopStream(s, id, x);
        assert stopped[..i + 1] == stopped[..i] + [x];
      }
      assert stopped[..|stopped|] == stopped;
    }

    // StopAllStreams: the hub forgets the channel's rows, the broker hears about the streams
    // the subscription state still lists.
    method StopAllStreams(s: ClientSession, id: Id)
      requires Valid()
      modifies hub, hub.gates, gateway, gateway.tracker, s.subscriptions
      ensures Valid()
      ensures View().rows == set r | r in old(View()).rows && !(r.sid == s.uid && r.id == id)
      ensures View().upstream == U.Lower(old(View()).upstream,
                if id in old(s.subscriptions.channels) then multiset(old(s.subscriptions.channels)[id]) else multiset{})
      ensures s.subscriptions.channels == NewChannels(old(s.subscriptions.channels), id,
          CommandResult(true, [], [], false))
    {
      hide H.Covered, H.UnsubscribeChannel, U.InStep, U.Lower, NewChannels, Hub.Valid, Hub.View;
      H.ChannelLeavesNothing(hub.View(), s.uid, id);
      hub.UnsubscribeSessionFromChannel(s.uid, id);
      var removed := s.subscriptions.RemoveChannelStreams(id);
      CancelAll(removed);
    }

    // Tells the broker about each stream in turn.
    method CancelAll(streams: seq<Stream>)
      requires U.InStep(gateway.View())
      modifies gateway, gateway.tracker
      ensures U.InStep(gateway.View())
      ensures gateway.View() == U.Lower(old(gateway.View()), multiset(streams))
    {
      hide U.InStep, U.Lower, U.Unsubscribe;
      ghost var u := gateway.View();
      U.NoChange(u);
      assert multiset(streams[..0]) == multiset{};
      for i := 0 to |streams|
        invariant U.InStep(gateway.View())
        invariant gateway.View() == U.Lower(u, multiset(streams[..i]))
      {
        U.LowerMore(u, multiset(streams[..i]), streams[i]);
        gateway.UnsubscribeStream(streams[i]);
        assert streams[..i + 1] == streams[..i] + [streams[i]];
      }
      assert streams[..|streams|] == streams;
    }

    // The loop over Streams.
    method StartStreams(s: ClientSession, id: Id, streams: seq<Stream>)
      requires Valid()
      modifies hub, hub.gates, gateway, gateway.tracker, s.subscriptions
      ensures Valid()
      ensures View() == Core(old(View()).rows + ChannelRows(s.uid, id, streams),
                             U.Raise(old(View()).upstream, multiset(streams)))
      ensures s.subscriptions.channels == NewChannels(old(s.subscriptions.channels), id, Starting(streams))
    {
      hide H.Covered, U.InStep, U.Raise, U.Subscribe, NewChannels, ChannelRows, Hub.Valid, Hub.View;
      ghost var c, ch := View(), s.subscriptions.channels;
      NoStreamsStarted(c, ch, s.uid, id);
      for i := 0 to |streams|
        invariant Valid()
        invariant View() == Core(c.rows + ChannelRows(s.uid, id, streams[..i]),
                                 U.Raise(c.upstream, multiset(streams[..i])))
        invariant s.subscriptions.channels == NewChannels(ch, id, Starting(streams[..i]))
      {
        var x := streams[i];
        StopOneMore(ch, s.uid, id, streams[..i], x);
        StartOneMore(ch, s.uid, id, streams[..i], x);
        U.RaiseMore(c.upstream, multiset(streams[..i]), x);
        ghost var rows := ChannelRows(s.uid, id, streams[..i]);
        assert c.rows + rows + {H.Row(s.uid, x, id)} == c.rows + (rows + {H.Row(s.uid, x, id)});
        StartStream(s, id, x);
        assert streams[..i + 1] == streams[..i] + [x];
      }
      assert streams[..|streams|] == streams;
    }

    method Disconnect(s: ClientSession, ids: string)
      requires Valid()
      modifies hub, hub.gates, gateway, gateway.tracker, s
      ensures Valid()
      ensures (View(), s.View()) == DisconnectSpec(old(View()), s.uid, old(s.View()))
    {
      hide H.Covered, H.Unregister, U.InStep, U.Lower, Uses, Hub.Valid, Hub.View;
      var wasConnected := s.phase.Connected?;
      s.phase := Closed;
      if wasConnected && !s.inactive {
        var all := s.subscriptions.ToMap();
        CancelChannels(s.subscriptions.channels, all);
        H.UnregisterLeavesNothing(hub.View(), s.uid);
        hub.RemoveSession(s.uid, ids);
      }
    }

    // unsubscribeSessionStreams: every stream of every channel.
    method CancelChannels(ghost ch: Channels, all: map<Id, seq<Stream>>)
      requires U.InStep(gateway.View()) && all.Keys == ch.Keys
      requires forall id :: id in all ==> multiset(all[id]) == multiset(ch[id])
      modifies gateway, gateway.tracker
      ensures U.InStep(gateway.View())
      ensures gateway.View() == U.Lower(old(gateway.View()), Uses(ch))
    {
      hide U.InStep, U.Lower, Uses;
      ghost var u := gateway.View();
      ghost var done: Channels := map[];
      U.NoChange(u);
      UsesNone();
      var todo := all.Keys;
      while todo != {}
        invariant todo <= ch.Keys && done == Chosen(ch, ch.Keys - todo)
        invariant U.InStep(gateway.View()) && gateway.View() == U.Lower(u, Uses(done))
      {
        var id :| id in todo;
        ChosenMore(ch, ch.Keys - todo, id);
        UsesAdd(done, id, ch[id]);
        LowerTwice(u, Uses(done), multiset(ch[id]));
        CancelAll(all[id]);
        done := done[id := ch[id]];
        todo := todo - {id};
        assert ch.Keys - todo == (ch.Keys - (todo + {id})) + {id};
      }
      assert ch.Keys - todo == ch.Keys;
      assert done == ch;
    }

    method HandleCommandReply(s: ClientSession, id: Id, reply: CommandResult, ids: string)
      requires Valid()
      modifies hub, hub.gates, gateway, gateway.tracker, s, s.subscriptions
      ensures Valid()
      ensures (View(), s.View()) == ReplySpec(old(View()), s.uid, old(s.View()), id, reply)
    {
      hide H.Covered, U.InStep, U.Lower, U.Raise, NewChannels, DisconnectSpec, ChannelRows, Hub.Valid, Hub.View;
      StopThenStart(s.subscriptions.channels, id, reply);
      if reply.stopAll {
        StopAllStreams(s, id);
        NoStoppedNeeded(old(s.subscriptions.channels), id, reply);
      } else {
        StopStreams(s, id, reply.stopped);
        assert reply.(streams := [], disconnect := false) == Stopping(reply.stopped);
        DisconnectIgnored(old(s.subscriptions.channels), id, reply.(streams := []));
      }
      StartStreams(s, id, reply.streams);
      if reply.disconnect {
        Disconnect(s, ids);
      }
    }

    method Subscribe(s: ClientSession, id: Id, call: Call, ids: string)
      requires Valid()
      modifies hub, hub.gates, gateway, gateway.tracker, s, s.subscriptions
      ensures Valid()
      ensures (View(), s.View()) == SubscribeSpec(old(View()), s.uid, old(s.View()), id, call)
    {
      hide H.Covered, U.InStep, ReplySpec, Hub.Valid, Hub.View;
      if s.phase.Closed? || id in s.subscriptions.channels || call.NoResult? {
        return;
      }
      if !call.failed && call.accepted {
        s.subscriptions.AddChannel(id);
      }
      HandleCommandReply(s, id, call.reply, ids);
    }

    method Unsubscribe(s: ClientSession, id: Id, call: Call, ids: string)
      requires Valid()
      modifies hub, hub.gates, gateway, gateway.tracker, s, s.subscriptions
      ensures Valid()
      ensures (View(), s.View()) == UnsubscribeSpec(old(View()), s.uid, old(s.View()), id, call)
    {
      hide H.Covered, U.InStep, ReplySpec, Hub.Valid, Hub.View;
      if s.phase.Closed? || id !in s.subscriptions.channels || call.NoResult? {
        return;
      }
      var reply := call.reply;
      if !call.failed {
        reply := reply.(stopAll := true);
        s.subscriptions.RemoveChannel(id);
      }
      HandleCommandReply(s, id, reply, ids);
    }

    method Perform(s: ClientSession, id: Id, call: Call, ids: string)
      requires Valid()
      modifies hub, hub.gates, gateway, gateway.tracker, s, s.subscriptions
      ensures Valid()
      ensures (View(), s.View()) == PerformSpec(old(View()), s.uid, old(s.View()), id, call)
    {
      hide H.Covered, U.InStep, ReplySpec, Hub.Valid, Hub.View;
      if s.phase.Closed? || id !in s.subscriptions.channels || call.NoResult? {
        return;
      }
      HandleCommandReply(s, id, call.reply, ids);
    }

    // Any session id is accepted, but one that still has rows loses the way to them.
    method Authenticated(s: ClientSession, ids: string)
      requires Valid()
      modifies hub, s
      ensures Sound() && View() == old(View())
      ensures Valid() <==> old(s.phase).Closed? || s.inactive || H.Free(old(hub.View()), s.uid)
      ensures s.View() == if old(s.phase).Closed? then old(s.View()) else old(s.View()).(phase := Connected)
    {
      hide H.Covered, U.InStep, Hub.Valid, Hub.View;
      if s.phase.Closed? {
        return;
      }
      H.RegisterCoversIff(hub.View(), s.uid);
      s.phase := Connected;
      if !s.inactive {
        hub.AddSession(s.uid, ids);
      }
    }

    // Takes over the cached channels, if there are any and the session is not closed meanwhile,
    // and subscribes to all streams again. Rows the session id had before can still be found
    // exactly when they are among those.
    method TryRestoreSession(s: ClientSession, cached: Option<Channels>, ids: string) returns (restored: bool)
      requires Valid()
      modifies hub, hub.gates, gateway, gateway.tracker, s, s.subscriptions
      ensures Sound() && restored == (cached.Some? && !old(s.phase).Closed?)
      ensures !restored ==> Valid() && View() == old(View()) && s.View() == old(s.View())
      ensures restored ==>
                (View(), s.View()) == RestoreSpec(old(View()), s.uid, old(s.View()), cached.value)
      ensures restored ==> forall id :: id in cached.value ==>
                id in s.subscriptions.channels && s.subscriptions.channels[id] == cached.value[id]
                && forall x :: x in cached.value[id] ==> H.Row(s.uid, x, id) in View().rows
      ensures restored ==>
                (Valid() <==> H.RowsOf(old(View()).rows, s.uid) <= SessionRows(s.uid, s.View().channels))
    {
      hide U.InStep, U.Raise, Uses, Hub.Valid, Hub.View, H.Covered;
      if cached.None? || s.phase.Closed? {
        return false;
      }
      Restore(s, cached.value, ids);
      restored := true;
    }

    method Restore(s: ClientSession, cached: Channels, ids: string)
      requires Valid()
      modifies hub, hub.gates, gateway, gateway.tracker, s, s.subscriptions
      ensures Sound() && (View(), s.View()) == RestoreSpec(old(View()), s.uid, old(s.View()), cached)
      ensures Valid() <==> H.RowsOf(old(View()).rows, s.uid) <= SessionRows(s.uid, s.View().channels)
    {
      hide U.InStep, U.Raise, Uses, SessionRows, Hub.Valid, Hub.View, H.Listed, H.Register;
      ghost var h := hub.View();
      s.subscriptions.channels := s.subscriptions.channels + cached;
      ghost var ch := s.subscriptions.channels;
      s.phase := Connected;
      H.RegisterLists(h, s.uid);
      hub.AddSession(s.uid, ids);
      RegisterRows(h, s.uid);
      var all := s.subscriptions.ToMap();
      Resubscribe(s.uid, ch, all);
      RestoredRows(s.uid, ch);
    }

    method Resubscribe(sid: Sid, ghost ch: Channels, all: map<Id, seq<Stream>>)
      requires Sound() && all.Keys == ch.Keys
      requires forall id :: id in all ==> multiset(all[id]) == multiset(ch[id])
      modifies hub, hub.gates, gateway, gateway.tracker
      ensures Sound()
      ensures View() == Core(old(View()).rows + SessionRows(sid, ch), U.Raise(old(View()).upstream, Uses(ch)))
      ensures forall r :: H.Listed(hub.View(), r) <==> H.Listed(old(hub.View()), r) || r in SessionRows(sid, ch)
    {
      hide U.InStep, U.Raise, Uses, SessionRows, ChannelRows, Hub.Valid, Hub.View, H.Listed;
      ghost var c, h := View(), hub.View();
      ghost var done: Channels := map[];
      NothingRestored(c, sid);
      RestoredNone(sid);
      var todo := all.Keys;
      while todo != {}
        invariant todo <= ch.Keys && done == Chosen(ch, ch.Keys - todo)
        invariant Sound() && View() == Core(c.rows + SessionRows(sid, done), U.Raise(c.upstream, Uses(done)))
        invariant forall r :: H.Listed(hub.View(), r) <==> H.Listed(h, r) || r in SessionRows(sid, done)
      {
        var id :| id in todo;
        ChosenMore(ch, ch.Keys - todo, id);
        RestoreOneMore(c, sid, done, id, ch[id], all[id]);
        SubscribeAll(sid, id, all[id]);
        RestoredMore(sid, done, id, ch[id], all[id]);
        done := done[id := ch[id]];
        todo := todo - {id};
        assert ch.Keys - todo == (ch.Keys - (todo + {id})) + {id};
      }
      assert ch.Keys - todo == ch.Keys;
      assert done == ch;
    }

    method SubscribeAll(sid: Sid, id: Id, streams: seq<Stream>)
      requires Sound()
      modifies hub, hub.gates, gateway, gateway.tracker
      ensures Sound()
      ensures View().rows == old(View()).rows + ChannelRows(sid, id, streams)
      ensures View().upstream == U.Raise(old(View()).upstream, multiset(streams))
      ensures forall r :: H.Listed(hub.View(), r) <==>
          H.Listed(old(hub.View()), r) || r in ChannelRows(sid, id, streams)
    {
      hide U.InStep, U.Raise, U.Subscribe, ChannelRows, Hub.Valid, Hub.View, H.Listed;
      ghost var c, h := View(), hub.View();
      NoStreamsStarted(c, map[], sid, id);
      NoRows(sid, id);
      for i := 0 to |streams|
        invariant Sound()
        invariant View() == Core(c.rows + ChannelRows(sid, id, streams[..i]),
                                 U.Raise(c.upstream, multiset(streams[..i])))
        invariant forall r :: H.Listed(hub.View(), r) <==> H.Listed(h, r) || r in ChannelRows(sid, id, streams[..i])
      {
        var x := streams[i];
        StopOneMore(map[], sid, id, streams[..i], x);
        U.RaiseMore(c.upstream, multiset(streams[..i]), x);
        H.SubscribeLists(hub.View(), sid, x, id);
        ghost var rows := ChannelRows(sid, id, streams[..i]);
        assert c.rows + rows + {H.Row(sid, x, id)} == c.rows + (rows + {H.Row(sid, x, id)});
        gateway.SubscribeStream(x);
        hub.SubscribeSession(sid, x, id);
        assert streams[..i + 1] == streams[..i] + [x];
      }
      assert streams[..|streams|] == streams;
    }
  }

  lemma RegisterRows(h: H.State, sid: Sid)
    ensures H.Register(h, sid).rows == h.rows
  {
  }

  lemma RestoredNone(sid: Sid)
    ensures SessionRows(sid, map[]) == {}
  {
  }

  lemma RestoredRows(sid: Sid, ch: Channels)
    ensures forall r :: r in SessionRows(sid, ch) ==> r.sid == sid
  {
  }

  lemma RestoredMore(sid: Sid, done: Channels, id: Id, streams: set<Stream>, list: seq<Stream>)
    requires id !in done && multiset(list) == multiset(streams)
    ensures SessionRows(sid, done[id := streams]) == SessionRows(sid, done) + ChannelRows(sid, id, list)
  {
    assert forall s :: s in list <==> s in multiset(list);
    assert forall s :: s in streams <==> s in multiset(streams);
  }

  lemma NothingRestored(c: Core, sid: Sid)
    requires U.InStep(c.upstream)
    ensures c == Core(c.rows + SessionRows(sid, map[]), U.Raise(c.upstream, Uses(map[])))
  {
    U.NoChange(c.upstream);
    UsesNone();
    assert SessionRows(sid, map[]) == {};
  }

  lemma RestoreOneMore(c: Core, sid: Sid, done: Channels, id: Id, streams: set<Stream>, list: seq<Stream>)
    requires U.InStep(c.upstream) && id !in done && multiset(list) == multiset(streams)
    ensures Core(c.rows + SessionRows(sid, done) + ChannelRows(sid, id, list),
                 U.Raise(U.Raise(c.upstream, Uses(done)), multiset(list)))
         == Core(c.rows + SessionRows(sid, done[id := streams]), U.Raise(c.upstream, Uses(done[id := streams])))
  {
    hide U.Raise, Uses;
    UsesAdd(done, id, streams);
    RaiseTwice(c.upstream, Uses(done), multiset(list));
    RestoredMore(sid, done, id, streams, list);
    assert c.rows + SessionRows(sid, done) + ChannelRows(sid, id, list)
        == c.rows + (SessionRows(sid, done) + ChannelRows(sid, id, list));
  }

  lemma RaiseTwice(u: U.State, a: multiset<Stream>, b: multiset<Stream>)
    requires U.InStep(u)
    ensures U.Raise(U.Raise(u, a), b) == U.Raise(u, a + b)
  {
    U.RaiseCounts(u, a);
    U.RaiseCounts(U.Raise(u, a), b);
    U.RaiseCounts(u, a + b);
    U.SameCounts(U.Raise(U.Raise(u, a), b), U.Raise(u, a + b));
  }

  // A reply that stops everything ignores the streams it names one by one.
  lemma NoStoppedNeeded(ch: Channels, id: Id, reply: CommandResult)
    requires reply.stopAll
    ensures NewChannels(ch, id, CommandResult(true, [], [], false)) == NewChannels(ch, id, reply.(streams := []))
  {
  }

  lemma DisconnectIgnored(ch: Channels, id: Id, reply: CommandResult)
    ensures NewChannels(ch, id, reply.(disconnect := false)) == NewChannels(ch, id, reply)
  {
  }

  function Chosen(ch: Channels, ids: set<Id>): Channels {
    map id | id in ch && id in ids :: ch[id]
  }

  lemma ChosenMore(ch: Channels, ids: set<Id>, id: Id)
    requires id in ch && id !in ids
    ensures Chosen(ch, ids + {id}) == Chosen(ch, ids)[id := ch[id]]
  {
  }

  lemma LowerTwice(u: U.State, a: multiset<Stream>, b: multiset<Stream>)
    requires U.InStep(u)
    ensures U.Lower(U.Lower(u, a), b) == U.Lower(u, a + b)
  {
    U.LowerCounts(u, a);
    U.LowerCounts(U.Lower(u, a), b);
    U.LowerCounts(u, a + b);
    U.SameCounts(U.Lower(U.Lower(u, a), b), U.Lower(u, a + b));
  }

  lemma SubscribeCovers(h: H.State, sid: Sid, s: Stream, id: Id)
    requires H.Covered(h)
    ensures H.Covered(H.Subscribe(h, sid, s, id))
  {
  }

  lemma NoStreamsStarted(c: Core, ch: Channels, sid: Sid, id: Id)
    requires U.InStep(c.upstream)
    ensures c == Core(c.rows + ChannelRows(sid, id, []), U.Raise(c.upstream, multiset([])))
    ensures ch == NewChannels(ch, id, Starting([]))
  {
    U.NoChange(c.upstream);
    NothingStarted(ch, id);
    var none: seq<Stream> := [];
    assert multiset(none) == multiset{};
  }

  lemma NothingStopped(c: Core, ch: Channels, sid: Sid, id: Id)
    requires U.InStep(c.upstream)
    ensures c == Core(c.rows - ChannelRows(sid, id, []), U.Lower(c.upstream, multiset([])))
    ensures ch == NewChannels(ch, id, Stopping([]))
  {
    U.NoChange(c.upstream);
    NothingStarted(ch, id);
    var none: seq<Stream> := [];
    assert multiset(none) == multiset{};
  }
}
