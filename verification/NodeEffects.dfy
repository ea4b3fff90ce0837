/** What each command does, row by row, stream by stream and channel by channel, for any state of
the node: the meaning of the steps that NodeState composes. */
module NodeEffects {
  import opened Basics
  import H = HubState
  import opened NodeState
  import U = Upstream

  type Sid = H.Sid
  type Stream = H.Stream
  type Id = H.Id
  type Row = H.Row

  function Minus(a: nat, b: nat): nat {
    if a > b then a - b else 0
  }

  // The row belongs to the channel, and the reply stops its stream.
  predicate StoppedRow(sid: Sid, id: Id, reply: CommandResult, r: Row) {
    r.sid == sid && r.id == id && (reply.stopAll || r.stream in reply.stopped)
  }

  predicate StartedRow(sid: Sid, id: Id, reply: CommandResult, r: Row) {
    r.sid == sid && r.id == id && r.stream in reply.streams
  }

  ghost predicate OthersKept(w: World, v: World, sid: Sid) {
    && v.sessions.Keys == w.sessions.Keys
    && forall y :: y in w.sessions && y != sid ==> v.sessions[y] == w.sessions[y]
  }

  // How often a reply makes the broker cancel a stream.
  ghost function Cancelled(s: Session, id: Id, reply: CommandResult, x: Stream): nat {
    if !reply.stopAll then multiset(reply.stopped)[x]
    else if id in s.channels && x in s.channels[id] then 1
    else 0
  }

  lemma ReplyEffect(c: Core, sid: Sid, s: Session, id: Id, reply: CommandResult)
    requires U.InStep(c.upstream) && !reply.disconnect
    ensures var (c', s') := ReplySpec(c, sid, s, id, reply);
            && (forall r :: r in c'.rows <==>
                  StartedRow(sid, id, reply, r) || (r in c.rows && !StoppedRow(sid, id, reply, r)))
            && U.InStep(c'.upstream)
            && (forall x :: U.Count(c'.upstream, x) ==
                  Minus(U.Count(c.upstream, x), Cancelled(s, id, reply, x)) + multiset(reply.streams)[x])
            && s'.phase == s.phase && s'.inactive == s.inactive && s'.channels.Keys == s.channels.Keys
            && (forall i :: i in s.channels && i != id ==> s'.channels[i] == s.channels[i])
            && (id in s.channels ==> forall x :: x in s'.channels[id] <==>
                  x in reply.streams || (x in s.channels[id] && !(reply.stopAll || x in reply.stopped)))
  {
    hide U.Raise, U.Lower, U.Count, U.InStep;
    var stops := Stops(s, id, reply);
    U.LowerCounts(c.upstream, stops);
    U.RaiseCounts(U.Lower(c.upstream, stops), multiset(reply.streams));
    forall x ensures stops[x] == Cancelled(s, id, reply, x) {
    }
  }

  // A confirmed subscription makes the channel, with the streams its reply starts; a rejected or
  // failed one makes none, though the streams of its reply are started all the same.
  lemma SubscribedEffect(w: World, sid: Sid, id: Id, call: Call)
    requires U.InStep(w.core.upstream) && sid in w.sessions && !w.sessions[sid].phase.Closed?
    requires id !in w.sessions[sid].channels && call.Answered? && !call.reply.disconnect
    ensures var v := Step(w, Subscribed(sid, id, call));
            var was, now := w.sessions[sid].channels, v.sessions[sid].channels;
            && (forall r :: r in v.core.rows <==>
                  StartedRow(sid, id, call.reply, r) || (r in w.core.rows && !StoppedRow(sid, id, call.reply, r)))
            && (forall x :: U.Count(v.core.upstream, x) == multiset(call.reply.streams)[x] +
                  Minus(U.Count(w.core.upstream, x), if call.reply.stopAll then 0 else multiset(call.reply.stopped)[x]))
            && now == (if call.accepted && !call.failed then was[id := Elements(call.reply.streams)] else was)
            && v.sessions[sid].phase == w.sessions[sid].phase && OthersKept(w, v, sid)
  {
    hide ReplySpec, U.Count, U.InStep;
    var s := w.sessions[sid];
    var s' := if !call.failed && call.accepted then s.(channels := s.channels[id := {}]) else s;
    ReplyEffect(w.core, sid, s', id, call.reply);
    var ch := ReplySpec(w.core, sid, s', id, call.reply).1.channels;
    if id in s'.channels {
      assert ch[id] == Elements(call.reply.streams);
      assert ch == s.channels[id := Elements(call.reply.streams)];
    } else {
      assert ch == s.channels;
    }
  }

  // An action changes its channel's streams, and nothing else, as its reply says.
  lemma PerformedEffect(w: World, sid: Sid, id: Id, call: Call)
    requires U.InStep(w.core.upstream) && sid in w.sessions && !w.sessions[sid].phase.Closed?
    requires id in w.sessions[sid].channels && call.Answered? && !call.reply.disconnect
    ensures var v := Step(w, Performed(sid, id, call));
            var was := w.sessions[sid].channels[id];
            && (forall r :: r in v.core.rows <==>
                  StartedRow(sid, id, call.reply, r) || (r in w.core.rows && !StoppedRow(sid, id, call.reply, r)))
            && (forall x :: U.Count(v.core.upstream, x) == multiset(call.reply.streams)[x] +
                  Minus(U.Count(w.core.upstream, x), if !call.reply.stopAll then multiset(call.reply.stopped)[x]
                                                     else if x in was then 1 else 0))
            && (forall i :: i in w.sessions[sid].channels && i != id ==>
                  i in v.sessions[sid].channels && v.sessions[sid].channels[i] == w.sessions[sid].channels[i])
            && v.sessions[sid].channels.Keys == w.sessions[sid].channels.Keys
            && (forall x :: x in v.sessions[sid].channels[id] <==>
                  x in call.reply.streams || (x in was && !(call.reply.stopAll || x in call.reply.stopped)))
            && v.sessions[sid].phase == w.sessions[sid].phase && OthersKept(w, v, sid)
  {
    hide ReplySpec, U.Count, U.InStep;
    ReplyEffect(w.core, sid, w.sessions[sid], id, call.reply);
  }

  // An unsubscribe that failed is an action like any other; an acknowledged one forgets the
  // channel and its rows, and cancels nothing.
  lemma UnsubscribedEffect(w: World, sid: Sid, id: Id, call: Call)
    requires U.InStep(w.core.upstream) && sid in w.sessions && !w.sessions[sid].phase.Closed?
    requires id in w.sessions[sid].channels && call.Answered? && !call.reply.disconnect
    ensures call.failed ==> Step(w, Unsubscribed(sid, id, call)) == Step(w, Performed(sid, id, call))
    ensures !call.failed ==>
              var v := Step(w, Unsubscribed(sid, id, call));
              && (forall r :: r in v.core.rows <==>
                    StartedRow(sid, id, call.reply, r) || (r in w.core.rows && !(r.sid == sid && r.id == id)))
              && (forall x :: U.Count(v.core.upstream, x) ==
                    U.Count(w.core.upstream, x) + multiset(call.reply.streams)[x])
              && v.sessions[sid] == w.sessions[sid].(channels := w.sessions[sid].channels - {id})
              && OthersKept(w, v, sid)
  {
    hide ReplySpec, U.Count, U.InStep;
    if !call.failed {
      UnsubscribeKeepsCounts(w.core, sid, w.sessions[sid], id, call);
    }
  }

  // A command that disconnects does so after everything else.
  lemma DisconnectComesLast(w: World, sid: Sid, id: Id, call: Call)
    requires call.Answered? && call.reply.disconnect && sid in w.sessions && !w.sessions[sid].phase.Closed?
    ensures var quiet := call.(reply := call.reply.(disconnect := false));
            && (id !in w.sessions[sid].channels ==>
                  Step(w, Subscribed(sid, id, call)) == Step(Step(w, Subscribed(sid, id, quiet)), Disconnected(sid)))
            && (id in w.sessions[sid].channels ==>
                  && Step(w, Performed(sid, id, call)) == Step(Step(w, Performed(sid, id, quiet)), Disconnected(sid))
                  && Step(w, Unsubscribed(sid, id, call))
                     == Step(Step(w, Unsubscribed(sid, id, quiet)), Disconnected(sid)))
  {
    hide U.Raise, U.Lower, DisconnectSpec, ReplySpec;
    var s, reply := w.sessions[sid], call.reply;
    SameButDisconnect(w.core, sid, s, id, reply);
    SameButDisconnect(w.core, sid, s.(channels := s.channels[id := {}]), id, reply);
    SameButDisconnect(w.core, sid, s.(channels := s.channels - {id}), id, reply.(stopAll := true));
  }

  lemma SameButDisconnect(c: Core, sid: Sid, s: Session, id: Id, reply: CommandResult)
    requires reply.disconnect
    ensures var (c', s') := ReplySpec(c, sid, s, id, reply.(disconnect := false));
            ReplySpec(c, sid, s, id, reply) == DisconnectSpec(c', sid, s')
  {
    hide U.Raise, U.Lower, DisconnectSpec;
  }

  // Commands that come to nothing: without a result, of a closed or unknown session, to subscribe
  // twice, or on a channel that is not there.
  lemma IgnoredCommands(w: World, sid: Sid, id: Id, call: Call)
    ensures sid !in w.sessions || w.sessions[sid].phase.Closed? || call.NoResult? ==>
              && Step(w, Subscribed(sid, id, call)) == w && Step(w, Unsubscribed(sid, id, call)) == w
              && Step(w, Performed(sid, id, call)) == w
    ensures sid in w.sessions && id in w.sessions[sid].channels ==> Step(w, Subscribed(sid, id, call)) == w
    ensures sid in w.sessions && id !in w.sessions[sid].channels ==>
              Step(w, Unsubscribed(sid, id, call)) == w && Step(w, Performed(sid, id, call)) == w
    ensures sid in w.sessions && w.sessions[sid].phase.Closed? ==>
              Step(w, Authenticated(sid)) == w && forall cached :: Step(w, Restored(sid, cached)) == w
  {
    hide ReplySpec;
    if sid in w.sessions {
      assert w.sessions[sid := w.sessions[sid]] == w.sessions;
    }
  }

  // A restored session takes over every cached channel with all its streams, keeps its others,
  // listens to all of them, and is counted once for each channel that uses a stream.
  lemma RestoredEffect(w: World, sid: Sid, cached: Channels)
    requires U.InStep(w.core.upstream) && sid in w.sessions && !w.sessions[sid].phase.Closed?
    ensures var v := Step(w, Restored(sid, cached));
            var was, ch := w.sessions[sid].channels, v.sessions[sid].channels;
            && v.sessions[sid].phase.Connected? && OthersKept(w, v, sid)
            && (forall id :: id in cached ==> id in ch && ch[id] == cached[id])
            && (forall id :: id !in cached ==> (id in ch <==> id in was) && (id in was ==> ch[id] == was[id]))
            && (forall id, x :: id in cached && x in cached[id] ==> H.Row(sid, x, id) in v.core.rows)
            && (forall r :: r in v.core.rows <==>
                  r in w.core.rows || (r.sid == sid && r.id in ch && r.stream in ch[r.id]))
            && (forall x :: U.Count(v.core.upstream, x) ==
                  U.Count(w.core.upstream, x) + |set id | id in ch && x in ch[id]|)
  {
    hide U.Raise, U.Count, U.InStep, Uses;
    var ch := w.sessions[sid].channels + cached;
    U.RaiseCounts(w.core.upstream, Uses(ch));
    forall x ensures Uses(ch)[x] == |set id | id in ch && x in ch[id]| {
      UsesCount(ch, x);
      assert Users(ch, x) == set id | id in ch && x in ch[id];
    }
    assert Step(w, Restored(sid, cached)).sessions[sid].channels == ch;
  }

  // A connected session that leaves takes all its rows and cancels each stream once per channel;
  // one that is inactive, or not connected, is only closed.
  lemma DisconnectedEffect(w: World, sid: Sid)
    requires U.InStep(w.core.upstream) && sid in w.sessions
    ensures var s := w.sessions[sid];
            var v := Step(w, Disconnected(sid));
            && v.sessions[sid] == s.(phase := Closed) && OthersKept(w, v, sid)
            && (s.phase.Connected? && !s.inactive ==>
                  && (forall r :: r in v.core.rows <==> r in w.core.rows && r.sid != sid)
                  && (forall x :: U.Count(v.core.upstream, x) ==
                        Minus(U.Count(w.core.upstream, x), |set id | id in s.channels && x in s.channels[id]|)))
            && (!s.phase.Connected? || s.inactive ==> v.core == w.core)
  {
    hide U.Lower, U.Count, U.InStep, Uses;
    var ch := w.sessions[sid].channels;
    U.LowerCounts(w.core.upstream, Uses(ch));
    forall x ensures Uses(ch)[x] == |set id | id in ch && x in ch[id]| {
      UsesCount(ch, x);
      assert Users(ch, x) == set id | id in ch && x in ch[id];
    }
  }

  lemma ConnectedEffect(w: World, sid: Sid, inactive: bool)
    ensures var v := Step(w, Open(sid, inactive));
            && v.core == w.core
            && (sid in w.sessions ==> v == w)
            && (sid !in w.sessions ==> v.sessions == w.sessions[sid := Session(map[], New, inactive)])
    ensures sid in w.sessions && !w.sessions[sid].phase.Closed? ==>
              var v := Step(w, Authenticated(sid));
              v.core == w.core && v.sessions == w.sessions[sid := w.sessions[sid].(phase := Connected)]
  {
    if sid in w.sessions {
      assert w.sessions[sid := w.sessions[sid]] == w.sessions;
    }
  }
}
