/** Session timers: one timer armed for the least of five deadlines, and the ping/pong machine
it drives. Times are nanoseconds; a deadline of zero is off. */
module PingPong {
  import opened Basics

  datatype TimerEvent = Ping | Handshake | Pong | Expire | Presence

  datatype Deadlines = Deadlines(ping: int, handshake: int, pong: int, resume: int, presence: int)

  type Armed = Option<(TimerEvent, int)>

  function At(d: Deadlines, e: TimerEvent): int {
    match e
    case Ping => d.ping
    case Handshake => d.handshake
    case Pong => d.pong
    case Expire => d.resume
    case Presence => d.presence
  }

  // The timer is armed for a least positive deadline, and off only when there is none.
  ghost predicate IsLeast(d: Deadlines, armed: Armed) {
    match armed
    case None => forall e :: At(d, e) <= 0
    case Some((e, t)) => 0 < t == At(d, e) && forall x :: At(d, x) > 0 ==> t <= At(d, x)
  }

  function Better(d: Deadlines, best: Armed, e: TimerEvent): Armed {
    if At(d, e) > 0 && (best.None? || At(d, e) < best.value.1) then Some((e, At(d, e))) else best
  }

  // In this order, so that an earlier event wins a tie.
  function Least(d: Deadlines): Armed {
    Better(d, Better(d, Better(d, Better(d, Better(d, None, Ping), Handshake), Pong), Expire), Presence)
  }

  lemma LeastUnfolds(d: Deadlines)
    ensures Least(d) ==
            Better(d, Better(d, Better(d, Better(d, Better(d, None, Ping), Handshake), Pong), Expire), Presence)
  {
    hide Better;
  }

  lemma LeastIsLeast(d: Deadlines)
    ensures IsLeast(d, Least(d))
  {
    forall x ensures At(d, x) > 0 ==> Least(d).Some? && Least(d).value.1 <= At(d, x) {
      match x case Ping => case Handshake => case Pong => case Expire => case Presence =>
    }
  }

  // ---------- The machine ----------

  datatype Conf = Conf(pingInterval: int, pongTimeout: int, resumeInterval: int, presenceInterval: int)

  // `lastMsg` is when the client was last heard, at first when the session started;
  // `noPong` is when it was dropped for silence.
  datatype State = State(
    deadlines: Deadlines, armed: Armed, connected: bool, closed: bool,
    now: int, lastMsg: int, noPong: Option<int>)

  function Rearm(s: State, d: Deadlines): State {
    s.(deadlines := d, armed := Least(d))
  }

  // `jitter` is the random first ping interval.
  function Start(c: Conf, now: int, handshake: int, jitter: int): State {
    var d := Deadlines(
      if c.pingInterval > 0 then now + jitter else 0,
      handshake,
      if c.pingInterval > 0 && c.pongTimeout > 0 then now + c.pongTimeout + jitter else 0,
      if c.resumeInterval > 0 then now + c.resumeInterval else 0,
      if c.presenceInterval > 0 then now + c.presenceInterval else 0);
    State(d, Least(d), false, false, now, now, None)
  }

  datatype Event =
    | Tick(written: bool)     // the timer fires; `written` is the outcome of a ping write
    | Message                 // a command from the client
    | NativePong
    | Connect
    | Close

  datatype Timed = Timed(at: int, event: Event)

  function CloseState(s: State): State {
    s.(connected := false, closed := true, armed := None)
  }

  function Fire(c: Conf, s: State, e: TimerEvent, written: bool): State {
    var d := s.deadlines;
    match e
    case Handshake =>
      var s' := s.(deadlines := d.(handshake := 0));
      if s.connected then Rearm(s', s'.deadlines) else CloseState(s')
    case Presence =>
      Rearm(s, if c.presenceInterval > 0 then d.(presence := s.now + c.presenceInterval) else d)
    case Expire =>
      Rearm(s, if c.resumeInterval > 0 then d.(resume := s.now + c.resumeInterval) else d)
    case Ping =>
      if !written then CloseState(s) else
      Rearm(s, d.(ping := s.now + c.pingInterval,
                  pong := if c.pongTimeout > 0 && d.pong == 0 then s.now + c.pongTimeout else d.pong))
    case Pong =>
      if s.connected then CloseState(s).(noPong := Some(s.now)) else s.(armed := None)
  }

  function Step(c: Conf, s: State, e: Timed): State {
    if s.closed then s.(now := e.at) else
    var u := s.(now := e.at);
    match e.event
    case Tick(w) => if s.armed.None? then u else Fire(c, u, s.armed.value.0, w)
    case Message =>
      var v := u.(lastMsg := e.at);
      if u.deadlines.pong > 0 then Rearm(v, u.deadlines.(pong := 0)) else v
    case NativePong =>
      if u.deadlines.pong <= 0 then u
      else Rearm(u, u.deadlines.(pong := u.deadlines.pong + c.pongTimeout))
    case Connect => u.(connected := true)
    case Close => CloseState(u)
  }

  // Time goes on, a punctual timer is never overtaken, and it fires when due.
  predicate Punctual(s: State, e: Timed) {
    && s.now <= e.at
    && (!s.closed && s.armed.Some? ==> e.at <= Due(s))
    && (e.event.Tick? ==> !s.closed && s.armed.Some? && e.at == Due(s))
  }

  // A deadline already past fires at once.
  function Due(s: State): int
    requires s.armed.Some?
  {
    if s.armed.value.1 < s.now then s.now else s.armed.value.1
  }

  function Run(c: Conf, s: State, run: seq<Timed>): State {
    if run == [] then s else Step(c, Run(c, s, run[..|run| - 1]), run[|run| - 1])
  }

  ghost predicate PunctualRun(c: Conf, s: State, run: seq<Timed>) {
    run == [] ||
    (PunctualRun(c, s, run[..|run| - 1]) && Punctual(Run(c, s, run[..|run| - 1]), run[|run| - 1]))
  }

  // The pong deadline was reached before the session was authenticated.
  predicate EarlyPong(s: State, e: Timed) {
    e.event.Tick? && !s.closed && s.armed.Some? && s.armed.value.0.Pong? && !s.connected
  }

  ghost predicate NoEarlyPong(c: Conf, s: State, run: seq<Timed>) {
    run == [] ||
    (NoEarlyPong(c, s, run[..|run| - 1]) && !EarlyPong(Run(c, s, run[..|run| - 1]), run[|run| - 1]))
  }

  ghost predicate Started(c: Conf, s: State) {
    exists now, handshake, jitter ::
      && s == Start(c, now, handshake, jitter)
      && now > 0 && (handshake == 0 || handshake >= now)
      && c.pingInterval >= 0 && c.pongTimeout >= 0
      && (c.pingInterval > 0 ==> c.pingInterval / 2 <= jitter < c.pingInterval * 3 / 2)
  }

  // ---------- The armed deadline is the least one ----------

  ghost predicate Live(s: State) {
    !s.closed ==> IsLeast(s.deadlines, s.armed) && NotBefore(s.deadlines, s.now)
  }

  // No deadline lies before `t`.
  predicate NotBefore(d: Deadlines, t: int) {
    && (d.ping > 0 ==> d.ping >= t)
    && (d.handshake > 0 ==> d.handshake >= t)
    && (d.pong > 0 ==> d.pong >= t)
    && (d.resume > 0 ==> d.resume >= t)
    && (d.presence > 0 ==> d.presence >= t)
  }

  ghost predicate Sane(c: Conf) {
    c.pingInterval >= 0 && c.pongTimeout >= 0
  }

  lemma StepLive(c: Conf, s: State, e: Timed)
    requires Sane(c) && s.now > 0 && Live(s) && Punctual(s, e)
    ensures Live(Step(c, s, e)) <==> !EarlyPong(s, e)
    ensures Step(c, s, e).now > 0
  {
    hide Least, IsLeast;
    if !s.closed {
      ArmedBounds(s.deadlines, s.armed, s.now, e.at);
      if EarlyPong(s, e) {
        NotOff(s.deadlines, Pong);
      } else {
        LeastIsLeast(Step(c, s, e).deadlines);
      }
    }
  }

  lemma NotOff(d: Deadlines, e: TimerEvent)
    requires At(d, e) > 0
    ensures !IsLeast(d, None)
  {
  }

  // Nothing is due before the armed deadline.
  lemma ArmedBounds(d: Deadlines, armed: Armed, now: int, t: int)
    requires IsLeast(d, armed) && NotBefore(d, now)
    requires armed.Some? ==> t <= armed.value.1 || t <= now
    ensures NotBefore(d, t)
    ensures armed.Some? ==> armed.value.1 >= now && armed.value.1 == At(d, armed.value.0) > 0
  {
    assert At(d, Ping) == d.ping && At(d, Handshake) == d.handshake && At(d, Pong) == d.pong;
    assert At(d, Expire) == d.resume && At(d, Presence) == d.presence;
  }

  lemma StartLive(c: Conf, s: State)
    requires Started(c, s)
    ensures Live(s) && s.now > 0 && Sane(c)
  {
    LeastIsLeast(s.deadlines);
  }

  ghost predicate AlwaysLive(c: Conf, s: State, run: seq<Timed>) {
    Live(Run(c, s, run)) && (run == [] || AlwaysLive(c, s, run[..|run| - 1]))
  }

  // An open session has its timer armed for its least positive deadline, at every moment of a
  // punctual run, if and only if the pong deadline never passes before it is connected.
  lemma {:induction false} ArmedIsLeastIff(c: Conf, s: State, run: seq<Timed>)
    requires Started(c, s) && PunctualRun(c, s, run)
    ensures AlwaysLive(c, s, run) <==> NoEarlyPong(c, s, run)
    ensures AlwaysLive(c, s, run) ==> Run(c, s, run).now > 0
  {
    StartLive(c, s);
    if run != [] {
      hide Step, Live, Punctual, Started, EarlyPong;
      ArmedIsLeastIff(c, s, run[..|run| - 1]);
      if AlwaysLive(c, s, run[..|run| - 1]) {
        StepLive(c, Run(c, s, run[..|run| - 1]), run[|run| - 1]);
      }
    }
  }

  // Otherwise the timer stays off: the session connects late and is never pinged again, nor
  // dropped, until its client speaks.
  lemma EarlyPongStalls()
    ensures var c := Conf(100, 10, 0, 0);
            var s := Start(c, 1, 0, 50);
            var run := [Timed(51, Tick(true)), Timed(61, Tick(true)), Timed(70, Connect)];
            var t := Run(c, s, run);
            && Started(c, s) && PunctualRun(c, s, run)
            && t.connected && !t.closed && t.armed.None? && t.deadlines.ping > 0
  {
    var c := Conf(100, 10, 0, 0);
    var s := Start(c, 1, 0, 50);
    var run := [Timed(51, Tick(true)), Timed(61, Tick(true)), Timed(70, Connect)];
    assert run[..3] == run && run[..3][..2] == run[..2] && run[..2][..1] == run[..1] && run[..1][..0] == [];
    assert s.armed == Some((Ping, 51));
    assert Run(c, s, run[..0]) == s && PunctualRun(c, s, run[..0]);
    var s1 := Run(c, s, run[..1]);
    assert s1 == Step(c, Run(c, s, run[..1][..0]), run[..1][0]);
    assert s1.armed == Some((Pong, 61));
    var s2 := Run(c, s, run[..2]);
    assert s2 == Step(c, s1, run[1]);
    assert s2.armed == None;
    assert Punctual(s, run[0]) && Punctual(s1, run[1]) && Punctual(s2, run[2]);
    assert PunctualRun(c, s, run[..1]);
    assert PunctualRun(c, s, run[..2]);
  }

  // ---------- No client is dropped too early ----------

  ghost predicate Fair(c: Conf, s: State) {
    && (s.deadlines.pong > 0 ==> s.deadlines.pong >= s.lastMsg + c.pongTimeout)
    && (s.armed.Some? ==> s.armed.value.1 == At(s.deadlines, s.armed.value.0) > 0)
    && s.lastMsg <= s.now
    && (s.noPong.Some? ==> s.closed && s.noPong.value >= s.lastMsg + c.pongTimeout)
  }

  lemma LeastConsistent(d: Deadlines)
    ensures Least(d).Some? ==> Least(d).value.1 == At(d, Least(d).value.0) > 0
  {
  }

  lemma StepFair(c: Conf, s: State, e: Timed)
    requires Sane(c) && Fair(c, s) && Punctual(s, e)
    ensures Fair(c, Step(c, s, e))
  {
    hide Least;
    LeastConsistent(Step(c, s, e).deadlines);
  }

  // In every run, authenticated early or late, with or without native pongs, a session dropped
  // for missing pongs was last heard from at least a pong timeout ago.
  lemma {:induction false} NeverDroppedEarly(c: Conf, s: State, run: seq<Timed>)
    requires Started(c, s) && PunctualRun(c, s, run)
    ensures Fair(c, Run(c, s, run))
    ensures var t := Run(c, s, run); t.noPong.Some? ==> t.noPong.value - t.lastMsg >= c.pongTimeout
  {
    if run == [] {
      LeastConsistent(s.deadlines);
    } else {
      hide Step, Punctual, Started, Fair;
      StartSane(c, s);
      NeverDroppedEarly(c, s, run[..|run| - 1]);
      StepFair(c, Run(c, s, run[..|run| - 1]), run[|run| - 1]);
      FairMeans(c, Run(c, s, run));
    }
  }

  lemma StartSane(c: Conf, s: State)
    requires Started(c, s)
    ensures Sane(c)
  {
  }

  lemma FairMeans(c: Conf, s: State)
    requires Fair(c, s)
    ensures s.noPong.Some? ==> s.noPong.value - s.lastMsg >= c.pongTimeout
  {
  }

  // ---------- A silent client is dropped in time ----------

  function LongestPing(c: Conf): int {
    c.pingInterval * 3 / 2
  }

  function Bound(c: Conf): int {
    LongestPing(c) + c.pongTimeout
  }

  // The pong deadline passed before authentication, and the client has not spoken since.
  ghost predicate Stalled(c: Conf, s: State, run: seq<Timed>) {
    run != [] &&
    var e := run[|run| - 1];
    EarlyPong(Run(c, s, run[..|run| - 1]), e) || (Stalled(c, s, run[..|run| - 1]) && !e.event.Message?)
  }

  // Either a pong is awaited and its deadline is in bounds, or the next ping is.
  ghost predicate Watched(c: Conf, s: State) {
    !s.closed ==>
      && s.lastMsg <= s.now
      && 0 < s.deadlines.ping <= s.now + LongestPing(c)
      && (s.deadlines.pong > 0 ==> s.deadlines.pong <= s.lastMsg + Bound(c))
      && (s.deadlines.pong <= 0 ==> s.deadlines.pong == 0 && s.deadlines.ping <= s.lastMsg + LongestPing(c))
  }

  // The timer is off while a pong is overdue, or it is armed and time has not passed it, except
  // at the moment the client speaks after a stall.
  ghost predicate Prompt(s: State) {
    !s.closed ==>
      if s.armed.None? then s.deadlines.pong > 0
      else IsLeast(s.deadlines, s.armed) && (s.now <= s.armed.value.1 || s.now == s.lastMsg)
  }

  lemma LeastIsOn(d: Deadlines)
    requires d.ping > 0
    ensures Least(d).Some?
  {
  }

  lemma ArmedIsBelow(d: Deadlines, armed: Armed)
    requires IsLeast(d, armed) && armed.Some?
    ensures armed.value.1 == At(d, armed.value.0) > 0
    ensures NotBefore(d, armed.value.1)
  {
    assert At(d, Ping) == d.ping && At(d, Handshake) == d.handshake && At(d, Pong) == d.pong;
    assert At(d, Expire) == d.resume && At(d, Presence) == d.presence;
  }

  lemma LeastNotBefore(d: Deadlines, t: int)
    requires NotBefore(d, t) && Least(d).Some?
    ensures t <= Least(d).value.1
  {
  }

  lemma LongerPing(c: Conf)
    requires c.pingInterval > 0
    ensures LongestPing(c) >= c.pingInterval
  {
  }

  lemma StepWatched(c: Conf, s: State, e: Timed)
    requires c.pingInterval > 0 && c.pongTimeout > 0 && s.now > 0
    requires Prompt(s) && Watched(c, s) && Punctual(s, e) && !e.event.NativePong?
    ensures Watched(c, Step(c, s, e)) && Step(c, s, e).now > 0
  {
    hide Least, IsLeast, LongestPing;
    assert LongestPing(c) >= c.pingInterval by { LongerPing(c); }
    if !s.closed && s.armed.Some? {
      ArmedIsBelow(s.deadlines, s.armed);
    }
  }

  // A punctual tick leaves no deadline behind.
  lemma StillAhead(c: Conf, s: State, e: Timed)
    requires c.pingInterval > 0 && c.pongTimeout > 0 && !s.closed && s.armed.Some? && e.event.Tick?
    requires NotBefore(s.deadlines, e.at)
    ensures NotBefore(Step(c, s, e).deadlines, e.at)
  {
    hide Least;
  }

  lemma StepPrompt(c: Conf, s: State, e: Timed)
    requires c.pingInterval > 0 && c.pongTimeout > 0 && s.now > 0
    requires Prompt(s) && Watched(c, s) && Punctual(s, e) && !e.event.NativePong?
    ensures var t := Step(c, s, e);
            Prompt(t) && (!t.closed ==>
              (t.armed.None? <==> EarlyPong(s, e) || (s.armed.None? && !e.event.Message?)))
  {
    hide Least, IsLeast, LongestPing, NotBefore;
    var t := Step(c, s, e);
    if !t.closed {
      LeastIsLeast(t.deadlines);
      LeastIsOn(t.deadlines);
      if s.armed.Some? {
        ArmedIsBelow(s.deadlines, s.armed);
        if e.event.Tick? && e.at == s.armed.value.1 && t.armed.Some? {
          StillAhead(c, s, e);
          LeastNotBefore(t.deadlines, t.now);
        }
      }
    }
  }

  // With pings on and no native pongs, an open session's timer is off if and only if it is
  // stalled; and unless it is, the session is never open later than one and a half ping
  // intervals plus the pong timeout after its client was last heard.
  lemma {:induction false} SilentClientIsDropped(c: Conf, s: State, run: seq<Timed>)
    requires c.pingInterval > 0 && c.pongTimeout > 0
    requires Started(c, s) && PunctualRun(c, s, run)
    requires forall e :: e in run ==> !e.event.NativePong?
    ensures var t := Run(c, s, run);
            && Watched(c, t) && Prompt(t) && t.now > 0
            && (!t.closed ==> (t.armed.None? <==> Stalled(c, s, run)))
            && (!t.closed && !Stalled(c, s, run) ==> t.now <= t.lastMsg + Bound(c))
  {
    if run == [] {
      StartWatched(c, s);
    } else {
      hide Step, Punctual, Started, Watched, Prompt, EarlyPong;
      var init := run[..|run| - 1];
      SilentClientIsDropped(c, s, init);
      StepWatched(c, Run(c, s, init), run[|run| - 1]);
      StepPrompt(c, Run(c, s, init), run[|run| - 1]);
      StaysClosed(c, Run(c, s, init), run[|run| - 1]);
    }
    WatchedMeans(c, Run(c, s, run));
  }

  lemma StartWatched(c: Conf, s: State)
    requires Started(c, s) && c.pingInterval > 0 && c.pongTimeout > 0
    ensures Watched(c, s) && Prompt(s) && s.now > 0 && s.armed.Some?
  {
    hide Least;
    LeastIsLeast(s.deadlines);
    LeastIsOn(s.deadlines);
    LeastNotBefore(s.deadlines, s.now);
  }

  lemma StaysClosed(c: Conf, s: State, e: Timed)
    ensures s.closed ==> Step(c, s, e).closed
  {
  }

  lemma WatchedMeans(c: Conf, s: State)
    requires Prompt(s) && Watched(c, s) && c.pongTimeout > 0 && c.pingInterval > 0
    ensures !s.closed && s.armed.Some? ==> s.now <= s.lastMsg + Bound(c)
  {
    hide IsLeast;
    if !s.closed && s.armed.Some? {
      ArmedIsBelow(s.deadlines, s.armed);
    }
  }

  // A stalled session can stay open for any time, so the exception cannot be narrowed.
  lemma StalledStaysOpen(c: Conf, s: State, run: seq<Timed>, t: int)
    requires c.pingInterval > 0 && c.pongTimeout > 0
    requires Started(c, s) && PunctualRun(c, s, run) && forall e :: e in run ==> !e.event.NativePong?
    requires Stalled(c, s, run) && !Run(c, s, run).closed && t >= Run(c, s, run).now
    ensures var more := run + [Timed(t, Connect)];
            PunctualRun(c, s, more) && Run(c, s, more).now == t && !Run(c, s, more).closed
  {
    SilentClientIsDropped(c, s, run);
    assert (run + [Timed(t, Connect)])[..|run|] == run;
  }

  // ---------- Presence is touched in time ----------

  predicate Touches(s: State, e: Timed) {
    e.event.Tick? && !s.closed && s.armed.Some? && s.armed.value.0.Presence?
  }

  // When presence was last touched, at first when the session started.
  function LastTouch(c: Conf, s: State, run: seq<Timed>): int {
    if run == [] then s.now
    else if Touches(Run(c, s, run[..|run| - 1]), run[|run| - 1]) then run[|run| - 1].at
    else LastTouch(c, s, run[..|run| - 1])
  }

  lemma TouchStep(c: Conf, s: State, e: Timed)
    requires c.presenceInterval > 0 && s.now <= e.at
    ensures var t := Step(c, s, e);
            && t.now == e.at
            && t.deadlines.presence == if Touches(s, e) then e.at + c.presenceInterval else s.deadlines.presence
  {
    hide Least;
  }

  lemma {:induction false} NextTouch(c: Conf, s: State, run: seq<Timed>)
    requires c.presenceInterval > 0 && Started(c, s) && PunctualRun(c, s, run)
    ensures var t := Run(c, s, run);
            LastTouch(c, s, run) <= t.now && t.deadlines.presence == LastTouch(c, s, run) + c.presenceInterval > 0
  {
    hide Least, Step;
    if run != [] {
      NextTouch(c, s, run[..|run| - 1]);
      TouchStep(c, Run(c, s, run[..|run| - 1]), run[|run| - 1]);
    }
  }

  // In every punctual run, unless a pong deadline passes before authentication, an open session
  // has touched its presence within the last interval.
  lemma TouchesAreOnTime(c: Conf, s: State, run: seq<Timed>)
    requires c.presenceInterval > 0 && Started(c, s) && PunctualRun(c, s, run) && NoEarlyPong(c, s, run)
    ensures var t := Run(c, s, run);
            t.deadlines.presence == LastTouch(c, s, run) + c.presenceInterval &&
            (!t.closed ==> LastTouch(c, s, run) <= t.now <= LastTouch(c, s, run) + c.presenceInterval)
  {
    hide Run, Started, PunctualRun, NoEarlyPong, LastTouch, IsLeast;
    ArmedIsLeastIff(c, s, run);
    LiveNow(c, s, run);
    NextTouch(c, s, run);
  }

  lemma LiveNow(c: Conf, s: State, run: seq<Timed>)
    requires AlwaysLive(c, s, run)
    ensures Live(Run(c, s, run))
  {
  }

  // And when one did, the session catches up the moment its client speaks: it is overdue only
  // while stalled.
  lemma TouchesCatchUp(c: Conf, s: State, run: seq<Timed>)
    requires c.presenceInterval > 0 && c.pingInterval > 0 && c.pongTimeout > 0
    requires Started(c, s) && PunctualRun(c, s, run) && forall e :: e in run ==> !e.event.NativePong?
    ensures var t := Run(c, s, run);
            !t.closed && !Stalled(c, s, run) ==>
              t.now <= LastTouch(c, s, run) + c.presenceInterval || t.now == t.lastMsg
  {
    hide Run, Started, PunctualRun, Stalled, LastTouch, IsLeast;
    SilentClientIsDropped(c, s, run);
    NextTouch(c, s, run);
    var t := Run(c, s, run);
    if !t.closed && !Stalled(c, s, run) {
      ArmedIsBelow(t.deadlines, t.armed);
    }
  }

  // ---------- What each event does ----------

  predicate Fires(s: State, e: Timed, which: TimerEvent) {
    e.event.Tick? && !s.closed && s.armed.Some? && s.armed.value.0 == which
  }

  // An open session is closed by its owner, by a handshake deadline that finds it not
  // authenticated, by a ping that cannot be written, and by a pong deadline once it is connected;
  // by nothing else.
  lemma ClosesIff(c: Conf, s: State, e: Timed)
    requires !s.closed
    ensures Step(c, s, e).closed <==>
              || e.event.Close?
              || (Fires(s, e, Handshake) && !s.connected)
              || (Fires(s, e, Ping) && !e.event.written)
              || (Fires(s, e, Pong) && s.connected)
    ensures Step(c, s, e).noPong == if Fires(s, e, Pong) && s.connected then Some(e.at) else s.noPong
    ensures !Step(c, s, e).closed ==> Step(c, s, e).connected == (s.connected || e.event.Connect?)
    ensures Step(c, s, e).closed ==> Step(c, s, e).armed.None? && !Step(c, s, e).connected
  {
    hide Least;
  }

  // When each deadline lies after an event that leaves the session open.
  lemma NextDeadlines(c: Conf, s: State, e: Timed)
    requires !s.closed && !Step(c, s, e).closed
    ensures var d, n := s.deadlines, Step(c, s, e).deadlines;
            && n.ping == (if Fires(s, e, Ping) then e.at + c.pingInterval else d.ping)
            && n.handshake == (if Fires(s, e, Handshake) then 0 else d.handshake)
            && n.resume == (if Fires(s, e, Expire) && c.resumeInterval > 0 then e.at + c.resumeInterval else d.resume)
            && (e.event.Message? && d.pong > 0 ==> n.pong == 0)
            && (e.event.NativePong? && d.pong > 0 ==> n.pong == d.pong + c.pongTimeout)
            && (Fires(s, e, Ping) && c.pongTimeout > 0 && d.pong == 0 ==> n.pong == e.at + c.pongTimeout)
            && (d.pong <= 0 && !Fires(s, e, Ping) ==> n.pong == d.pong)
            && (d.pong > 0 && !e.event.Message? && !e.event.NativePong? ==> n.pong == d.pong)
            && Step(c, s, e).lastMsg == (if e.event.Message? then e.at else s.lastMsg)
  {
    hide Least;
  }

  // The first ping comes after half to one and a half intervals, the first pong is due a pong
  // timeout after it.
  lemma FirstDeadlines(c: Conf, s: State)
    requires Started(c, s)
    ensures !s.closed && !s.connected && s.lastMsg == s.now && s.noPong == None
    ensures c.pingInterval > 0 ==>
              s.now + c.pingInterval / 2 <= s.deadlines.ping < s.now + c.pingInterval * 3 / 2
    ensures c.pingInterval <= 0 ==> s.deadlines.ping == 0
    ensures s.deadlines.pong == if c.pingInterval > 0 && c.pongTimeout > 0 then s.deadlines.ping + c.pongTimeout else 0
    ensures s.deadlines.resume == if c.resumeInterval > 0 then s.now + c.resumeInterval else 0
    ensures s.deadlines.presence == if c.presenceInterval > 0 then s.now + c.presenceInterval else 0
  {
    hide Least;
  }

  // ---------- The handshake ----------

  // The handshake deadline stands until it passes, and then only an authenticated session is open.
  ghost predicate Greeted(s: State, deadline: int) {
    !s.closed ==> s.deadlines.handshake == deadline || (s.deadlines.handshake == 0 && s.connected)
  }

  lemma {:induction false} RunGreeted(c: Conf, s: State, run: seq<Timed>)
    requires Started(c, s)
    ensures Greeted(Run(c, s, run), s.deadlines.handshake)
  {
    if run == [] {
      FirstDeadlines(c, s);
    } else {
      hide Step, Started;
      var t, e := Run(c, s, run[..|run| - 1]), run[|run| - 1];
      RunGreeted(c, s, run[..|run| - 1]);
      StaysClosed(c, t, e);
      if !t.closed {
        ClosesIff(c, t, e);
        if !Step(c, t, e).closed {
          NextDeadlines(c, t, e);
        }
      }
    }
  }

  // In every punctual run, unless a pong deadline passes before authentication, a session is not
  // open after its handshake deadline without being authenticated.
  lemma HandshakeInTime(c: Conf, s: State, run: seq<Timed>)
    requires Started(c, s) && PunctualRun(c, s, run) && NoEarlyPong(c, s, run) && s.deadlines.handshake > 0
    ensures var t := Run(c, s, run); !t.closed && !t.connected ==> t.now <= s.deadlines.handshake
  {
    hide Run, Started, PunctualRun, NoEarlyPong, IsLeast;
    ArmedIsLeastIff(c, s, run);
    LiveNow(c, s, run);
    RunGreeted(c, s, run);
  }

  // ---------- Implementation ----------

  class SessionTimers {
    var pingDeadline: int
    var handshakeDeadline: int
    var pongDeadline: int
    var resumeDeadline: int
    var presenceDeadline: int
    var armed: Armed

    ghost function View(): Deadlines
      reads this
    {
      Deadlines(pingDeadline, handshakeDeadline, pongDeadline, resumeDeadline, presenceDeadline)
    }

    constructor (handshake: int)
      ensures View() == Deadlines(0, handshake, 0, 0, 0) && armed == None
    {
      pingDeadline, handshakeDeadline, pongDeadline, resumeDeadline, presenceDeadline := 0, handshake, 0, 0, 0;
      armed := None;
    }

    // Stops the timer and arms it for the least deadline that is on.
    method Schedule()
      modifies this`armed
      ensures armed == Least(View()) && IsLeast(View(), armed)
    {
      hide IsLeast, Least, Better;
      ghost var d := View();
      armed := None;
      Consider(Ping, pingDeadline);
      Consider(Handshake, handshakeDeadline);
      Consider(Pong, pongDeadline);
      Consider(Expire, resumeDeadline);
      Consider(Presence, presenceDeadline);
      LeastUnfolds(d);
      LeastIsLeast(d);
    }

    // One comparison of the chain.
    method Consider(e: TimerEvent, deadline: int)
      requires deadline == At(View(), e)
      modifies this`armed
      ensures View() == old(View()) && armed == Better(View(), old(armed), e)
    {
      if deadline > 0 && (armed.None? || deadline < armed.value.1) {
        armed := Some((e, deadline));
      }
    }
  }

  class TimedSession {
    const conf: Conf
    const timers: SessionTimers
    var connected: bool
    var closed: bool
    var now: int
    var lastMsg: int
    var noPong: Option<int>

    ghost function View(): State
      reads this, timers
    {
      State(timers.View(), timers.armed, connected, closed, now, lastMsg, noPong)
    }

    constructor (c: Conf, start: int, handshake: int, jitter: int)
      ensures fresh(timers) && conf == c && View() == Start(c, start, handshake, jitter)
    {
      hide Least, IsLeast;
      conf, connected, closed, now, lastMsg, noPong := c, false, false, start, start, None;
      timers := new SessionTimers(handshake);
      new;
      if c.pingInterval > 0 {
        timers.pingDeadline := start + jitter;
        if c.pongTimeout > 0 {
          timers.pongDeadline := start + c.pongTimeout + jitter;
        }
      }
      if c.resumeInterval > 0 {
        timers.resumeDeadline := start + c.resumeInterval;
      }
      if c.presenceInterval > 0 {
        timers.presenceDeadline := start + c.presenceInterval;
      }
      timers.Schedule();
    }

    method Disconnect()
      modifies this, timers
      ensures View() == CloseState(old(View()))
    {
      closed := true;
      timers.armed := None;
      connected := false;
    }

    // The timer goes off at `t`.
    method OnTick(t: int, written: bool)
      requires !closed && timers.armed.Some?
      modifies this, timers
      ensures View() == Step(conf, old(View()), Timed(t, Tick(written)))
    {
      hide Least, IsLeast;
      now := t;
      match timers.armed.value.0 {
        case Handshake =>
          timers.handshakeDeadline := 0;
          if connected {
            timers.Schedule();
          } else {
            Disconnect();
          }
        case Presence =>
          if conf.presenceInterval > 0 {
            timers.presenceDeadline := now + conf.presenceInterval;
          }
          timers.Schedule();
        case Expire =>
          if conf.resumeInterval > 0 {
            timers.resumeDeadline := now + conf.resumeInterval;
          }
          timers.Schedule();
        case Ping =>
          if !written {
            Disconnect();
          } else {
            timers.pingDeadline := now + conf.pingInterval;
            if conf.pongTimeout > 0 && timers.pongDeadline == 0 {
              timers.pongDeadline := now + conf.pongTimeout;
            }
            timers.Schedule();
          }
        case Pong =>
          if connected {
            Disconnect();
            noPong := Some(now);
          } else {
            timers.armed := None;
          }
      }
    }

    // HandleCommand: keepalive before the command, resetPong after it.
    method OnMessage(t: int)
      requires !closed
      modifies this, timers
      ensures View() == Step(conf, old(View()), Timed(t, Message))
    {
      hide Least, IsLeast;
      now, lastMsg := t, t;
      if timers.pongDeadline > 0 {
        timers.pongDeadline := 0;
        timers.Schedule();
      }
      ResetPong();
    }

    method ResetPong()
      modifies timers
      ensures old(timers.pongDeadline) <= 0 ==> timers.View() == old(timers.View()) && timers.armed == old(timers.armed)
      ensures old(timers.pongDeadline) > 0 ==>
                timers.View() == old(timers.View()).(pong := old(timers.pongDeadline) + conf.pongTimeout)
                && timers.armed == Least(timers.View())
    {
      if timers.pongDeadline > 0 {
        timers.pongDeadline := timers.pongDeadline + conf.pongTimeout;
        timers.Schedule();
      }
    }

    method OnNativePong(t: int)
      requires !closed
      modifies this, timers
      ensures View() == Step(conf, old(View()), Timed(t, NativePong))
    {
      hide Least, IsLeast;
      now := t;
      ResetPong();
    }
  }
}
