/** The synchronizer that holds back history reads while a stream's backlog is being consumed:
each consumed message prolongs the wait, up to a limit. Times are milliseconds. */
module StreamSync {

  const TIMEOUT := 200
  const PERIOD := 50

  // Timers are numbered; a timer replaced while still pending fires all the same. Wait
  // channels are numbered from 1, `cv` being the latest. `failed` notes a double close.
  datatype State = State(
    active: bool, since: int, cv: nat, timer: nat, pending: map<nat, int>,
    openedAt: map<nat, int>, closedAt: map<nat, int>, failed: bool, now: int)

  const FRESH := State(false, 0, 0, 0, map[], map[], map[], false, 0)

  function Idle(s: State): State {
    if !s.active then s else
    s.(active := false, closedAt := s.closedAt[s.cv := s.now], failed := s.failed || s.cv in s.closedAt)
  }

  function Restart(s: State): State {
    if s.active then
      if s.since + TIMEOUT < s.now then Idle(s)
      else s.(pending := s.pending[s.timer := s.now + PERIOD])
    else
      s.(active := true, since := s.now, timer := s.timer + 1, cv := s.cv + 1,
         pending := s.pending[s.timer + 1 := s.now + PERIOD], openedAt := s.openedAt[s.cv + 1 := s.now])
  }

  datatype Event = Touch | Remove | Fire(timer: nat)

  datatype Timed = Timed(at: int, event: Event)

  function Step(s: State, e: Timed): State {
    var u := s.(now := e.at);
    match e.event
    case Touch => Restart(u)
    case Remove => Idle(u)
    case Fire(id) => Idle(u.(pending := u.pending - {id}))
  }

  // Timers fire when due, neither earlier nor later.
  ghost predicate Punctual(s: State, e: Timed) {
    && s.now <= e.at
    && (forall id :: id in s.pending ==> e.at <= s.pending[id])
    && (e.event.Fire? ==> e.event.timer in s.pending && s.pending[e.event.timer] == e.at)
  }

  function Run(run: seq<Timed>): State {
    if run == [] then FRESH else Step(Run(run[..|run| - 1]), run[|run| - 1])
  }

  ghost predicate PunctualRun(run: seq<Timed>) {
    run == [] || (PunctualRun(run[..|run| - 1]) && Punctual(Run(run[..|run| - 1]), run[|run| - 1]))
  }

  // Channels are opened one after the other, each closed before the next.
  ghost predicate InOrder(s: State) {
    && !s.failed
    && (forall c :: c in s.openedAt <==> 1 <= c <= s.cv)
    && (forall c :: c in s.closedAt <==> 1 <= c <= s.cv && !(s.active && c == s.cv))
    && (s.active ==> s.cv >= 1 && s.openedAt[s.cv] == s.since)
  }

  ghost predicate InTime(s: State) {
    && (forall id :: id in s.pending ==> s.now <= s.pending[id] && id <= s.timer)
    && (s.active ==> s.timer in s.pending && s.since <= s.now && s.pending[s.timer] <= s.since + TIMEOUT + PERIOD)
    && (forall c :: c in s.closedAt && c in s.openedAt ==> 0 <= s.closedAt[c] - s.openedAt[c] <= TIMEOUT + PERIOD)
  }

  // Closing now is in time, whichever timer or caller asked for it.
  lemma IdleKeeps(s: State)
    requires InOrder(s) && InTime(s.(active := false))
    requires s.active ==> s.since <= s.now <= s.since + TIMEOUT + PERIOD
    ensures InOrder(Idle(s)) && InTime(Idle(s)) && !Idle(s).active
  {
  }

  lemma ActiveIsRecent(s: State)
    requires InTime(s) && s.active
    ensures s.since <= s.now <= s.since + TIMEOUT + PERIOD
  {
  }

  lemma LaterKeeps(s: State, t: int)
    requires InOrder(s) && InTime(s) && s.now <= t && forall id :: id in s.pending ==> t <= s.pending[id]
    ensures InOrder(s.(now := t)) && InTime(s.(now := t))
  {
  }

  lemma RestartKeeps(s: State)
    requires InOrder(s) && InTime(s)
    ensures InOrder(Restart(s)) && InTime(Restart(s))
  {
    if s.active {
      if s.since + TIMEOUT < s.now {
        ActiveIsRecent(s);
        IdleKeeps(s);
      }
    } else {
      var r := Restart(s);
      forall c ensures c in r.openedAt <==> 1 <= c <= r.cv {
      }
    }
  }

  lemma StepKeeps(s: State, e: Timed)
    requires InOrder(s) && InTime(s) && Punctual(s, e)
    ensures InOrder(Step(s, e)) && InTime(Step(s, e))
  {
    hide Idle, Restart, InOrder;
    var u := s.(now := e.at);
    LaterKeeps(s, e.at);
    match e.event {
      case Touch =>
        RestartKeeps(u);
      case Remove =>
        if u.active { ActiveIsRecent(u); }
        IdleKeeps(u);
      case Fire(id) =>
        if u.active { ActiveIsRecent(u); }
        FewerTimers(u, id);
        IdleKeeps(u.(pending := u.pending - {id}));
    }
  }

  lemma FewerTimers(s: State, id: nat)
    requires InOrder(s)
    ensures InOrder(s.(pending := s.pending - {id}))
  {
  }

  // For any pattern of touches: every wait channel ever opened is closed exactly once, within
  // 250 ms, except the latest one, which is still open only while 250 ms have not passed.
  lemma {:induction false} WaitsAreBounded(run: seq<Timed>)
    requires PunctualRun(run)
    ensures var s := Run(run);
            && InOrder(s) && InTime(s) && !s.failed
            && (forall c :: 1 <= c <= s.cv && c in s.closedAt ==> 0 <= s.closedAt[c] - s.openedAt[c] <= 250)
            && (forall c :: 1 <= c <= s.cv && c !in s.closedAt ==>
                  c == s.cv && s.active && s.now - s.openedAt[c] <= 250)
  {
    if run != [] {
      WaitsAreBounded(run[..|run| - 1]);
      StepKeeps(Run(run[..|run| - 1]), run[|run| - 1]);
    }
  }

  // ---------- When a wait ends ----------

  // When the last message was consumed.
  function LastTouch(run: seq<Timed>): int {
    if run == [] then 0
    else if run[|run| - 1].event.Touch? then run[|run| - 1].at
    else LastTouch(run[..|run| - 1])
  }

  // A consumed message opens a wait when there is none; an open one ends when the stream is
  // removed, when any timer fires, or with a message later than 200 ms after it was opened.
  lemma EndsIff(s: State, e: Timed)
    ensures s.active ==>
              (!Step(s, e).active <==> e.event.Remove? || e.event.Fire? || (e.event.Touch? && e.at > s.since + 200))
    ensures !s.active ==> (Step(s, e).active <==> e.event.Touch?)
    ensures !s.active && e.event.Touch? ==> Step(s, e).since == e.at && Step(s, e).cv == s.cv + 1
    ensures s.active && Step(s, e).active ==> Step(s, e).since == s.since && Step(s, e).cv == s.cv
  {
  }

  // The timer of an open wait is due 50 ms after the last message, however many came before.
  lemma {:induction false} TimerFollowsTouches(run: seq<Timed>)
    requires PunctualRun(run)
    ensures var s := Run(run); s.active ==> s.timer in s.pending && s.pending[s.timer] == LastTouch(run) + 50
  {
    if run != [] {
      hide InOrder, InTime;
      TimerFollowsTouches(run[..|run| - 1]);
      EndsIff(Run(run[..|run| - 1]), run[|run| - 1]);
    }
  }

  // So its own timer ends a wait exactly 50 ms after the last message.
  lemma EndsOnTime(run: seq<Timed>, e: Timed)
    requires PunctualRun(run) && Run(run).active && Punctual(Run(run), e)
    requires e.event == Fire(Run(run).timer)
    ensures e.at == LastTouch(run) + 50 && !Step(Run(run), e).active
  {
    hide Run, PunctualRun;
    TimerFollowsTouches(run);
  }

  lemma RunMore(run: seq<Timed>, e: Timed)
    ensures Run(run + [e]) == Step(Run(run), e)
    ensures PunctualRun(run) && Punctual(Run(run), e) ==> PunctualRun(run + [e])
  {
    assert (run + [e])[..|run|] == run;
  }

  // A first wait, opened at 0 and last touched at `at`.
  ghost predicate FirstWait(run: seq<Timed>, at: int) {
    var s := Run(run);
    && PunctualRun(run) && s.active && s.since == 0 && s.timer == 1 && s.pending == map[1 := at + 50] && s.now == at
  }

  lemma Prolong(run: seq<Timed>, at: int, later: int)
    requires FirstWait(run, at) && at <= later <= at + 50 && later <= 200
    ensures FirstWait(run + [Timed(later, Touch)], later)
  {
    hide Run, PunctualRun;
    RunMore(run, Timed(later, Touch));
  }

  function Touches(times: seq<int>): seq<Timed> {
    seq(|times|, i requires 0 <= i < |times| => Timed(times[i], Touch))
  }

  // But a wait that ended with a late message leaves its timer behind, which then ends the next
  // wait too early: here five milliseconds after it was opened.
  lemma StaleTimerEndsEarly()
    ensures var run := Touches([0, 40, 80, 120, 160, 200, 240, 245]);
            var s := Run(run);
            && PunctualRun(run) && s.active && s.since == 245 && s.timer == 2
            && Punctual(s, Timed(250, Fire(1))) && !Step(s, Timed(250, Fire(1))).active
  {
    var six := FirstSix();
    hide Run, PunctualRun;
    RunMore(six, Timed(240, Touch));
    RunMore(six + [Timed(240, Touch)], Timed(245, Touch));
    assert six + [Timed(240, Touch)] + [Timed(245, Touch)] == Touches([0, 40, 80, 120, 160, 200, 240, 245]);
  }

  lemma FirstSix() returns (run: seq<Timed>)
    ensures run == Touches([0, 40, 80, 120, 160, 200]) && FirstWait(run, 200)
  {
    hide PunctualRun, Run;
    OpenFirst();
    run := [] + [Timed(0, Touch)];
    hide FirstWait;
    Prolong(run, 0, 40);
    run := run + [Timed(40, Touch)];
    Prolong(run, 40, 80);
    run := run + [Timed(80, Touch)];
    Prolong(run, 80, 120);
    run := run + [Timed(120, Touch)];
    Prolong(run, 120, 160);
    run := run + [Timed(160, Touch)];
    Prolong(run, 160, 200);
    run := run + [Timed(200, Touch)];
  }

  lemma OpenFirst()
    ensures FirstWait([] + [Timed(0, Touch)], 0)
  {
    assert Run([]) == FRESH;
    RunMore([], Timed(0, Touch));
  }

  // ---------- Implementation ----------

  class StreamSyncer {
    var active: bool
    var since: int
    var cv: nat
    var timer: nat
    var pending: map<nat, int>
    var openedAt: map<nat, int>
    var closedAt: map<nat, int>
    var failed: bool

    ghost function View(now: int): State
      reads this
    {
      State(active, since, cv, timer, pending, openedAt, closedAt, failed, now)
    }

    constructor ()
      ensures View(0) == FRESH
    {
      active, since, cv, timer, pending, openedAt, closedAt, failed := false, 0, 0, 0, map[], map[], map[], false;
    }

    method GoIdle(now: int)
      modifies this
      ensures View(now) == Idle(old(View(now)))
    {
      if !active {
        return;
      }
      active := false;
      failed := failed || cv in closedAt;
      closedAt := closedAt[cv := now];
    }

    method Touched(now: int)
      modifies this
      ensures View(now) == Restart(old(View(now)))
    {
      if active {
        if since + TIMEOUT < now {
          GoIdle(now);
          return;
        }
        pending := pending[timer := now + PERIOD];
        return;
      }
      active := true;
      since := now;
      timer := timer + 1;
      pending := pending[timer := now + PERIOD];
      cv := cv + 1;
      openedAt := openedAt[cv := now];
    }
  }
}
