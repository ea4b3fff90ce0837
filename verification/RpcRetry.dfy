/** The retry loop of the RPC controller: exponential delays that start over whenever the kind
of failure changes, cut off by the command timeout. */
module RpcRetry {
  import opened Basics

  // Retriable failures, and everything that ends the loop at once.
  datatype Outcome = Success | Exhausted | Unavailable | Fatal

  // One call of the RPC: how it ended, how long it took, and, should the delay end together
  // with the timeout, which of the two is noticed first.
  datatype Attempt = Attempt(outcome: Outcome, took: nat, delayWins: bool)

  const MS := 1_000_000
  const MAX_DURATION := 0x8000_0000_0000_0000

  predicate Retriable(o: Outcome) {
    o.Exhausted? || o.Unavailable?
  }

  // In milliseconds.
  function Interval(o: Outcome): nat {
    if o.Exhausted? then 10 else 100
  }

  // How many attempts just before this one failed in the same way.
  function Streak(env: seq<Attempt>, i: nat): nat
    requires i < |env|
  {
    if i == 0 || env[i - 1].outcome != env[i].outcome then 0 else 1 + Streak(env, i - 1)
  }

  function Delay(env: seq<Attempt>, i: nat): nat
    requires i < |env|
  {
    Backoff(env[i].outcome, Streak(env, i))
  }

  // int64(math.Pow(2, attempt)) * interval, exact for the exponents that can occur.
  function Backoff(o: Outcome, streak: nat): nat {
    Pow2(streak) * Interval(o)
  }

  // The first delay after a failure of one kind is 10 ms when the server is out of resources and
  // 100 ms when it is unavailable; it doubles for as long as the same failure repeats.
  lemma DelaysAre(env: seq<Attempt>, i: nat)
    requires i < |env| && Retriable(env[i].outcome)
    ensures i == 0 || env[i - 1].outcome != env[i].outcome ==>
              Delay(env, i) == if env[i].outcome == Exhausted then 10 else 100
    ensures i > 0 && env[i - 1].outcome == env[i].outcome ==> Delay(env, i) == 2 * Delay(env, i - 1)
  {
  }

  // When the delay after attempt n - 1 would end, counted from the start of the command.
  function Spent(env: seq<Attempt>, n: nat): nat
    requires n <= |env|
  {
    if n == 0 then 0 else Spent(env, n - 1) + env[n - 1].took + Delay(env, n - 1) * MS
  }

  lemma {:induction false} Pow2Monotone(a: nat, b: nat)
    requires a <= b
    ensures Pow2(a) <= Pow2(b)
  {
    if a < b {
      Pow2Monotone(a, b - 1);
    }
  }

  lemma Pow2Values()
    ensures Pow2(36) == 68719476736 && Pow2(37) == 137438953472
    ensures Pow2(39) == 549755813888 && Pow2(40) == 1099511627776
  {
    assert Pow2(10) == 1024;
    assert Pow2(20) == 1048576;
    assert Pow2(30) == 1073741824;
  }

  // The time a streak of this length has spent waiting, at least.
  function Slept(o: Outcome, streak: nat): nat {
    Interval(o) * (Pow2(streak) - 1) * MS
  }

  lemma SleptMore(o: Outcome, streak: nat)
    ensures Slept(o, streak + 1) == Slept(o, streak) + Backoff(o, streak) * MS
    ensures Backoff(o, streak) >= 10 && Slept(o, 0) == 0
  {
  }

  // A streak long enough to overflow would have waited longer than any timeout.
  lemma DelayFits(streak: nat, o: Outcome, waited: nat)
    requires Retriable(o) && waited < MAX_DURATION && Slept(o, streak) <= waited
    ensures Backoff(o, streak) * MS < MAX_DURATION
  {
    Pow2Values();
    if o.Exhausted? {
      if streak >= 40 { Pow2Monotone(40, streak); }
      assert streak <= 39;
      Pow2Monotone(streak, 39);
    } else {
      if streak >= 37 { Pow2Monotone(37, streak); }
      assert streak <= 36;
      Pow2Monotone(streak, 36);
    }
  }

  // The first n attempts failed retriably, and their delays ended within the timeout, if any.
  ghost predicate Paced(env: seq<Attempt>, timeout: nat, n: nat) {
    && n <= |env|
    && (forall i :: 0 <= i < n ==> Retriable(env[i].outcome))
    && (timeout > 0 ==> forall i :: 0 <= i <= n ==> Spent(env, i) <= timeout)
  }

  // Each delay takes at least ten milliseconds, and a streak has slept through its own delays.
  lemma {:induction false} SpentSlept(env: seq<Attempt>, n: nat)
    requires n <= |env|
    ensures Spent(env, n) >= 10 * MS * n
    ensures n > 0 ==> Slept(env[n - 1].outcome, Streak(env, n - 1) + 1) <= Spent(env, n)
  {
    hide Slept, Backoff, Pow2;
    if n > 0 {
      SpentSlept(env, n - 1);
      SleptMore(env[n - 1].outcome, Streak(env, n - 1));
      SleptMore(env[n - 1].outcome, 0);
    }
  }

  // The delay after attempt i is a proper duration, at least as long as the command has not
  // taken longer than any.
  ghost predicate Fits(env: seq<Attempt>, timeout: nat, i: nat)
    requires i < |env|
  {
    timeout > 0 || Spent(env, i) < MAX_DURATION ==> Delay(env, i) * MS < MAX_DURATION
  }

  // One delay for every ten milliseconds, and one more.
  function MostDelays(timeout: nat): nat {
    timeout / (10 * MS) + 1
  }

  lemma FewDelays(n: nat, spent: nat, timeout: nat)
    requires 10 * MS * n <= spent <= timeout
    ensures n + 1 <= MostDelays(timeout)
  {
  }

  lemma SpentMore(env: seq<Attempt>, n: nat)
    requires n < |env|
    ensures Spent(env, n + 1) == Spent(env, n) + env[n].took + Delay(env, n) * MS
  {
  }

  lemma PacedMore(env: seq<Attempt>, timeout: nat, n: nat)
    requires n < |env| && Paced(env, timeout, n) && Retriable(env[n].outcome)
    requires timeout > 0 ==> Spent(env, n + 1) <= timeout
    ensures Paced(env, timeout, n + 1)
  {
    hide Spent;
  }

  lemma StreakMore(env: seq<Attempt>, n: nat)
    requires 0 < n < |env|
    ensures Streak(env, n) == if env[n - 1].outcome == env[n].outcome then Streak(env, n - 1) + 1 else 0
  {
  }

  // Whatever the failures, retries are bounded by the timeout and no delay overflows; without
  // a timeout none does until the command has taken longer than any duration.
  lemma RetriesBounded(env: seq<Attempt>, timeout: nat, n: nat)
    requires timeout < MAX_DURATION && Paced(env, timeout, n) && n < |env| && Retriable(env[n].outcome)
    ensures timeout > 0 ==> n + 1 <= MostDelays(timeout)
    ensures Fits(env, timeout, n)
  {
    hide Slept, Backoff, Pow2, MostDelays, Spent;
    SpentSlept(env, n);
    SleptMore(env[n].outcome, 0);
    if timeout > 0 {
      FewDelays(n, Spent(env, n), timeout);
    }
    if Spent(env, n) < MAX_DURATION {
      DelayFits(Streak(env, n), env[n].outcome, Spent(env, n));
    }
  }

  lemma NothingSpent(env: seq<Attempt>, timeout: nat)
    ensures Spent(env, 0) == 0 && Paced(env, timeout, 0) && (env != [] ==> Streak(env, 0) == 0)
  {
  }

  // Runs the loop against the outcomes the environment will produce; a timeout of zero means
  // none. Returns the number of calls made and the delays started, in milliseconds.
  method Retry(timeout: nat, env: seq<Attempt>) returns (calls: nat, delays: seq<nat>)
    requires timeout < MAX_DURATION
    ensures calls <= |env| && |delays| <= calls <= |delays| + 1
    // Each delay is the one its streak asks for, and all but the last end within the timeout.
    ensures forall i :: 0 <= i < |delays| ==> delays[i] == Delay(env, i)
    ensures delays != [] ==> Paced(env, timeout, |delays| - 1) && Retriable(env[|delays| - 1].outcome)
    // The loop ends with an outcome that is not retried, or when the last delay would not end
    // before the timeout.
    ensures calls > |delays| ==> !Retriable(env[calls - 1].outcome)
    ensures calls == |delays| < |env| ==> calls > 0 && timeout > 0 && Spent(env, calls) >= timeout
    ensures timeout > 0 ==> |delays| <= MostDelays(timeout)
    ensures forall i :: 0 <= i < |delays| ==> Fits(env, timeout, i)
  {
    hide Slept, Pow2, Backoff, MostDelays, Spent, Streak, Fits;
    NothingSpent(env, timeout);
    calls, delays := 0, [];
    var attempt: nat, wasExhausted, elapsed := 0, false, 0;
    while calls < |env|
      invariant calls == |delays| <= |env| && Paced(env, timeout, calls) && elapsed == Spent(env, calls)
      invariant forall i :: 0 <= i < calls ==> delays[i] == Delay(env, i)
      invariant forall i :: 0 <= i < calls ==> Fits(env, timeout, i)
      invariant timeout > 0 ==> calls <= MostDelays(timeout)
      invariant calls == 0 ==> attempt == 0 && !wasExhausted
      invariant calls > 0 ==> attempt == Streak(env, calls - 1) + 1 && wasExhausted == env[calls - 1].outcome.Exhausted?
    {
      var a := env[calls];
      calls := calls + 1;
      elapsed := elapsed + a.took;
      if !Retriable(a.outcome) {
        return;
      }
      if a.outcome.Exhausted? {
        if !wasExhausted {
          attempt := 0;
          wasExhausted := true;
        }
      } else if wasExhausted {
        wasExhausted := false;
        attempt := 0;
      }
      RetriesBounded(env, timeout, calls - 1);
      SpentMore(env, calls - 1);
      if calls > 1 {
        StreakMore(env, calls - 1);
      }
      var delay := Backoff(a.outcome, attempt);
      delays := delays + [delay];
      var end := elapsed + delay * MS;
      if timeout > 0 && (end > timeout || (end == timeout && !a.delayWins)) {
        return;
      }
      PacedMore(env, timeout, calls - 1);
      elapsed := end;
      attempt := attempt + 1;
    }
  }
}
