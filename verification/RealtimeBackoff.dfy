/** The reconnect delays of every run, and what disconnect() leaves able to reconnect. */
module RealtimeBackoff {
  import opened Basics
  import opened RealtimeHandlers
  import opened RealtimeRuns

  // ------------------------------------------------------------- the delays

  function Sum(waits: seq<real>): real {
    if waits == [] then 0.0 else Sum(waits[..|waits| - 1]) + waits[|waits| - 1]
  }

  /** The waits since the last welcome are the first delays of the schedule. */
  ghost predicate OnSchedule(w: World) {
    && |w.waits| == w.client.retry.attempts
    && forall i :: 0 <= i < |w.waits| ==> w.waits[i] == Delay(i + 1)
  }

  lemma StepKeepsSchedule(w: World, a: Action)
    requires Enabled(w, a) && OnSchedule(w)
    ensures OnSchedule(Next(w, a))
  {
  }

  lemma {:induction false} RunKeepsSchedule(w: World, actions: seq<Action>)
    requires OnSchedule(w) && Run(w, actions).Some?
    ensures OnSchedule(Run(w, actions).value)
    decreases |actions|
  {
    if actions != [] {
      StepKeepsSchedule(w, actions[0]);
      RunKeepsSchedule(Next(w, actions[0]), actions[1..]);
    }
  }

  lemma {:induction false} Pow15Grows(n: nat, m: nat)
    requires n <= m
    ensures 1.0 <= Pow15(n) <= Pow15(m)
    decreases m
  {
    if n < m {
      Pow15Grows(n, m - 1);
    } else if n > 0 {
      Pow15Grows(n - 1, n - 1);
    }
  }

  lemma SmallPowers()
    ensures Pow15(0) == 1.0 && Pow15(1) == 1.5 && Pow15(2) == 2.25 && Pow15(3) == 3.375
    ensures Pow15(4) == 5.0625 && Pow15(5) == 7.59375 && Pow15(6) == 11.390625
  {
    assert Pow15(2) == 1.5 * Pow15(1);
    assert Pow15(3) == 1.5 * Pow15(2);
    assert Pow15(4) == 1.5 * Pow15(3);
    assert Pow15(5) == 1.5 * Pow15(4);
    assert Pow15(6) == 1.5 * Pow15(5);
  }

  lemma DelayBounds(n: nat, m: nat)
    requires 0 < n <= m
    ensures 1000.0 <= Delay(n) <= Delay(m) <= 10000.0
    ensures n <= 6 ==> Delay(n) == 1000.0 * Pow15(n - 1)
    ensures n > 6 ==> Delay(n) == 10000.0
  {
    Pow15Grows(n - 1, m - 1);
    SmallPowers();
    if n <= 6 {
      Pow15Grows(n - 1, 5);
    } else {
      Pow15Grows(6, n - 1);
    }
  }

  function Total(n: nat): real {
    if n <= 6 then 2000.0 * (Pow15(n) - 1.0) else 20781.25 + 10000.0 * (n - 6) as real
  }

  lemma {:induction false} SumOfSchedule(waits: seq<real>)
    requires forall i :: 0 <= i < |waits| ==> waits[i] == Delay(i + 1)
    ensures Sum(waits) == Total(|waits|)
  {
    SmallPowers();
    if waits != [] {
      var n := |waits| - 1;
      SumOfSchedule(waits[..n]);
      DelayBounds(n + 1, n + 1);
    }
  }

  lemma ScheduleBounds(waits: seq<real>)
    requires forall i :: 0 <= i < |waits| ==> waits[i] == Delay(i + 1)
    ensures forall i :: 0 <= i < |waits| ==> 1000.0 <= waits[i] <= 10000.0
    ensures forall i, j :: 0 <= i < j < |waits| ==> waits[i] <= waits[j]
  {
    forall i, j | 0 <= i <= j < |waits| ensures 1000.0 <= waits[i] <= waits[j] <= 10000.0 {
      DelayBounds(i + 1, j + 1);
    }
  }

  /**
   Between two welcomes the reconnect delays never shrink, lie between one and
   ten seconds, and add up to exactly the closed form.
   */
  lemma BackoffInEveryRun(w: World)
    requires Reachable(w)
    ensures |w.waits| == w.client.retry.attempts
    ensures forall i :: 0 <= i < |w.waits| ==> 1000.0 <= w.waits[i] <= 10000.0
    ensures forall i, j :: 0 <= i < j < |w.waits| ==> w.waits[i] <= w.waits[j]
    ensures Sum(w.waits) == Total(|w.waits|)
  {
    var actions :| Run(Start0, actions) == Some(w);
    RunKeepsSchedule(Start0, actions);
    ScheduleBounds(w.waits);
    SumOfSchedule(w.waits);
  }

  // -------------------------------------------------------- after disconnect

  /** Not a call made by the page. */
  predicate Internal(a: Action) {
    !a.CallConnect? && !a.CallDisconnect? && !a.Subscribe? && !a.Unsubscribe?
    && !a.WatchDevice? && !a.UnwatchDevice? && !a.WatchAll? && !a.UnwatchAll?
  }

  /** Nothing is left that could open a socket. */
  predicate Settled(w: World) {
    var r := w.client.retry;
    && w.client.line.ws.None? && !r.timer.Armed? && r.intentionallyClosed
    && r.awaitConnect == 0 && r.awaitRetry == 0
  }

  ghost predicate Reconnects(w: World, actions: seq<Action>) {
    && (forall a :: a in actions ==> Internal(a))
    && Run(w, actions).Some? && Run(w, actions).value.client.line.ws.Some?
  }

  lemma {:induction false} SettledStays(w: World, actions: seq<Action>)
    requires Settled(w) && (forall a :: a in actions ==> Internal(a)) && Run(w, actions).Some?
    ensures Settled(Run(w, actions).value)
    decreases |actions|
  {
    if actions != [] {
      assert Internal(actions[0]);
      var next := Next(w, actions[0]);
      SettledStays(next, actions[1..]);
    }
  }

  lemma RunOn(w: World, a: Action, rest: seq<Action>)
    requires Enabled(w, a)
    ensures Run(w, [a] + rest) == Run(Next(w, a), rest)
  {
    assert ([a] + rest)[1..] == rest;
  }

  /** A refresh still under way brings the connection back. */
  lemma RefreshReconnects(w: World) returns (actions: seq<Action>)
    requires w.client.line.ws.None? && !w.closing
    requires w.client.retry.awaitConnect + w.client.retry.awaitRetry > 0
    ensures Reconnects(w, actions)
  {
    var token := Some("token");
    if w.client.retry.awaitConnect > 0 {
      actions := [ConnectToken(true, token, false)];
      RunOn(w, actions[0], []);
      assert actions == [actions[0]] + [];
    } else {
      var first, second := RetryToken(true), ReconnectTimer(token, false);
      actions := [first] + [second];
      var w1 := Next(w, first);
      RunOn(w, first, [second]);
      RunOn(w1, second, []);
      assert [second] == [second] + [];
      assert Run(w, actions) == Some(Next(w1, second));
    }
  }

  /**
   After disconnect() the client opens a socket again without being told to
   exactly when a token refresh was under way at the call.
   */
  lemma DisconnectIsFinalIffNothingRefreshes(w: World)
    ensures var r := Next(w, CallDisconnect);
      (exists actions :: Reconnects(r, actions)) <==> w.client.retry.awaitConnect + w.client.retry.awaitRetry > 0
  {
    var r := Next(w, CallDisconnect);
    if r.client.retry.awaitConnect + r.client.retry.awaitRetry == 0 {
      forall actions ensures !Reconnects(r, actions) {
        if Reconnects(r, actions) {
          SettledStays(r, actions);
        }
      }
    } else if r.closing {
      var a := OldSocketCloses(1000);
      var r1 := Next(r, a);
      var rest := RefreshReconnects(r1);
      RunOn(r, a, rest);
      assert Reconnects(r, [a] + rest);
    } else {
      var actions := RefreshReconnects(r);
    }
  }
}
