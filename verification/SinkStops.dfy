/** When the stop of a sink arrives, and when it is lost. */
module SinkStops {
  import opened SinkManager
  import opened Wrappers

  /** Sender k of stop i waits, until the deadline d. */
  predicate StopWaits(s: State, i: nat, k: nat, d: int) {
    i < |s.stops| && s.stops[i].WaitsAt(k) && s.stops[i].deadlines[k] == d
  }

  /** Sender k of stop i has ended with the given status. */
  predicate StopEnded(s: State, i: nat, k: nat, status: Status) {
    status != Waiting && i < |s.stops| && k < |s.stops[i].statuses| && s.stops[i].statuses[k] == status
  }

  /** No call of sink k returns before the time f. */
  ghost predicate FinishesFrom(c: Config, s: State, actions: seq<Action>, k: nat, f: int)
    requires Run(c, s, actions).Some?
    decreases |actions|
  {
    actions == []
    || ((actions[0] == Finish(k) ==> f <= s.now) && FinishesFrom(c, Apply(c, s, actions[0]).value, actions[1..], k, f))
  }

  /** A continuation in which no call of sink k returns before f, and the stop arrives. */
  ghost predicate Delivers(c: Config, s: State, actions: seq<Action>, i: nat, k: nat, f: int) {
    Run(c, s, actions).Some? && FinishesFrom(c, s, actions, k, f) && StopSent(Run(c, s, actions).value, i, k)
  }

  // ---- single steps ---------------------------------------------------------------------------

  lemma WaitingStep(c: Config, s: State, a: Action, i: nat, k: nat, d: int)
    requires StopWaits(s, i, k, d) && Apply(c, s, a).Some?
    ensures var t := Apply(c, s, a).value;
            if a == SendStop(i, k) then StopEnded(t, i, k, Delivered) && k < |s.workers| && s.workers[k] == Idle
            else if a == StopTimeout(i, k) then StopEnded(t, i, k, TimedOut) && d <= s.now
            else StopWaits(t, i, k, d)
  {
  }

  lemma EndedStep(c: Config, s: State, a: Action, i: nat, k: nat, status: Status)
    requires StopEnded(s, i, k, status) && Apply(c, s, a).Some?
    ensures StopEnded(Apply(c, s, a).value, i, k, status)
  {
  }

  lemma {:induction false} EndedStays(c: Config, s: State, actions: seq<Action>, i: nat, k: nat, status: Status)
    requires StopEnded(s, i, k, status) && Run(c, s, actions).Some?
    ensures StopEnded(Run(c, s, actions).value, i, k, status)
    decreases |actions|
  {
    hide Apply;
    if actions != [] {
      EndedStep(c, s, actions[0], i, k, status);
      EndedStays(c, Apply(c, s, actions[0]).value, actions[1..], i, k, status);
    }
  }

  lemma WorkerStep(c: Config, s: State, a: Action, k: nat)
    requires k < |s.workers| && Apply(c, s, a).Some?
    ensures var t := Apply(c, s, a).value;
            k < |t.workers| && s.now <= t.now
            && (s.workers[k] == Gone ==> t.workers[k] == Gone)
            && (s.workers[k].Busy? ==> t.workers[k] == if a == Finish(k) then Idle else s.workers[k])
            && (IsClock(a) ==> t.workers[k] == s.workers[k])
  {
  }

  lemma SenderHasWorker(c: Config, s: State, i: nat, k: nat, d: int)
    requires Inv(c, s) && StopWaits(s, i, k, d)
    ensures k < |s.workers| && s.now <= d
  {
    hide LogsHold, CallsMatch, StopsMatch, TimedOutPushes, AllCounted;
    assert Punctual(s.stops[i], s.now, c.stopTimeout);
  }

  lemma EndedOnce(s: State, i: nat, k: nat)
    ensures StopEnded(s, i, k, TimedOut) ==> !StopSent(s, i, k)
    ensures StopEnded(s, i, k, Delivered) <==> StopSent(s, i, k)
  {
  }

  // ---- when a stop can arrive -----------------------------------------------------------------

  /** A stop that arrives found its worker idle, or busy with a call that could return by the deadline. */
  lemma {:induction false} ArrivesInTime(c: Config, s: State, actions: seq<Action>, i: nat, k: nat, d: int, f: int)
    requires Inv(c, s) && StopWaits(s, i, k, d) && Delivers(c, s, actions, i, k, f)
    ensures k < |s.workers| && (s.workers[k] == Idle || (s.workers[k].Busy? && f <= d))
    decreases |actions|
  {
    SenderHasWorker(c, s, i, k, d);
    hide Inv, Apply;
    if actions != [] && s.workers[k] != Idle {
      var a, t := actions[0], Apply(c, s, actions[0]).value;
      StepHolds(c, s, a);
      WaitingStep(c, s, a, i, k, d);
      WorkerStep(c, s, a, k);
      if a == StopTimeout(i, k) {
        EndedStays(c, t, actions[1..], i, k, TimedOut);
        EndedOnce(Run(c, s, actions).value, i, k);
        assert false;
      } else if a != Finish(k) || s.workers[k] == Gone {
        ArrivesInTime(c, t, actions[1..], i, k, d, f);
      }
    }
  }

  /** Time can pass up to t while the sender waits, if its deadline is no earlier; no sink has to do anything. */
  lemma {:induction false} WaitUntil(c: Config, s: State, i: nat, k: nat, d: int, f: int, t: int)
    returns (actions: seq<Action>)
    requires Inv(c, s) && StopWaits(s, i, k, d) && s.now <= t <= d
    ensures Run(c, s, actions).Some? && Inv(c, Run(c, s, actions).value) && FinishesFrom(c, s, actions, k, f)
    ensures var u := Run(c, s, actions).value;
            u.now == t && StopWaits(u, i, k, d) && k < |s.workers| && k < |u.workers| && u.workers[k] == s.workers[k]
    decreases t - s.now, WaitingSenders(s)
  {
    SenderHasWorker(c, s, i, k, d);
    if s.now == t {
      return [];
    }
    var a := SomeoneIsDue(c, s);
    StepHolds(c, s, a);
    assert a.Tick? ==> Apply(c, s, a).value.now == s.now + 1;
    WaitingStep(c, s, a, i, k, d);
    WorkerStep(c, s, a, k);
    hide Apply, Inv;
    if !a.Tick? {
      TimeoutEndsOne(c, s, a);
    }
    var rest := WaitUntil(c, Apply(c, s, a).value, i, k, d, f, t);
    RunCons(c, s, a, rest);
    actions := [a] + rest;
    assert actions[1..] == rest;
  }

  lemma {:induction false} FinishesCat(c: Config, s: State, a: seq<Action>, b: seq<Action>, k: nat, f: int)
    requires Run(c, s, a).Some? && Run(c, Run(c, s, a).value, b).Some?
    requires FinishesFrom(c, s, a, k, f) && FinishesFrom(c, Run(c, s, a).value, b, k, f)
    ensures Run(c, s, a + b).Some? && FinishesFrom(c, s, a + b, k, f)
    decreases |a|
  {
    RunCat(c, s, a, b);
    hide Apply;
    if a == [] {
      assert a + b == b;
    } else {
      FinishesCat(c, Apply(c, s, a[0]).value, a[1..], b, k, f);
      assert (a + b)[1..] == a[1..] + b;
    }
  }

  lemma SendNow(c: Config, s: State, i: nat, k: nat, d: int, f: int)
    requires Inv(c, s) && StopWaits(s, i, k, d) && k < |s.workers| && s.workers[k] == Idle
    ensures Delivers(c, s, [SendStop(i, k)], i, k, f)
  {
    var a, t := SendStop(i, k), Apply(c, s, SendStop(i, k));
    assert t.Some?;
    WaitingStep(c, s, a, i, k, d);
    EndedOnce(t.value, i, k);
    hide Inv, Apply, StopSent, StopEnded, StopWaits;
    assert [a][1..] == [];
    assert Run(c, s, [a]) == Run(c, t.value, []) == t;
    assert FinishesFrom(c, t.value, [], k, f);
  }

  lemma FinishNow(c: Config, s: State, k: nat, f: int)
    requires Inv(c, s) && k < |s.workers| && s.workers[k].Busy? && f <= s.now
    ensures Apply(c, s, Finish(k)).Some? && Apply(c, s, Finish(k)).value.workers == s.workers[k := Idle]
    ensures Run(c, s, [Finish(k)]) == Apply(c, s, Finish(k)) && FinishesFrom(c, s, [Finish(k)], k, f)
  {
    hide AllCounted, CallsMatch, StopsMatch, TimedOutPushes, AllPunctual, Shape;
    var t := Apply(c, s, Finish(k));
    assert t.Some?;
    assert Run(c, s, [Finish(k)]) == Run(c, t.value, []);
  }

  lemma DeliversCat(c: Config, s: State, a: seq<Action>, b: seq<Action>, i: nat, k: nat, f: int)
    requires Run(c, s, a).Some? && FinishesFrom(c, s, a, k, f) && Delivers(c, Run(c, s, a).value, b, i, k, f)
    ensures Delivers(c, s, a + b, i, k, f)
  {
    hide Run, FinishesFrom;
    FinishesCat(c, s, a, b, k, f);
    RunCat(c, s, a, b);
  }

  /** The other way round: an idle worker, or one whose call can return by the deadline, can be stopped. */
  lemma CanArrive(c: Config, s: State, i: nat, k: nat, d: int, f: int) returns (actions: seq<Action>)
    requires Inv(c, s) && StopWaits(s, i, k, d)
    requires k < |s.workers| && (s.workers[k] == Idle || (s.workers[k].Busy? && f <= d))
    ensures Delivers(c, s, actions, i, k, f)
  {
    hide Apply, Inv, Run, FinishesFrom, Delivers;
    if s.workers[k] == Idle {
      SendNow(c, s, i, k, d, f);
      actions := [SendStop(i, k)];
    } else {
      SenderHasWorker(c, s, i, k, d);
      var wait := WaitUntil(c, s, i, k, d, f, if f <= s.now then s.now else f);
      var u := Run(c, s, wait).value;
      FinishNow(c, u, k, f);
      StepHolds(c, u, Finish(k));
      WaitingStep(c, u, Finish(k), i, k, d);
      var v := Apply(c, u, Finish(k)).value;
      SendNow(c, v, i, k, d, f);
      DeliversCat(c, u, [Finish(k)], [SendStop(i, k)], i, k, f);
      DeliversCat(c, s, wait, [Finish(k)] + [SendStop(i, k)], i, k, f);
      actions := wait + ([Finish(k)] + [SendStop(i, k)]);
    }
  }

  /**
   If the sink returns from no call before f, a waiting stop can still arrive if and only if its worker
   is idle, or is busy and f is no later than the deadline. A worker that is gone can never be stopped.
   */
  lemma StopArrivesIff(c: Config, s: State, i: nat, k: nat, d: int, f: int)
    requires Inv(c, s) && StopWaits(s, i, k, d)
    ensures k < |s.workers|
    ensures (exists actions :: Delivers(c, s, actions, i, k, f))
            <==> s.workers[k] == Idle || (s.workers[k].Busy? && f <= d)
  {
    SenderHasWorker(c, s, i, k, d);
    hide Inv, Delivers;
    if actions :| Delivers(c, s, actions, i, k, f) {
      ArrivesInTime(c, s, actions, i, k, d, f);
    }
    if s.workers[k] == Idle || (s.workers[k].Busy? && f <= d) {
      var actions := CanArrive(c, s, i, k, d, f);
    }
  }

  lemma {:induction false} NothingFinishesEarlier(c: Config, s: State, actions: seq<Action>, k: nat, f: int)
    requires Run(c, s, actions).Some? && f <= s.now
    ensures FinishesFrom(c, s, actions, k, f)
    decreases |actions|
  {
    if actions != [] {
      assert s.now <= Apply(c, s, actions[0]).value.now;
      hide Apply;
      NothingFinishesEarlier(c, Apply(c, s, actions[0]).value, actions[1..], k, f);
    }
  }

  ghost predicate Stops(c: Config, s: State, actions: seq<Action>, i: nat, k: nat) {
    Run(c, s, actions).Some? && StopSent(Run(c, s, actions).value, i, k)
  }

  /** With nothing known about how long the sink takes: a waiting stop can arrive unless the worker is gone. */
  lemma StopArrivesUnlessGone(c: Config, s: State, i: nat, k: nat, d: int)
    requires Inv(c, s) && StopWaits(s, i, k, d)
    ensures k < |s.workers|
    ensures (exists actions :: Stops(c, s, actions, i, k)) <==> s.workers[k] != Gone
  {
    SenderHasWorker(c, s, i, k, d);
    StopArrivesIff(c, s, i, k, d, s.now);
    hide Inv, Run, FinishesFrom;
    if actions :| Stops(c, s, actions, i, k) {
      NothingFinishesEarlier(c, s, actions, k, s.now);
      assert Delivers(c, s, actions, i, k, s.now);
    }
    if actions :| Delivers(c, s, actions, i, k, s.now) {
      assert Stops(c, s, actions, i, k);
    }
  }

  // ---- when a stop is lost --------------------------------------------------------------------

  /** In no state of the run is worker k idle while the sender waits. */
  ghost predicate NeverIdle(c: Config, s: State, actions: seq<Action>, i: nat, k: nat)
    requires Run(c, s, actions).Some?
    decreases |actions|
  {
    (i < |s.stops| && s.stops[i].WaitsAt(k) && k < |s.workers| ==> s.workers[k] != Idle)
    && (actions != [] ==> NeverIdle(c, Apply(c, s, actions[0]).value, actions[1..], i, k))
  }

  /** A sender that never sees its worker idle waits or has timed out. */
  lemma {:induction false} NeverIdleTimesOut(c: Config, s: State, actions: seq<Action>, i: nat, k: nat, d: int)
    requires StopWaits(s, i, k, d) && Run(c, s, actions).Some? && NeverIdle(c, s, actions, i, k)
    ensures var t := Run(c, s, actions).value; StopWaits(t, i, k, d) || StopEnded(t, i, k, TimedOut)
    decreases |actions|
  {
    hide Apply;
    if actions != [] {
      var a, t := actions[0], Apply(c, s, actions[0]).value;
      WaitingStep(c, s, a, i, k, d);
      if a == StopTimeout(i, k) {
        EndedStays(c, t, actions[1..], i, k, TimedOut);
      } else {
        NeverIdleTimesOut(c, t, actions[1..], i, k, d);
      }
    }
  }

  lemma {:induction false} WaitsOrEnded(c: Config, s: State, actions: seq<Action>, i: nat, k: nat, d: int)
    requires StopWaits(s, i, k, d) && Run(c, s, actions).Some?
    ensures var t := Run(c, s, actions).value;
            StopWaits(t, i, k, d) || StopEnded(t, i, k, TimedOut) || StopEnded(t, i, k, Delivered)
    decreases |actions|
  {
    hide Apply;
    if actions != [] {
      var a, t := actions[0], Apply(c, s, actions[0]).value;
      WaitingStep(c, s, a, i, k, d);
      if StopWaits(t, i, k, d) {
        WaitsOrEnded(c, t, actions[1..], i, k, d);
      } else {
        EndedStays(c, t, actions[1..], i, k, if a == SendStop(i, k) then Delivered else TimedOut);
      }
    }
  }

  /** A stop whose sink is busy until after the deadline has timed out in every run that gets past the deadline. */
  lemma BusyLosesStop(c: Config, s: State, actions: seq<Action>, i: nat, k: nat, d: int, f: int)
    requires Inv(c, s) && StopWaits(s, i, k, d) && k < |s.workers| && s.workers[k] != Idle && f > d
    requires Run(c, s, actions).Some? && FinishesFrom(c, s, actions, k, f) && Run(c, s, actions).value.now > d
    ensures StopEnded(Run(c, s, actions).value, i, k, TimedOut)
  {
    hide Apply, Run, FinishesFrom, Inv;
    var t := Run(c, s, actions).value;
    WaitsOrEnded(c, s, actions, i, k, d);
    ReachableHolds(c, s, actions);
    if StopWaits(t, i, k, d) {
      SenderHasWorker(c, t, i, k, d);
    }
    EndedOnce(t, i, k);
    if StopSent(t, i, k) {
      ArrivesInTime(c, s, actions, i, k, d, f);
    }
  }

  /** A sink has been stopped exactly when some stop got through to it; if all timed out, it was not. */
  lemma StoppedIffSent(c: Config, now: int, actions: seq<Action>, k: nat)
    requires Reachable(c, now, actions) && k < c.sinks
    ensures var s := Reached(c, now, actions);
            k < |s.logs| && k < |s.workers|
            && (s.workers[k] == Gone <==> exists i: nat :: StopSent(s, i, k))
            && (Stopped in s.logs[k] <==> exists i: nat :: StopSent(s, i, k))
            && ((forall i: nat :: i < |s.stops| ==> StopEnded(s, i, k, TimedOut)) ==>
                  s.workers[k] != Gone && Stopped !in s.logs[k])
  {
    ReachedHolds(c, now, actions);
    var s := Reached(c, now, actions);
    forall i: nat
      ensures StopSent(s, i, k) ==> i < |s.stops| && !StopEnded(s, i, k, TimedOut)
    {
      EndedOnce(s, i, k);
    }
    hide Reached, Reachable, AllCounted, CallsMatch, TimedOutPushes, AllPunctual, StopSent, StopEnded;
    var log := s.logs[k];
    assert Sequential(log) && s.workers[k] == WorkerAfter(log);
    if Stopped in log {
      var j: nat :| j < |log| && log[j] == Stopped;
      StopIsLast(log, j);
    }
    if s.workers[k] == Gone {
      assert log[|log| - 1] == Stopped;
    }
  }
}
