/**
 The hand-off of batches to the sinks (collector/plugins/sinks/manager.go).

 Each sink has a worker that takes one batch, event or stop signal at a time from unbuffered
 channels. Each export and each stop starts one sender per sink, which either hands over or gives up
 at its deadline. The program is a set of atomic actions of these goroutines, in any order; an
 export stands for an ExportEvent as well, which follows the same steps on its own channel.
 */
module SinkManager {
  import opened Bags
  import opened Wrappers

  datatype Config = Config(sinks: nat, exportTimeout: int, stopTimeout: int)

  datatype Status = Waiting | Delivered | TimedOut

  /** The senders of one export or stop, one per sink in the order of the loop, so far as started. */
  datatype Senders = Senders(statuses: seq<Status>, deadlines: seq<int>) {

    predicate WaitsAt(k: nat) {
      k < |statuses| && k < |deadlines| && statuses[k] == Waiting
    }

    predicate DeliveredAt(k: nat) {
      k < |statuses| && statuses[k] == Delivered
    }

    function Start(deadline: int): Senders {
      Senders(statuses + [Waiting], deadlines + [deadline])
    }

    function Ended(k: nat, status: Status): Senders
      requires WaitsAt(k)
    {
      this.(statuses := statuses[k := status])
    }

    predicate Even(sinks: nat) {
      |statuses| == |deadlines| <= sinks
    }

    /** No sender would be left behind if the clock moved on to t. */
    predicate InTime(t: int) {
      forall k :: 0 <= k < |statuses| && WaitsAt(k) ==> t <= deadlines[k]
    }
  }

  /** An export call: its senders, its wait group, and whether it has returned. */
  datatype Export = Export(senders: Senders, wg: int, returned: bool)

  /** What happens at a sink: an export is called, returns, or the sink is stopped. */
  datatype Event = Called(e: nat) | Returned(e: nat) | Stopped

  datatype Worker = Idle | Busy(e: nat) | Gone

  datatype State = State(now: int, workers: seq<Worker>, exports: seq<Export>, stops: seq<Senders>,
                         timeouts: nat, logs: seq<seq<Event>>)

  datatype Action =
    | CallExport
    | StartPush(e: nat)
    | Push(e: nat, k: nat)
    | PushTimeout(e: nat, k: nat)
    | ReturnExport(e: nat)
    | Finish(k: nat)
    | CallStop
    | StartStop(c: nat)
    | SendStop(c: nat, k: nat)
    | StopTimeout(c: nat, k: nat)
    | Tick(t: int)

  function Init(c: Config, now: int): State {
    State(now, seq(c.sinks, k => Idle), [], [], 0, seq(c.sinks, k => []))
  }

  /** time.After with a duration that is not positive fires at once. */
  function Deadline(now: int, timeout: int): int {
    now + if timeout > 0 then timeout else 0
  }

  function Record(s: State, k: nat, event: Event, worker: Worker): State
    requires k < |s.workers| && k < |s.logs|
  {
    s.(workers := s.workers[k := worker], logs := s.logs[k := s.logs[k] + [event]])
  }

  /** One atomic action, where it is enabled. The clock never passes the deadline of a waiting sender. */
  function Apply(c: Config, s: State, a: Action): Option<State> {
    match a
    case CallExport =>
      Some(s.(exports := s.exports + [Export(Senders([], []), 0, false)]))
    case StartPush(e) =>
      if e < |s.exports| && |s.exports[e].senders.statuses| < c.sinks then
        var x := s.exports[e];
        var senders := x.senders.Start(Deadline(s.now, c.exportTimeout));
        Some(s.(exports := s.exports[e := x.(senders := senders, wg := x.wg + 1)]))
      else None
    case Push(e, k) =>
      if e < |s.exports| && s.exports[e].senders.WaitsAt(k) && k < |s.workers| && s.workers[k] == Idle
         && k < |s.logs| then
        Some(Record(s.(exports := s.exports[e := PushEnded(s.exports[e], k, Delivered)]), k, Called(e), Busy(e)))
      else None
    case PushTimeout(e, k) =>
      if e < |s.exports| && s.exports[e].senders.WaitsAt(k) && s.exports[e].senders.deadlines[k] <= s.now then
        Some(s.(exports := s.exports[e := PushEnded(s.exports[e], k, TimedOut)], timeouts := s.timeouts + 1))
      else None
    case ReturnExport(e) =>
      if e < |s.exports| && |s.exports[e].senders.statuses| == c.sinks && s.exports[e].wg == 0
         && !s.exports[e].returned then
        Some(s.(exports := s.exports[e := s.exports[e].(returned := true)]))
      else None
    case Finish(k) =>
      if k < |s.workers| && s.workers[k].Busy? && k < |s.logs| then
        Some(Record(s, k, Returned(s.workers[k].e), Idle))
      else None
    case CallStop =>
      Some(s.(stops := s.stops + [Senders([], [])]))
    case StartStop(i) =>
      if i < |s.stops| && |s.stops[i].statuses| < c.sinks then
        Some(s.(stops := s.stops[i := s.stops[i].Start(Deadline(s.now, c.stopTimeout))]))
      else None
    case SendStop(i, k) =>
      if i < |s.stops| && s.stops[i].WaitsAt(k) && k < |s.workers| && s.workers[k] == Idle && k < |s.logs| then
        Some(Record(s.(stops := s.stops[i := s.stops[i].Ended(k, Delivered)]), k, Stopped, Gone))
      else None
    case StopTimeout(i, k) =>
      if i < |s.stops| && s.stops[i].WaitsAt(k) && s.stops[i].deadlines[k] <= s.now then
        Some(s.(stops := s.stops[i := s.stops[i].Ended(k, TimedOut)]))
      else None
    case Tick(t) =>
      if s.now <= t && (forall e :: 0 <= e < |s.exports| ==> s.exports[e].senders.InTime(t))
         && forall i :: 0 <= i < |s.stops| ==> s.stops[i].InTime(t) then
        Some(s.(now := t))
      else None
  }

  function PushEnded(x: Export, k: nat, status: Status): Export
    requires x.senders.WaitsAt(k)
  {
    x.(senders := x.senders.Ended(k, status), wg := x.wg - 1)
  }

  function Run(c: Config, s: State, actions: seq<Action>): Option<State>
    decreases |actions|
  {
    if actions == [] then Some(s)
    else
      var next := Apply(c, s, actions[0]);
      if next.None? then None else Run(c, next.value, actions[1..])
  }

  // ---- what every reachable state keeps -------------------------------------------------------

  ghost predicate Shape(c: Config, s: State) {
    |s.workers| == |s.logs| == c.sinks
    && (forall e :: 0 <= e < |s.exports| ==> s.exports[e].senders.Even(c.sinks))
    && (forall i :: 0 <= i < |s.stops| ==> s.stops[i].Even(c.sinks))
  }

  /** The wait group counts the waiting senders, and an export returns when none is left. */
  ghost predicate Counted(c: Config, x: Export) {
    x.wg == multiset(x.senders.statuses)[Waiting]
    && (x.returned ==> |x.senders.statuses| == c.sinks && Waiting !in x.senders.statuses)
  }

  ghost predicate AllCounted(c: Config, s: State) {
    forall e :: 0 <= e < |s.exports| ==> Counted(c, s.exports[e])
  }

  /** An event that may come right after the given one. */
  predicate Follows(before: Event, after: Event) {
    match before
    case Called(e) => after == Returned(e)
    case Returned(_) => !after.Returned?
    case Stopped => false
  }

  /** Calls to a sink never overlap, and nothing comes after a stop. */
  ghost predicate Sequential(log: seq<Event>) {
    (log != [] ==> !log[0].Returned?) && forall i :: 0 < i < |log| ==> Follows(log[i - 1], log[i])
  }

  /** The state of a worker is the last thing it did. */
  function WorkerAfter(log: seq<Event>): Worker {
    if log == [] then Idle
    else
      match log[|log| - 1]
      case Called(e) => Busy(e)
      case Returned(_) => Idle
      case Stopped => Gone
  }

  ghost predicate LogsHold(s: State) {
    |s.workers| == |s.logs|
    && forall k :: 0 <= k < |s.logs| ==> Sequential(s.logs[k]) && s.workers[k] == WorkerAfter(s.logs[k])
  }

  predicate DeliveredTo(s: State, e: nat, k: nat) {
    e < |s.exports| && s.exports[e].senders.DeliveredAt(k)
  }

  /** A sink is called once for an export delivered to it, and never for any other. */
  ghost predicate CallsMatch(s: State) {
    forall e: nat, k: nat :: k < |s.logs| ==>
      multiset(s.logs[k])[Called(e)] == if DeliveredTo(s, e, k) then 1 else 0
  }

  predicate StopSent(s: State, i: nat, k: nat) {
    i < |s.stops| && s.stops[i].DeliveredAt(k)
  }

  /** A worker is gone exactly when a stop has got through to it, and only one ever does. */
  ghost predicate StopsMatch(s: State) {
    (forall i: nat, k: nat :: StopSent(s, i, k) ==> k < |s.workers| && s.workers[k] == Gone)
    && (forall k: nat :: k < |s.workers| && s.workers[k] == Gone ==> exists i: nat :: StopSent(s, i, k))
    && forall i: nat, j: nat, k: nat :: StopSent(s, i, k) && StopSent(s, j, k) ==> i == j
  }

  /** The number of senders with the given status. */
  function Total(all: seq<Senders>, status: Status): nat {
    if all == [] then 0
    else Total(all[..|all| - 1], status) + multiset(all[|all| - 1].statuses)[status]
  }

  function Pushers(s: State): (r: seq<Senders>)
    ensures |r| == |s.exports|
  {
    seq(|s.exports|, e requires 0 <= e < |s.exports| => s.exports[e].senders)
  }

  function TimedOutPushes(s: State): nat {
    Total(Pushers(s), TimedOut)
  }

  /** No sender waits past its deadline, and no deadline lies further off than the timeout. */
  ghost predicate Punctual(x: Senders, now: int, timeout: int) {
    forall k: nat :: x.WaitsAt(k) ==> now <= x.deadlines[k] <= Deadline(now, timeout)
  }

  ghost predicate AllPunctual(c: Config, s: State) {
    (forall e :: 0 <= e < |s.exports| ==> Punctual(s.exports[e].senders, s.now, c.exportTimeout))
    && forall i :: 0 <= i < |s.stops| ==> Punctual(s.stops[i], s.now, c.stopTimeout)
  }

  ghost predicate Inv(c: Config, s: State) {
    Shape(c, s) && AllCounted(c, s) && LogsHold(s) && CallsMatch(s) && StopsMatch(s)
    && s.timeouts == TimedOutPushes(s) && AllPunctual(c, s)
  }

  lemma InitHolds(c: Config, now: int)
    ensures Inv(c, Init(c, now))
  {
  }

  lemma ShapeKept(c: Config, s: State, a: Action)
    requires Shape(c, s) && Apply(c, s, a).Some?
    ensures Shape(c, Apply(c, s, a).value)
  {
  }

  lemma EndedCounts(x: Senders, k: nat, status: Status)
    requires x.WaitsAt(k) && status != Waiting
    ensures multiset(x.Ended(k, status).statuses) == multiset(x.statuses) - multiset{Waiting} + multiset{status}
    ensures Waiting in multiset(x.statuses)
  {
    assert x.statuses[k] in x.statuses;
  }

  lemma StartCounts(x: Senders, deadline: int)
    ensures multiset(x.Start(deadline).statuses) == multiset(x.statuses) + multiset{Waiting}
  {
  }

  lemma PushEndedCounts(c: Config, x: Export, k: nat, status: Status)
    requires Counted(c, x) && x.senders.WaitsAt(k) && status != Waiting
    ensures Counted(c, PushEnded(x, k, status))
  {
    EndedCounts(x.senders, k, status);
  }

  lemma ExportStartCounted(c: Config, x: Export, deadline: int)
    requires Counted(c, x) && |x.senders.statuses| < c.sinks
    ensures Counted(c, x.(senders := x.senders.Start(deadline), wg := x.wg + 1))
  {
    StartCounts(x.senders, deadline);
  }

  lemma ReturnCounted(c: Config, x: Export)
    requires Counted(c, x) && |x.senders.statuses| == c.sinks && x.wg == 0
    ensures Counted(c, x.(returned := true))
  {
    assert Waiting in x.senders.statuses ==> Waiting in multiset(x.senders.statuses);
  }

  lemma NewCounted(c: Config)
    ensures Counted(c, Export(Senders([], []), 0, false))
  {
  }

  lemma CountedKept(c: Config, s: State, a: Action)
    requires AllCounted(c, s) && Apply(c, s, a).Some?
    ensures AllCounted(c, Apply(c, s, a).value)
  {
    hide Counted, Deadline, PushEnded, Senders.Start, Senders.Ended, Senders.InTime;
    match a
    case CallExport => NewCounted(c);
    case ReturnExport(e) => ReturnCounted(c, s.exports[e]);
    case StartPush(e) => ExportStartCounted(c, s.exports[e], Deadline(s.now, c.exportTimeout));
    case Push(e, k) => PushEndedCounts(c, s.exports[e], k, Delivered);
    case PushTimeout(e, k) => PushEndedCounts(c, s.exports[e], k, TimedOut);
    case _ =>
  }

  lemma LogsKept(c: Config, s: State, a: Action)
    requires LogsHold(s) && Apply(c, s, a).Some?
    ensures LogsHold(Apply(c, s, a).value)
  {
  }

  /** Only a push adds a call to a log, and only one that delivers. */
  lemma CallStep(c: Config, s: State, a: Action, e: nat, k: nat)
    requires Apply(c, s, a).Some? && k < |s.logs|
    ensures var t := Apply(c, s, a).value;
            && |t.logs| == |s.logs|
            && (DeliveredTo(t, e, k) <==> DeliveredTo(s, e, k) || a == Push(e, k))
            && (a == Push(e, k) ==> !DeliveredTo(s, e, k))
            && multiset(t.logs[k])[Called(e)] == multiset(s.logs[k])[Called(e)] + if a == Push(e, k) then 1 else 0
  {
  }

  lemma LogsLength(c: Config, s: State, a: Action)
    requires Apply(c, s, a).Some?
    ensures |Apply(c, s, a).value.logs| == |s.logs|
  {
  }

  lemma CallsKept(c: Config, s: State, a: Action)
    requires CallsMatch(s) && Apply(c, s, a).Some?
    ensures CallsMatch(Apply(c, s, a).value)
  {
    LogsLength(c, s, a);
    hide Apply, DeliveredTo;
    var t := Apply(c, s, a).value;
    forall e: nat, k: nat | k < |t.logs|
      ensures multiset(t.logs[k])[Called(e)] == if DeliveredTo(t, e, k) then 1 else 0
    {
      CallStep(c, s, a, e, k);
    }
  }

  lemma StopSentStep(c: Config, s: State, a: Action, i: nat, k: nat)
    requires Apply(c, s, a).Some?
    ensures StopSent(Apply(c, s, a).value, i, k) <==> StopSent(s, i, k) || a == SendStop(i, k)
  {
  }

  lemma GoneStep(c: Config, s: State, a: Action, k: nat)
    requires k < |s.workers| && Apply(c, s, a).Some?
    ensures var t := Apply(c, s, a).value;
            |t.workers| == |s.workers|
            && (s.workers[k] == Gone ==> t.workers[k] == Gone)
            && (t.workers[k] == Gone ==> s.workers[k] == Gone || (a.SendStop? && a.k == k))
            && (a.SendStop? && a.k == k ==> s.workers[k] == Idle && t.workers[k] == Gone)
  {
  }

  lemma StopsKept(c: Config, s: State, a: Action)
    requires Shape(c, s) && StopsMatch(s) && Apply(c, s, a).Some?
    ensures StopsMatch(Apply(c, s, a).value)
  {
    hide Apply, StopSent;
    var t := Apply(c, s, a).value;
    forall i: nat, k: nat
      ensures StopSent(t, i, k) <==> StopSent(s, i, k) || a == SendStop(i, k)
    {
      StopSentStep(c, s, a, i, k);
    }
    ShapeKept(c, s, a);
    forall k: nat | k < |s.workers|
      ensures k < |t.workers| && (s.workers[k] == Gone ==> t.workers[k] == Gone)
              && (t.workers[k] == Gone ==> s.workers[k] == Gone || (a.SendStop? && a.k == k))
              && (a.SendStop? && a.k == k ==> s.workers[k] == Idle && t.workers[k] == Gone)
    {
      GoneStep(c, s, a, k);
    }
    if a.SendStop? {
      SendStopInRange(c, s, a);
    }
    forall k: nat | k < |t.workers| && t.workers[k] == Gone
      ensures exists i: nat :: StopSent(t, i, k)
    {
      if s.workers[k] == Gone {
        var i: nat :| StopSent(s, i, k);
        assert StopSent(t, i, k);
      } else {
        assert StopSent(t, a.c, k);
      }
    }
  }

  lemma SendStopInRange(c: Config, s: State, a: Action)
    requires a.SendStop? && Apply(c, s, a).Some?
    ensures a.k < |s.workers|
  {
  }

  lemma {:induction false} TotalPut(all: seq<Senders>, i: nat, x: Senders, status: Status)
    requires i < |all|
    ensures Total(all[i := x], status) + multiset(all[i].statuses)[status]
            == Total(all, status) + multiset(x.statuses)[status]
  {
    var n := |all| - 1;
    if i < n {
      TotalPut(all[..n], i, x, status);
      assert all[i := x][..n] == all[..n][i := x];
    } else {
      assert all[i := x][..n] == all[..n];
    }
  }

  lemma TotalAppend(all: seq<Senders>, x: Senders, status: Status)
    ensures Total(all + [x], status) == Total(all, status) + multiset(x.statuses)[status]
  {
    assert (all + [x])[..|all|] == all;
  }

  lemma TotalChange(s: State, t: State, e: nat, status: Status)
    requires e < |s.exports| && |t.exports| == |s.exports|
    requires forall i :: 0 <= i < |s.exports| && i != e ==> t.exports[i].senders == s.exports[i].senders
    ensures Total(Pushers(t), status) + multiset(s.exports[e].senders.statuses)[status]
            == Total(Pushers(s), status) + multiset(t.exports[e].senders.statuses)[status]
  {
    TotalPut(Pushers(s), e, t.exports[e].senders, status);
    assert Pushers(t) == Pushers(s)[e := t.exports[e].senders];
  }

  lemma TotalSame(s: State, t: State, status: Status)
    requires |t.exports| == |s.exports|
    requires forall i :: 0 <= i < |s.exports| ==> t.exports[i].senders == s.exports[i].senders
    ensures Total(Pushers(t), status) == Total(Pushers(s), status)
  {
    assert Pushers(t) == Pushers(s);
  }

  lemma TotalNew(s: State, t: State, status: Status)
    requires t.exports == s.exports + [Export(Senders([], []), 0, false)]
    ensures Total(Pushers(t), status) == Total(Pushers(s), status)
  {
    TotalAppend(Pushers(s), Senders([], []), status);
    assert Pushers(t) == Pushers(s) + [Senders([], [])];
  }

  lemma TotalStarted(s: State, t: State, e: nat, deadline: int)
    requires e < |s.exports|
    requires var x := s.exports[e];
             t.exports == s.exports[e := x.(senders := x.senders.Start(deadline), wg := x.wg + 1)]
    ensures TimedOutPushes(t) == TimedOutPushes(s)
  {
    hide Total, Pushers;
    TotalChange(s, t, e, TimedOut);
    StartCounts(s.exports[e].senders, deadline);
  }

  lemma TotalEnded(s: State, t: State, e: nat, k: nat, status: Status)
    requires e < |s.exports| && s.exports[e].senders.WaitsAt(k) && status != Waiting
    requires t.exports == s.exports[e := PushEnded(s.exports[e], k, status)]
    ensures TimedOutPushes(t) == TimedOutPushes(s) + if status == TimedOut then 1 else 0
    ensures Total(Pushers(t), Waiting) == Total(Pushers(s), Waiting) - 1
  {
    hide Total, Pushers;
    TotalChange(s, t, e, TimedOut);
    TotalChange(s, t, e, Waiting);
    EndedCounts(s.exports[e].senders, k, status);
  }

  lemma TimeoutsKept(c: Config, s: State, a: Action)
    requires s.timeouts == TimedOutPushes(s) && Apply(c, s, a).Some?
    ensures var t := Apply(c, s, a).value; t.timeouts == TimedOutPushes(t)
  {
    hide Total, Deadline, Pushers, PushEnded;
    var t := Apply(c, s, a).value;
    match a
    case CallExport => TotalNew(s, t, TimedOut);
    case StartPush(e) => TotalStarted(s, t, e, Deadline(s.now, c.exportTimeout));
    case Push(e, k) => TotalEnded(s, t, e, k, Delivered);
    case PushTimeout(e, k) => TotalEnded(s, t, e, k, TimedOut);
    case _ => TotalSame(s, t, TimedOut);
  }

  lemma PunctualStart(x: Senders, sinks: nat, now: int, timeout: int)
    requires Punctual(x, now, timeout) && x.Even(sinks)
    ensures Punctual(x.Start(Deadline(now, timeout)), now, timeout)
  {
    assert forall k: nat :: x.Start(Deadline(now, timeout)).WaitsAt(k) && k < |x.statuses| ==> x.WaitsAt(k);
  }

  lemma PunctualEnded(x: Senders, k: nat, status: Status, now: int, timeout: int)
    requires Punctual(x, now, timeout) && x.WaitsAt(k) && status != Waiting
    ensures Punctual(x.Ended(k, status), now, timeout)
  {
    assert forall j: nat :: x.Ended(k, status).WaitsAt(j) ==> x.WaitsAt(j);
  }

  lemma PunctualTick(x: Senders, now: int, timeout: int, t: int)
    requires Punctual(x, now, timeout) && now <= t && x.InTime(t)
    ensures Punctual(x, t, timeout)
  {
  }

  lemma PunctualKept(c: Config, s: State, a: Action)
    requires Shape(c, s) && AllPunctual(c, s) && Apply(c, s, a).Some?
    ensures AllPunctual(c, Apply(c, s, a).value)
  {
    hide Punctual, Deadline, Senders.InTime;
    match a
    case CallExport => PunctualNone(s.now, c.exportTimeout);
    case CallStop => PunctualNone(s.now, c.stopTimeout);
    case StartPush(e) => PunctualStart(s.exports[e].senders, c.sinks, s.now, c.exportTimeout);
    case StartStop(i) => PunctualStart(s.stops[i], c.sinks, s.now, c.stopTimeout);
    case Push(e, k) => PunctualEnded(s.exports[e].senders, k, Delivered, s.now, c.exportTimeout);
    case PushTimeout(e, k) => PunctualEnded(s.exports[e].senders, k, TimedOut, s.now, c.exportTimeout);
    case SendStop(i, k) => PunctualEnded(s.stops[i], k, Delivered, s.now, c.stopTimeout);
    case StopTimeout(i, k) => PunctualEnded(s.stops[i], k, TimedOut, s.now, c.stopTimeout);
    case Tick(t) =>
      forall e | 0 <= e < |s.exports|
        ensures Punctual(s.exports[e].senders, t, c.exportTimeout)
      {
        PunctualTick(s.exports[e].senders, s.now, c.exportTimeout, t);
      }
      forall i | 0 <= i < |s.stops|
        ensures Punctual(s.stops[i], t, c.stopTimeout)
      {
        PunctualTick(s.stops[i], s.now, c.stopTimeout, t);
      }
    case _ =>
  }

  lemma PunctualNone(now: int, timeout: int)
    ensures Punctual(Senders([], []), now, timeout)
  {
  }

  /** Every state a run can reach keeps the invariant. */
  lemma {:induction false} ReachableHolds(c: Config, s: State, actions: seq<Action>)
    requires Inv(c, s) && Run(c, s, actions).Some?
    ensures Inv(c, Run(c, s, actions).value)
    decreases |actions|
  {
    if actions != [] {
      StepHolds(c, s, actions[0]);
      ReachableHolds(c, Apply(c, s, actions[0]).value, actions[1..]);
    }
  }

  lemma StepHolds(c: Config, s: State, a: Action)
    requires Inv(c, s) && Apply(c, s, a).Some?
    ensures Inv(c, Apply(c, s, a).value)
  {
    hide Apply, Shape, AllCounted, LogsHold, CallsMatch, StopsMatch, TimedOutPushes, AllPunctual;
    ShapeKept(c, s, a);
    CountedKept(c, s, a);
    LogsKept(c, s, a);
    CallsKept(c, s, a);
    StopsKept(c, s, a);
    TimeoutsKept(c, s, a);
    PunctualKept(c, s, a);
  }

  predicate Reachable(c: Config, now: int, actions: seq<Action>) {
    Run(c, Init(c, now), actions).Some?
  }

  function Reached(c: Config, now: int, actions: seq<Action>): State
    requires Reachable(c, now, actions)
  {
    Run(c, Init(c, now), actions).value
  }

  lemma ReachedHolds(c: Config, now: int, actions: seq<Action>)
    requires Reachable(c, now, actions)
    ensures Inv(c, Reached(c, now, actions))
  {
    hide Inv, Run, Init;
    InitHolds(c, now);
    ReachableHolds(c, Init(c, now), actions);
  }

  // ---- the protocol's promises ----------------------------------------------------------------

  predicate IsCall(log: seq<Event>, i: nat, e: nat) {
    i < |log| && log[i] == Called(e)
  }

  /** Each push is delivered, and the sink called once for it, or it is timed out or waiting and the sink never is. */
  lemma PushHappensOnce(c: Config, now: int, actions: seq<Action>, e: nat, k: nat)
    requires Reachable(c, now, actions) && k < c.sinks
    ensures var s := Reached(c, now, actions); e < |s.exports| ==>
              var x := s.exports[e].senders;
              k < |s.logs|
              && (x.DeliveredAt(k) <==> exists i: nat :: IsCall(s.logs[k], i, e))
              && (forall i: nat, j: nat :: IsCall(s.logs[k], i, e) && IsCall(s.logs[k], j, e) ==> i == j)
  {
    ReachedHolds(c, now, actions);
    var s := Reached(c, now, actions);
    hide Reached, Reachable, Run, LogsHold, AllCounted, StopsMatch, AllPunctual, TimedOutPushes;
    if e < |s.exports| {
      var log := s.logs[k];
      assert multiset(log)[Called(e)] == if DeliveredTo(s, e, k) then 1 else 0;
      forall i: nat, j: nat | IsCall(log, i, e) && IsCall(log, j, e)
        ensures i == j
      {
        if i < j {
          Twice(log, i, j);
        } else if j < i {
          Twice(log, j, i);
        }
      }
      if DeliveredTo(s, e, k) {
        assert Called(e) in log;
        var i: nat :| i < |log| && log[i] == Called(e);
        assert IsCall(log, i, e);
      } else {
        forall i: nat
          ensures !IsCall(log, i, e)
        {
          assert i < |log| ==> log[i] in multiset(log);
        }
      }
    }
  }

  /** A returned export has no sender left waiting. */
  lemma ReturnedExportsAreDone(c: Config, now: int, actions: seq<Action>, e: nat)
    requires Reachable(c, now, actions)
    ensures var s := Reached(c, now, actions); e < |s.exports| && s.exports[e].returned ==>
              |s.exports[e].senders.statuses| == c.sinks
              && forall k: nat :: !s.exports[e].senders.WaitsAt(k)
  {
    ReachedHolds(c, now, actions);
    var s := Reached(c, now, actions);
    if e < |s.exports| {
      assert Counted(c, s.exports[e]);
    }
  }

  /** The timeout counter is the number of pushes that timed out. */
  lemma TimeoutsAreCounted(c: Config, now: int, actions: seq<Action>)
    requires Reachable(c, now, actions)
    ensures Reached(c, now, actions).timeouts == TimedOutPushes(Reached(c, now, actions))
  {
    ReachedHolds(c, now, actions);
  }

  lemma StopIsLast(log: seq<Event>, i: nat)
    requires Sequential(log) && i < |log| && log[i] == Stopped
    ensures i == |log| - 1
  {
    assert i < |log| - 1 ==> Follows(log[i], log[i + 1]);
  }

  /** A sink is only ever called when it has completed its previous call. */
  lemma CallsDoNotOverlap(c: Config, now: int, actions: seq<Action>, k: nat, i: nat)
    requires Reachable(c, now, actions) && k < c.sinks
    ensures var s := Reached(c, now, actions);
            k < |s.logs| && (i < |s.logs[k]| && !s.logs[k][i].Returned? && i > 0 ==> s.logs[k][i - 1].Returned?)
  {
    ReachedHolds(c, now, actions);
    var s := Reached(c, now, actions);
    assert Sequential(s.logs[k]);
  }

  /** A stop is the last thing that ever happens at a sink: however the run goes on, its log stays as it is. */
  lemma {:induction false} StoppedIsFinal(c: Config, s: State, actions: seq<Action>, k: nat)
    requires Inv(c, s) && k < c.sinks && Stopped in s.logs[k] && Run(c, s, actions).Some?
    ensures k < |Run(c, s, actions).value.logs| && Run(c, s, actions).value.logs[k] == s.logs[k]
    ensures WorkerAfter(s.logs[k]) == Gone
    decreases |actions|
  {
    var i: nat :| i < |s.logs[k]| && s.logs[k][i] == Stopped;
    StopIsLast(s.logs[k], i);
    if actions != [] {
      assert s.workers[k] == Gone;
      GoneKeepsLog(c, s, actions[0], k);
      hide Inv, Apply, WorkerAfter, Sequential;
      StepHolds(c, s, actions[0]);
      StoppedIsFinal(c, Apply(c, s, actions[0]).value, actions[1..], k);
    }
  }

  lemma GoneKeepsLog(c: Config, s: State, a: Action, k: nat)
    requires |s.logs| == |s.workers| && k < |s.logs| && s.workers[k] == Gone && Apply(c, s, a).Some?
    ensures k < |Apply(c, s, a).value.logs| && Apply(c, s, a).value.logs[k] == s.logs[k]
  {
  }

  /** At most one stop request gets through to each sink. */
  lemma StoppedAtMostOnce(c: Config, now: int, actions: seq<Action>, k: nat)
    requires Reachable(c, now, actions) && k < c.sinks
    ensures var s := Reached(c, now, actions);
            k < |s.logs|
            && (forall i: nat :: i < |s.logs[k]| && s.logs[k][i] == Stopped ==> i == |s.logs[k]| - 1)
            && (forall i: nat, j: nat :: StopSent(s, i, k) && StopSent(s, j, k) ==> i == j)
            && (forall i: nat :: StopSent(s, i, k) ==> Stopped in s.logs[k])
  {
    ReachedHolds(c, now, actions);
    var s := Reached(c, now, actions);
    assert Sequential(s.logs[k]) && s.workers[k] == WorkerAfter(s.logs[k]);
    forall i: nat | i < |s.logs[k]| && s.logs[k][i] == Stopped
      ensures i == |s.logs[k]| - 1
    {
      StopIsLast(s.logs[k], i);
    }
  }

  // ---- exports complete in time ---------------------------------------------------------------

  /** Export e in t is the export of s with some of its senders ended. */
  ghost predicate OnlyEnded(s: State, t: State, e: nat) {
    e < |s.exports| && e < |t.exports|
    && var x, y := s.exports[e].senders, t.exports[e].senders;
       y.deadlines == x.deadlines && |y.statuses| == |x.statuses|
       && forall k: nat :: y.WaitsAt(k) ==> x.WaitsAt(k)
  }

  ghost predicate AllStarted(c: Config, s: State, e: nat) {
    e < |s.exports| && |s.exports[e].senders.statuses| == c.sinks
  }

  lemma StepOnlyEnds(c: Config, s: State, a: Action, e: nat)
    requires AllStarted(c, s, e) && Apply(c, s, a).Some?
    ensures OnlyEnded(s, Apply(c, s, a).value, e)
  {
  }

  lemma {:induction false} RunOnlyEnds(c: Config, s: State, actions: seq<Action>, e: nat)
    requires AllStarted(c, s, e) && Run(c, s, actions).Some?
    ensures OnlyEnded(s, Run(c, s, actions).value, e)
    decreases |actions|
  {
    hide Apply;
    if actions != [] {
      StepOnlyEnds(c, s, actions[0], e);
      RunOnlyEnds(c, Apply(c, s, actions[0]).value, actions[1..], e);
    }
  }

  /**
   Once the timeout has passed since the last sender of an export started, none of them waits, in any
   run. This is what the clock's guard stands for; that the guard never stops the clock is TimeCanPass.
   */
  lemma ExportDoneByDeadline(c: Config, s: State, actions: seq<Action>, e: nat)
    requires Inv(c, s) && AllStarted(c, s, e) && Run(c, s, actions).Some?
    requires Run(c, s, actions).value.now > Deadline(s.now, c.exportTimeout)
    ensures var t := Run(c, s, actions).value; e < |t.exports| && t.exports[e].wg == 0
  {
    hide Run, Apply, LogsHold, CallsMatch, StopsMatch, TimedOutPushes, Deadline;
    var t := Run(c, s, actions).value;
    ReachableHolds(c, s, actions);
    RunOnlyEnds(c, s, actions, e);
    var x, y := s.exports[e].senders, t.exports[e].senders;
    assert Punctual(x, s.now, c.exportTimeout) && Punctual(y, t.now, c.exportTimeout);
    assert Counted(c, t.exports[e]);
    forall k: nat | k < |y.statuses|
      ensures y.statuses[k] != Waiting
    {
      assert y.WaitsAt(k) ==> x.WaitsAt(k);
    }
    assert Waiting !in multiset(y.statuses);
  }

  /** The actions that need no sink to do anything. */
  predicate IsClock(a: Action) {
    a.PushTimeout? || a.StopTimeout? || a.Tick?
  }

  lemma RunCons(c: Config, s: State, a: Action, actions: seq<Action>)
    requires Apply(c, s, a).Some?
    ensures Run(c, s, [a] + actions) == Run(c, Apply(c, s, a).value, actions)
  {
    assert ([a] + actions)[1..] == actions;
  }

  function WaitingSenders(s: State): nat {
    Total(Pushers(s), Waiting) + Total(s.stops, Waiting)
  }

  lemma TimeoutEndsOne(c: Config, s: State, a: Action)
    requires (a.PushTimeout? || a.StopTimeout?) && Apply(c, s, a).Some?
    ensures WaitingSenders(Apply(c, s, a).value) < WaitingSenders(s) && Apply(c, s, a).value.now == s.now
  {
    var t := Apply(c, s, a).value;
    match a
    case PushTimeout(e, k) =>
      TotalEnded(s, t, e, k, TimedOut);
    case StopTimeout(i, k) =>
      TotalSame(s, t, Waiting);
      TotalPut(s.stops, i, t.stops[i], Waiting);
      EndedCounts(s.stops[i], k, TimedOut);
  }

  /** A waiting sender whose deadline has come, if the clock cannot move on. */
  lemma SomeoneIsDue(c: Config, s: State) returns (a: Action)
    requires Inv(c, s)
    ensures IsClock(a) && Apply(c, s, a).Some? && (a.Tick? ==> a.t == s.now + 1)
  {
    a := Tick(s.now + 1);
    if e: nat, k: nat :| e < |s.exports| && s.exports[e].senders.WaitsAt(k) && s.exports[e].senders.deadlines[k] <= s.now {
      a := PushTimeout(e, k);
    } else if i: nat, k: nat :| i < |s.stops| && s.stops[i].WaitsAt(k) && s.stops[i].deadlines[k] <= s.now {
      a := StopTimeout(i, k);
    }
  }

  /** The clock can always move on: senders that time out are all it ever has to wait for. */
  lemma {:induction false} TimeCanPass(c: Config, s: State, t: int) returns (actions: seq<Action>)
    requires Inv(c, s) && s.now <= t
    ensures Run(c, s, actions).Some? && Run(c, s, actions).value.now == t
    ensures forall a :: a in actions ==> IsClock(a)
    decreases t - s.now, WaitingSenders(s)
  {
    if s.now == t {
      return [];
    }
    var a := SomeoneIsDue(c, s);
    StepHolds(c, s, a);
    assert a.Tick? ==> Apply(c, s, a).value.now == s.now + 1;
    hide Apply;
    if !a.Tick? {
      TimeoutEndsOne(c, s, a);
    }
    var rest := TimeCanPass(c, Apply(c, s, a).value, t);
    RunCons(c, s, a, rest);
    actions := [a] + rest;
  }

  /** Even if no sink ever does anything again, an export with all its senders started can come to return. */
  lemma ExportsCanReturn(c: Config, s: State, e: nat) returns (actions: seq<Action>)
    requires Inv(c, s) && AllStarted(c, s, e) && !s.exports[e].returned
    ensures Run(c, s, actions).Some?
    ensures forall a :: a in actions ==> IsClock(a) || a == ReturnExport(e)
    ensures var t := Run(c, s, actions).value; e < |t.exports| && t.exports[e].returned
  {
    var clock := TimeCanPass(c, s, Later(c, s));
    ExportDoneByDeadline(c, s, clock, e);
    RunOnlyEnds(c, s, clock, e);
    NotYetReturned(c, s, clock, e);
    var t := Run(c, s, clock).value;
    assert Apply(c, t, ReturnExport(e)).Some?;
    assert Run(c, t, [ReturnExport(e)]) == Apply(c, t, ReturnExport(e));
    RunCat(c, s, clock, [ReturnExport(e)]);
    actions := clock + [ReturnExport(e)];
  }

  lemma {:induction false} NotYetReturned(c: Config, s: State, actions: seq<Action>, e: nat)
    requires Run(c, s, actions).Some? && (forall a :: a in actions ==> IsClock(a))
    requires e < |s.exports| && !s.exports[e].returned
    ensures e < |Run(c, s, actions).value.exports| && !Run(c, s, actions).value.exports[e].returned
    decreases |actions|
  {
    if actions != [] {
      assert IsClock(actions[0]);
      NotYetReturned(c, Apply(c, s, actions[0]).value, actions[1..], e);
    }
  }

  lemma {:induction false} RunCat(c: Config, s: State, a: seq<Action>, b: seq<Action>)
    requires Run(c, s, a).Some?
    ensures Run(c, s, a + b) == Run(c, Run(c, s, a).value, b)
    decreases |a|
  {
    hide Apply;
    if a == [] {
      assert a + b == b;
    } else {
      RunCat(c, Apply(c, s, a[0]).value, a[1..], b);
      assert (a + b)[1..] == a[1..] + b;
    }
  }

  function Later(c: Config, s: State): (t: int)
    ensures t > s.now && t > Deadline(s.now, c.exportTimeout)
  {
    Deadline(s.now, c.exportTimeout) + 1
  }

  /** A run given by the states it passes through. */
  lemma {:induction false} RunsThrough(c: Config, states: seq<State>, actions: seq<Action>)
    requires |states| == |actions| + 1
    requires forall i :: 0 <= i < |actions| ==> Apply(c, states[i], actions[i]) == Some(states[i + 1])
    ensures Run(c, states[0], actions) == Some(states[|actions|])
    decreases |actions|
  {
    hide Apply;
    if actions != [] {
      assert forall i :: 0 <= i < |actions| ==> states[1..][i] == states[i + 1];
      assert Apply(c, states[0], actions[0]) == Some(states[1]);
      RunsThrough(c, states[1..], actions[1..]);
    }
  }

  const LOSING := Config(1, 20, 10)

  const LOST := [CallExport, StartPush(0), Push(0, 0), CallStop, StartStop(0), Tick(10), StopTimeout(0, 0), Finish(0)]

  /** The states of a run in which a busy sink misses its stop. */
  function Losing(i: nat): State
    requires i <= 8
  {
    var s := State(if i < 6 then 0 else 10, [Idle], [], [], 0, [[]]);
    var called := Export(Senders([], []), 0, false);
    var waiting := Export(Senders([Waiting], [20]), 1, false);
    var delivered := Export(Senders([Delivered], [20]), 0, false);
    if i == 0 then s
    else if i == 1 then s.(exports := [called])
    else if i == 2 then s.(exports := [waiting])
    else
      var b := s.(workers := [Busy(0)], exports := [delivered], logs := [[Called(0)]]);
      if i == 3 then b
      else if i == 4 then b.(stops := [Senders([], [])])
      else if i <= 6 then b.(stops := [Senders([Waiting], [10])])
      else
        var e := b.(stops := [Senders([TimedOut], [10])]);
        if i == 7 then e else e.(workers := [Idle], logs := [[Called(0), Returned(0)]])
  }

  lemma LosingExport()
    ensures Init(LOSING, 0) == Losing(0)
    ensures Apply(LOSING, Losing(0), CallExport) == Some(Losing(1))
    ensures Apply(LOSING, Losing(1), StartPush(0)) == Some(Losing(2))
  {
    assert Apply(LOSING, Losing(0), CallExport).value.exports == Losing(1).exports;
    var x := Apply(LOSING, Losing(1), StartPush(0)).value;
    assert x.exports[0].senders.statuses == [Waiting] && x.exports[0].senders.deadlines == [20];
    assert x.exports == Losing(2).exports;
  }

  lemma LosingPush()
    ensures Apply(LOSING, Losing(2), Push(0, 0)) == Some(Losing(3))
  {
    var t := Apply(LOSING, Losing(2), Push(0, 0)).value;
    assert t.exports[0].senders.statuses == [Delivered] && t.logs[0] == [Called(0)];
    assert t.exports == Losing(3).exports && t.logs == Losing(3).logs && t.workers == Losing(3).workers;
  }

  lemma LosingStop()
    ensures Apply(LOSING, Losing(3), CallStop) == Some(Losing(4))
    ensures Apply(LOSING, Losing(4), StartStop(0)) == Some(Losing(5))
  {
    assert Apply(LOSING, Losing(3), CallStop).value.stops == Losing(4).stops;
    var t := Apply(LOSING, Losing(4), StartStop(0)).value;
    assert t.stops[0].statuses == [Waiting] && t.stops[0].deadlines == [10];
    assert t.stops == Losing(5).stops;
  }

  lemma LosingTimeout()
    ensures Apply(LOSING, Losing(5), Tick(10)) == Some(Losing(6))
    ensures Apply(LOSING, Losing(6), StopTimeout(0, 0)) == Some(Losing(7))
  {
    var t := Apply(LOSING, Losing(6), StopTimeout(0, 0)).value;
    assert t.stops[0].statuses == [TimedOut];
    assert t.stops == Losing(7).stops;
  }

  lemma LosingFinish()
    ensures Apply(LOSING, Losing(7), Finish(0)) == Some(Losing(8))
  {
    var t := Apply(LOSING, Losing(7), Finish(0)).value;
    assert t.logs[0] == [Called(0), Returned(0)];
    assert t.logs == Losing(8).logs && t.workers == Losing(8).workers;
  }

  /** A stop is not sure to arrive: it gives up on a sink that is busy for longer than the timeout. */
  lemma StopCanBeLost()
    ensures Reachable(LOSING, 0, LOST) && Reached(LOSING, 0, LOST) == Losing(8)
    ensures Losing(8).workers == [Idle] && Stopped !in Losing(8).logs[0]
            && Losing(8).stops == [Senders([TimedOut], [10])]
  {
    LosingExport();
    LosingPush();
    LosingStop();
    LosingTimeout();
    LosingFinish();
    hide Apply, Init, Run;
    var states := [Losing(0), Losing(1), Losing(2), Losing(3), Losing(4), Losing(5), Losing(6), Losing(7), Losing(8)];
    RunsThrough(LOSING, states, LOST);
  }
}
