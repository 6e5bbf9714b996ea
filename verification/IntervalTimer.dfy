/**
 The aligned scrape timer (collector/plugins/sources/interval_timer.go).

 Times and durations are whole nanoseconds. The clock is a parameter of each reset.
 */
module IntervalTimer {

  /** Go's quotient and remainder, which truncate toward zero. */
  function Quo(a: int, b: int): int
    requires b > 0
  {
    if a >= 0 then a / b else -(-a / b)
  }

  function Rem(a: int, b: int): int
    requires b > 0
  {
    a - Quo(a, b) * b
  }

  const THRESHOLD := 0.0333

  /** A part of an interval; the conversion to a duration truncates toward zero. */
  function ScaleInterval(interval: int, ratio: real): int {
    var scaled := interval as real * ratio;
    if scaled >= 0.0 then scaled.Floor else -(-scaled).Floor
  }

  function IntervalsMissed(interval: int, sinceReset: int): int
    requires interval > 0
  {
    if sinceReset < interval then 0 else Quo(sinceReset, interval) - 1
  }

  function WaitToNextInterval(interval: int, diff: int): int
    requires interval > 0
  {
    var wait := interval - Rem(diff, interval);
    if wait < ScaleInterval(interval, THRESHOLD) then wait + interval else wait
  }

  // ---- the next wait --------------------------------------------------------------------------

  /** at is a whole multiple of the interval away from the start. */
  ghost predicate Aligned(interval: int, at: int) {
    exists k: int :: OnMark(interval, k, at)
  }

  predicate OnMark(interval: int, k: int, at: int) {
    k * interval == at
  }

  lemma ThresholdBelowInterval(interval: int)
    requires interval > 0
    ensures 0 <= ScaleInterval(interval, THRESHOLD) < interval
    ensures ScaleInterval(interval, THRESHOLD) == 0 <==> interval <= 30
  {
    var scaled := interval as real * THRESHOLD;
    assert 0.0 <= scaled < interval as real;
  }

  lemma RemIsSmall(diff: int, interval: int)
    requires interval > 0
    ensures diff >= 0 ==> 0 <= Rem(diff, interval) < interval
    ensures diff <= 0 ==> -interval < Rem(diff, interval) <= 0
  {
    if diff < 0 {
      var q := -diff / interval;
      assert -diff == q * interval + -diff % interval;
    }
  }

  lemma WaitLands(interval: int, diff: int)
    requires interval > 0
    ensures Aligned(interval, diff + WaitToNextInterval(interval, diff))
  {
    var q := Quo(diff, interval);
    var w := WaitToNextInterval(interval, diff);
    hide Quo, ScaleInterval;
    assert diff == q * interval + Rem(diff, interval);
    if interval - Rem(diff, interval) < ScaleInterval(interval, THRESHOLD) {
      assert (q + 2) * interval == q * interval + 2 * interval;
      assert OnMark(interval, q + 2, diff + w);
    } else {
      assert (q + 1) * interval == q * interval + interval;
      assert OnMark(interval, q + 1, diff + w);
    }
  }

  lemma MarksAreApart(interval: int, j: int, k: int)
    requires interval > 0 && j < k
    ensures j * interval + interval <= k * interval
  {
    var d := k - j - 1;
    assert d * interval >= 0;
    assert k * interval == (j + 1 + d) * interval == j * interval + interval + d * interval;
  }

  /** Of all positive waits that land and are no shorter than the threshold, the timer takes the least. */
  lemma WaitIsFirst(interval: int, diff: int, w: int)
    requires interval > 0 && diff >= 0
    requires w > 0 && w >= ScaleInterval(interval, THRESHOLD) && Aligned(interval, diff + w)
    ensures 0 < WaitToNextInterval(interval, diff) <= w
    ensures WaitToNextInterval(interval, diff) >= ScaleInterval(interval, THRESHOLD)
  {
    RemIsSmall(diff, interval);
    ThresholdBelowInterval(interval);
    var q := Quo(diff, interval);
    var k: int :| OnMark(interval, k, diff + w);
    assert (q + 1) * interval == q * interval + interval;
    if k <= q {
      if k < q {
        MarksAreApart(interval, k, q);
      }
      assert false;
    }
    if q + 1 < k {
      MarksAreApart(interval, q + 1, k);
    }
  }

  /**
   The wait lies in [t, interval + t) unless the threshold t truncates to zero, which happens for
   intervals of at most 30 nanoseconds, and the timer is reset right on a mark.
   */
  lemma WaitRange(interval: int, diff: int)
    requires interval > 0 && diff >= 0
    ensures var t, w := ScaleInterval(interval, THRESHOLD), WaitToNextInterval(interval, diff);
            t <= w < interval + t <==> interval > 30 || diff % interval != 0
  {
    ThresholdBelowInterval(interval);
    RemIsSmall(diff, interval);
    assert diff == diff / interval * interval + diff % interval;
  }

  lemma WaitLeavesRange()
    ensures WaitToNextInterval(30, 60) == 30 + ScaleInterval(30, THRESHOLD)
  {
    ThresholdBelowInterval(30);
  }

  // ---- missed intervals -----------------------------------------------------------------------

  predicate NonDecreasing(from: int, times: seq<int>)
    decreases |times|
  {
    times == [] || (from <= times[0] && NonDecreasing(times[0], times[1..]))
  }

  /** The sum of the missed counts over resets at the given times. */
  function TotalMissed(interval: int, from: int, times: seq<int>): int
    requires interval > 0
    decreases |times|
  {
    if times == [] then 0
    else IntervalsMissed(interval, times[0] - from) + TotalMissed(interval, times[0], times[1..])
  }

  /** The number of resets that come an interval or more after the one before. */
  function Late(interval: int, from: int, times: seq<int>): nat
    requires interval > 0
    decreases |times|
  {
    if times == [] then 0
    else (if times[0] - from < interval then 0 else 1) + Late(interval, times[0], times[1..])
  }

  function End(from: int, times: seq<int>): int {
    if times == [] then from else times[|times| - 1]
  }

  /** A late reset counts the whole intervals since the last one, less the one it serves itself. */
  lemma MissedIsExact(interval: int, since: int)
    requires interval > 0 && since >= 0
    ensures var m := IntervalsMissed(interval, since);
            m >= 0 && if since < interval then m == 0
                      else (m + 1) * interval <= since < (m + 2) * interval
  {
    var q := since / interval;
    assert since == q * interval + since % interval;
    assert (q + 1) * interval == q * interval + interval;
    if since >= interval {
    }
  }

  /** Missed and served intervals together never exceed the time that has passed. */
  lemma {:induction false} MissedFitsElapsed(interval: int, from: int, times: seq<int>)
    requires interval > 0 && NonDecreasing(from, times)
    ensures TotalMissed(interval, from, times) >= 0
    ensures (TotalMissed(interval, from, times) + Late(interval, from, times)) * interval <= End(from, times) - from
    decreases |times|
  {
    if times != [] {
      var since := times[0] - from;
      var m := IntervalsMissed(interval, since);
      var rest := TotalMissed(interval, times[0], times[1..]) + Late(interval, times[0], times[1..]);
      MissedIsExact(interval, since);
      MissedFitsElapsed(interval, times[0], times[1..]);
      if since < interval {
      } else {
        assert (m + 1 + rest) * interval == (m + 1) * interval + rest * interval;
      }
    }
  }

  /** How long after a mark a time lies. */
  function Phase(interval: int, start: int, at: int): int
    requires interval > 0
  {
    (at - start) % interval
  }

  /** The number of marks since the start. */
  function Marks(interval: int, start: int, at: int): int
    requires interval > 0
  {
    (at - start) / interval
  }

  /** The resets that come earlier after a mark than the one before them: one mark more has passed than they account for. */
  function Uncounted(interval: int, start: int, from: int, times: seq<int>): nat
    requires interval > 0
    decreases |times|
  {
    if times == [] then 0
    else (if Phase(interval, start, times[0]) < Phase(interval, start, from) then 1 else 0)
         + Uncounted(interval, start, times[0], times[1..])
  }

  lemma Carry(interval: int, a: int, b: int)
    requires interval > 0 && a >= 0 && b >= 0
    ensures (a + b) / interval == a / interval + b / interval + if (a + b) % interval < a % interval then 1 else 0
  {
    var p, q, r := a / interval, b / interval, a % interval + b % interval;
    assert a == p * interval + a % interval && b == q * interval + b % interval;
    assert a + b == (p + q) * interval + r;
    if r < interval {
      QuotientIs(interval, a + b, p + q, r);
    } else {
      assert (p + q + 1) * interval == (p + q) * interval + interval;
      QuotientIs(interval, a + b, p + q + 1, r - interval);
    }
  }

  lemma QuotientIs(interval: int, x: int, q: int, r: int)
    requires interval > 0 && x == q * interval + r && 0 <= r < interval
    ensures x / interval == q && x % interval == r
  {
    var p, s := x / interval, x % interval;
    assert x == p * interval + s;
    if p < q {
      MarksAreApart(interval, p, q);
    }
    if q < p {
      MarksAreApart(interval, q, p);
    }
  }

  lemma StepCounts(interval: int, since: int)
    requires interval > 0 && since >= 0
    ensures IntervalsMissed(interval, since) + (if since < interval then 0 else 1) == since / interval
  {
    if since < interval {
      QuotientIs(interval, since, 0, since);
    }
  }

  /**
   Over any run of resets every mark is accounted for: it is missed, served by a late reset, or one of those
   passed by a reset that comes earlier after its mark than the one before, as when the threshold skips a mark.
   */
  lemma {:induction false} MarksAreAccounted(interval: int, start: int, from: int, times: seq<int>)
    requires interval > 0 && start <= from && NonDecreasing(from, times)
    ensures Marks(interval, start, End(from, times)) - Marks(interval, start, from)
            == TotalMissed(interval, from, times) + Late(interval, from, times) + Uncounted(interval, start, from, times)
    decreases |times|
  {
    if times != [] {
      MarksAreAccounted(interval, start, times[0], times[1..]);
      Carry(interval, from - start, times[0] - from);
      StepCounts(interval, times[0] - from);
      hide IntervalsMissed;
      assert End(from, times) == End(times[0], times[1..]);
    }
  }

  /** Reset i comes earlier after its mark than the one before it. */
  predicate ComesEarlier(interval: int, start: int, from: int, times: seq<int>, i: nat)
    requires interval > 0 && i < |times|
  {
    Phase(interval, start, times[i]) < Phase(interval, start, if i == 0 then from else times[i - 1])
  }

  lemma {:induction false} NoneUncountedIff(interval: int, start: int, from: int, times: seq<int>)
    requires interval > 0
    ensures Uncounted(interval, start, from, times) == 0
            <==> forall i :: 0 <= i < |times| ==> !ComesEarlier(interval, start, from, times, i)
    decreases |times|
  {
    hide Phase;
    if times != [] {
      NoneUncountedIff(interval, start, times[0], times[1..]);
      forall i | 1 <= i < |times|
        ensures ComesEarlier(interval, start, from, times, i) <==> ComesEarlier(interval, start, times[0], times[1..], i - 1)
      {
      }
      forall i | 0 <= i < |times| - 1
        ensures ComesEarlier(interval, start, times[0], times[1..], i) <==> ComesEarlier(interval, start, from, times, i + 1)
      {
      }
      assert ComesEarlier(interval, start, from, times, 0)
             <==> Phase(interval, start, times[0]) < Phase(interval, start, from);
    }
  }

  /** All marks passed are missed or served if and only if no reset comes earlier after its mark than the one before. */
  lemma AllMarksCountedIff(interval: int, start: int, from: int, times: seq<int>)
    requires interval > 0 && start <= from && NonDecreasing(from, times)
    ensures Marks(interval, start, End(from, times)) - Marks(interval, start, from)
            == TotalMissed(interval, from, times) + Late(interval, from, times)
            <==> forall i :: 0 <= i < |times| ==> !ComesEarlier(interval, start, from, times, i)
  {
    hide *;
    MarksAreAccounted(interval, start, from, times);
    NoneUncountedIff(interval, start, from, times);
  }

  /** A reset just below the threshold before a mark, and prompt ones after it: that mark is neither missed nor served. */
  lemma SkippedMarkIsUncounted()
    ensures WaitToNextInterval(1000, 1990) == 1010
    ensures TotalMissed(1000, 0, [1990, 3000]) == 0 && Late(1000, 0, [1990, 3000]) == 2
    ensures Marks(1000, 0, 3000) == 3 && Uncounted(1000, 0, 0, [1990, 3000]) == 1
  {
    assert [1990, 3000][1..] == [3000] && [3000][1..] == [];
    ThresholdBelowInterval(1000);
    assert ScaleInterval(1000, THRESHOLD) == 33;
  }

  /**
   The wait is always below two intervals, so a timer that is reset when it fires misses nothing; one that
   is reset with a delay misses nothing if and only if the delay is below the slack left to two intervals.
   */
  lemma PromptMissesNothing(interval: int, diff: int, delay: nat)
    requires interval > 0 && diff >= 0
    ensures var wait := WaitToNextInterval(interval, diff);
            IntervalsMissed(interval, wait) == 0
            && (IntervalsMissed(interval, wait + delay) == 0 <==> wait + delay < 2 * interval)
  {
    var wait := WaitToNextInterval(interval, diff);
    WaitBelowTwo(interval, diff);
    NoneMissedIff(interval, wait);
    NoneMissedIff(interval, wait + delay);
  }

  lemma WaitBelowTwo(interval: int, diff: int)
    requires interval > 0 && diff >= 0
    ensures 0 < WaitToNextInterval(interval, diff) < 2 * interval
  {
    ThresholdBelowInterval(interval);
    RemIsSmall(diff, interval);
  }

  lemma NoneMissedIff(interval: int, since: int)
    requires interval > 0 && since > 0
    ensures IntervalsMissed(interval, since) == 0 <==> since < 2 * interval
  {
    if since >= interval {
      MissedIsExact(interval, since);
      var m := IntervalsMissed(interval, since);
      if m >= 1 {
        MarksAreApart(interval, 1, m + 1);
      }
    }
  }

  // ---- the timer ------------------------------------------------------------------------------

  class IntervalTimer {
    const interval: int
    const startTime: int
    var lastResetTime: int
    /** When the embedded timer fires. */
    var firesAt: int
    var running: bool
    ghost var resets: seq<int>
    ghost var missed: int

    /** The timer always fires on a mark, and has counted all intervals missed by its resets. */
    ghost predicate Valid()
      reads this
    {
      interval > 0
      && Aligned(interval, firesAt - startTime)
      && NonDecreasing(startTime, resets) && lastResetTime == End(startTime, resets)
      && missed == TotalMissed(interval, startTime, resets)
    }

    constructor (interval: int, now: int)
      requires interval > 0
      ensures Valid() && this.interval == interval && startTime == now && firesAt == now + interval
      ensures resets == [] && missed == 0 && running
    {
      this.interval := interval;
      startTime := now;
      lastResetTime := now;
      firesAt, running := now + interval, true;
      resets, missed := [], 0;
      assert OnMark(interval, 1, now + interval - now);
    }

    method Reset(now: int) returns (intervalsMissed: int)
      requires Valid() && now >= lastResetTime
      modifies this
      ensures Valid() && resets == old(resets) + [now] && missed == old(missed) + intervalsMissed
      ensures intervalsMissed == IntervalsMissed(interval, now - old(lastResetTime))
      ensures firesAt == now + WaitToNextInterval(interval, now - startTime) && running
    {
      intervalsMissed := IntervalsMissed(interval, now - lastResetTime);
      TotalMissedPush(interval, startTime, resets, now);
      lastResetTime := now;
      var waitTime := WaitToNextInterval(interval, now - startTime);
      firesAt, running := now + waitTime, true;
      resets, missed := resets + [now], missed + intervalsMissed;
      WaitLands(interval, now - startTime);
      var k: int :| OnMark(interval, k, now - startTime + waitTime);
      assert OnMark(interval, k, firesAt - startTime);
    }

    /** The embedded timer no longer fires. */
    method Stop()
      modifies this`running
      ensures !running
    {
      running := false;
    }
  }

  lemma {:induction false} TotalMissedPush(interval: int, from: int, times: seq<int>, now: int)
    requires interval > 0 && NonDecreasing(from, times) && now >= End(from, times)
    ensures NonDecreasing(from, times + [now]) && End(from, times + [now]) == now
    ensures TotalMissed(interval, from, times + [now])
            == TotalMissed(interval, from, times) + IntervalsMissed(interval, now - End(from, times))
    decreases |times|
  {
    if times == [] {
      assert times + [now] == [now];
    } else {
      TotalMissedPush(interval, times[0], times[1..], now);
      assert (times + [now])[1..] == times[1..] + [now];
    }
  }
}
