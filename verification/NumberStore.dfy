/**
 The ring of per-minute observations behind the Pixie sizer (operator/pixie-sizer/stats.go).

 The store remembers the observations of the last retentionMinutes stretches of equal minute. The
 history is kept as a ghost; the ring is proved to hold exactly the end of that history.
 */
module NumberStore {

  datatype Observation = Observation(at: int, value: real)

  /** at.Unix()/60 with Go's division, which truncates toward zero; at is in seconds. */
  function Minute(o: Observation): int {
    if o.at >= 0 then o.at / 60 else -((-o.at) / 60)
  }

  // ---- histories ------------------------------------------------------------------------------

  /** The history cut into its maximal stretches of equal minute. */
  function Runs(h: seq<Observation>): (r: seq<seq<Observation>>)
    ensures forall i :: 0 <= i < |r| ==> r[i] != []
    ensures r == [] <==> h == []
    ensures h != [] ==> r[|r| - 1][|r[|r| - 1]| - 1] == h[|h| - 1]
  {
    if h == [] then []
    else
      var n, o := |h| - 1, h[|h| - 1];
      var r := Runs(h[..n]);
      if n > 0 && Minute(h[n - 1]) == Minute(o) then r[..|r| - 1] + [r[|r| - 1] + [o]]
      else r + [[o]]
  }

  function Concat(r: seq<seq<Observation>>): seq<Observation> {
    if r == [] then [] else Concat(r[..|r| - 1]) + r[|r| - 1]
  }

  lemma {:induction false} ConcatCat(r: seq<seq<Observation>>, s: seq<seq<Observation>>)
    ensures Concat(r + s) == Concat(r) + Concat(s)
    decreases |s|
  {
    if s == [] {
      assert r + s == r;
    } else {
      assert (r + s)[..|r + s| - 1] == r + s[..|s| - 1];
      ConcatCat(r, s[..|s| - 1]);
    }
  }

  lemma {:induction false} RunsConcat(h: seq<Observation>)
    ensures Concat(Runs(h)) == h
  {
    if h != [] {
      var n, o := |h| - 1, h[|h| - 1];
      var r := Runs(h[..n]);
      RunsConcat(h[..n]);
      assert h == h[..n] + [o];
      if n > 0 && Minute(h[n - 1]) == Minute(o) {
        assert Runs(h)[..|r| - 1] == r[..|r| - 1];
      } else {
        assert Runs(h)[..|r|] == r;
      }
    }
  }

  ghost predicate SameMinute(run: seq<Observation>) {
    forall o, p :: o in run && p in run ==> Minute(o) == Minute(p)
  }

  lemma {:induction false} RunsAreEven(h: seq<Observation>)
    ensures forall i :: 0 <= i < |Runs(h)| ==> SameMinute(Runs(h)[i])
  {
    if h != [] {
      var n, o := |h| - 1, h[|h| - 1];
      var r := Runs(h[..n]);
      RunsAreEven(h[..n]);
      if n > 0 && Minute(h[n - 1]) == Minute(o) {
        var last := r[|r| - 1];
        assert h[n - 1] in last;
        assert SameMinute(last + [o]);
      }
    }
  }

  /** Neighbouring runs have different minutes, so no run could be longer. */
  lemma {:induction false} RunsAreMaximal(h: seq<Observation>)
    ensures forall i :: 0 <= i < |Runs(h)| - 1 ==> Minute(Runs(h)[i][0]) != Minute(Runs(h)[i + 1][0])
  {
    if |h| > 1 {
      var n, o := |h| - 1, h[|h| - 1];
      var r := Runs(h[..n]);
      RunsAreMaximal(h[..n]);
      RunsAreEven(h[..n]);
      var last := r[|r| - 1];
      assert SameMinute(last) && h[n - 1] in last && last[0] in last;
      assert Minute(last[0]) == Minute(h[n - 1]);
      var all := Runs(h);
      assert all == if Minute(h[n - 1]) == Minute(o) then r[..|r| - 1] + [last + [o]] else r + [[o]];
      hide Minute, Runs, SameMinute;
      forall i | 0 <= i < |all| - 1
        ensures Minute(all[i][0]) != Minute(all[i + 1][0])
      {
        assert i < |r| - 1 ==> all[i][0] == r[i][0];
        assert i + 1 < |r| ==> all[i + 1][0] == r[i + 1][0];
      }
    }
  }

  /** What a store with the given retention holds: the last runs of the history, as one sequence. */
  function Retained(h: seq<Observation>, retention: nat): seq<Observation> {
    Concat(LastRuns(Runs(h), retention))
  }

  function LastRuns<T>(r: seq<T>, n: nat): seq<T> {
    r[if |r| > n then |r| - n else 0..]
  }

  /** The number of places where the minute changes. */
  function Changes(h: seq<Observation>): nat {
    if |h| < 2 then 0
    else Changes(h[..|h| - 1]) + if Minute(h[|h| - 2]) == Minute(h[|h| - 1]) then 0 else 1
  }

  lemma RunsNext(h: seq<Observation>, o: Observation)
    ensures var r, s := Runs(h), Runs(h + [o]);
            if h != [] && Minute(h[|h| - 1]) == Minute(o)
            then r != [] && s == r[..|r| - 1] + [r[|r| - 1] + [o]]
            else s == r + [[o]]
  {
    assert (h + [o])[..|h|] == h;
  }

  lemma ConcatLast(r: seq<seq<Observation>>, x: seq<Observation>)
    ensures Concat(r + [x]) == Concat(r) + x
  {
    assert (r + [x])[..|r|] == r;
  }

  lemma RetainedNext(h: seq<Observation>, o: Observation, n: nat)
    requires n > 0
    ensures if h != [] && Minute(h[|h| - 1]) == Minute(o) then Retained(h + [o], n) == Retained(h, n) + [o]
            else Retained(h + [o], n) == Retained(h, n - 1) + [o]
  {
    var r, s := Runs(h), Runs(h + [o]);
    RunsNext(h, o);
    hide Runs, Concat, Minute;
    if h != [] && Minute(h[|h| - 1]) == Minute(o) {
      var a, x := LastRuns(r, n)[..|LastRuns(r, n)| - 1], r[|r| - 1];
      assert LastRuns(r, n) == a + [x];
      assert LastRuns(s, n) == a + [x + [o]];
      ConcatLast(a, x);
      ConcatLast(a, x + [o]);
      assert Concat(a) + (x + [o]) == Concat(a) + x + [o];
    } else {
      assert LastRuns(s, n) == LastRuns(r, n - 1) + [[o]];
      ConcatLast(LastRuns(r, n - 1), [o]);
    }
  }

  function FromEnd<T>(r: seq<T>, j: nat, e: T): T {
    if j < |r| then r[|r| - 1 - j] else e
  }

  lemma PaddedConcat(ring: seq<seq<Observation>>, r: seq<seq<Observation>>)
    requires FillsUp(ring, r, [])
    ensures Concat(ring) == Concat(LastRuns(r, |ring|))
  {
    hide Concat, FillsUp;
    Padded(ring, r, []);
    if |r| < |ring| {
      ConcatNothing(|ring| - |r|);
      ConcatCat(Repeat([], |ring| - |r|), r);
      assert [] + Concat(r) == Concat(r);
    }
  }

  function Repeat<T>(e: T, n: nat): seq<T> {
    seq(n, _ => e)
  }

  /** ring is the end of r, filled up in front with e. */
  ghost predicate FillsUp<T>(ring: seq<T>, r: seq<T>, e: T) {
    forall i :: 0 <= i < |ring| ==> ring[i] == FromEnd(r, |ring| - 1 - i, e)
  }

  lemma Padded<T>(ring: seq<T>, r: seq<T>, e: T)
    requires FillsUp(ring, r, e)
    ensures if |r| < |ring| then ring == Repeat(e, |ring| - |r|) + r && LastRuns(r, |ring|) == r
            else ring == LastRuns(r, |ring|)
  {
  }

  /** end is the longest end of h in which the minute changes fewer than n times; it starts at k. */
  ghost predicate LongestEnd(h: seq<Observation>, n: nat, end: seq<Observation>, k: nat) {
    && k <= |h| && end == h[k..]
    && (if n == 0 then k == |h| else (h != [] ==> k < |h|) && Changes(h[k..]) < n)
    && (k > 0 && n > 0 ==> Changes(h[k - 1..]) >= n)
  }

  lemma LongestEndNext(h: seq<Observation>, n: nat, end: seq<Observation>, k: nat, o: Observation)
    requires LongestEnd(h, n, end, k)
    ensures h != [] && Minute(h[|h| - 1]) == Minute(o) && n > 0 ==> LongestEnd(h + [o], n, end + [o], k)
    ensures h == [] || Minute(h[|h| - 1]) != Minute(o) ==> LongestEnd(h + [o], n + 1, end + [o], k)
  {
    hide Changes, Minute;
    ChangesNext(h, o, k);
    if k > 0 {
      ChangesNext(h, o, k - 1);
    }
    if n == 0 {
      ChangesOne(h[k..]);
    }
  }

  lemma ChangesOne(h: seq<Observation>)
    requires |h| <= 1
    ensures Changes(h) == 0
  {
  }

  /**
   Independently of runs: a store retains the longest end of the history in which the minute changes
   fewer than retention times.
   */
  lemma {:induction false} RetainedIsLongest(h: seq<Observation>, n: nat)
    ensures exists k :: LongestEnd(h, n, Retained(h, n), k)
  {
    hide Minute;
    NothingRetained(h, n);
    if n == 0 || h == [] {
      assert LongestEnd(h, n, [], |h|);
    } else {
      hide Retained, LongestEnd;
      var g, o := h[..|h| - 1], h[|h| - 1];
      assert h == g + [o];
      RetainedNext(g, o, n);
      var m := if g != [] && Minute(g[|g| - 1]) == Minute(o) then n else n - 1;
      RetainedIsLongest(g, m);
      var k :| LongestEnd(g, m, Retained(g, m), k);
      LongestEndNext(g, m, Retained(g, m), k, o);
    }
  }

  lemma NothingRetained(h: seq<Observation>, n: nat)
    ensures Retained(h, 0) == [] && Retained([], n) == [] && Changes([]) == 0
  {
  }

  lemma ChangesNext(h: seq<Observation>, o: Observation, k: nat)
    requires k <= |h|
    ensures (h + [o])[k..] == h[k..] + [o]
    ensures Changes((h + [o])[k..])
            == Changes(h[k..]) + if k == |h| || Minute(h[|h| - 1]) == Minute(o) then 0 else 1
  {
    assert (h + [o])[k..] == h[k..] + [o];
    assert (h[k..] + [o])[..|h| - k] == h[k..];
  }

  function SumOf(h: seq<Observation>): real {
    if h == [] then 0.0 else SumOf(h[..|h| - 1]) + h[|h| - 1].value
  }

  lemma SumNext(h: seq<Observation>, j: nat)
    ensures SumOf(h[..0]) == 0.0
    ensures j < |h| ==> SumOf(h[..j + 1]) == SumOf(h[..j]) + h[j].value
  {
    assert j < |h| ==> h[..j + 1][..j] == h[..j];
  }

  lemma SumOfNothing(r: seq<seq<Observation>>)
    ensures SumOf(Concat(r[..0])) == 0.0
  {
  }

  lemma {:induction false} SumCat(g: seq<Observation>, h: seq<Observation>)
    ensures SumOf(g + h) == SumOf(g) + SumOf(h)
    decreases |h|
  {
    if h == [] {
      assert g + h == g;
    } else {
      assert (g + h)[..|g + h| - 1] == g + h[..|h| - 1];
      SumCat(g, h[..|h| - 1]);
    }
  }

  // ---- the store ------------------------------------------------------------------------------

  class Store {
    const retentionMinutes: nat
    var index: nat
    const observations: array<seq<Observation>>
    ghost var history: seq<Observation>

    /** Slot index holds the latest run, the slots before it, cyclically, the runs before that. */
    ghost predicate Valid()
      reads this, observations
    {
      && retentionMinutes == observations.Length > 0
      && index < observations.Length
      && Ring(observations[..], index, Runs(history), [])
    }

    constructor (retentionMinutes: nat)
      requires retentionMinutes > 0
      ensures Valid() && this.retentionMinutes == retentionMinutes && history == [] && fresh(observations)
    {
      this.retentionMinutes, index := retentionMinutes, 0;
      observations := new seq<Observation>[retentionMinutes](_ => []);
      history := [];
    }

    method LastMinute() returns (m: int)
      requires Valid()
      ensures m == if history == [] then 0 else Minute(history[|history| - 1])
    {
      assert observations[..][Back(index, 0, observations.Length)] == FromEnd(Runs(history), 0, []);
      var current := observations[index];
      if |current| == 0 {
        return 0;
      }
      RunsAreEven(history);
      ghost var r := Runs(history);
      assert SameMinute(r[|r| - 1]) && current[0] in current && current[|current| - 1] in current;
      hide Minute;
      m := Minute(current[0]);
    }

    /** Read from behind the current slot, around to it, the ring is the end of the history. */
    lemma RingHoldsRetained()
      requires Valid()
      ensures Concat(observations[index + 1..] + observations[..index + 1]) == Retained(history, retentionMinutes)
    {
      var n := observations.Length;
      var ring := observations[index + 1..] + observations[..index + 1];
      hide Runs, FillsUp, Ring;
      assert observations[..][index + 1..] == observations[index + 1..];
      assert observations[..][..index + 1] == observations[..index + 1];
      RingFillsUp(observations[..], index, Runs(history), []);
      PaddedConcat(ring, Runs(history));
    }

    /** Sum adds the slots in the order of the array; that is the sum over what is retained. */
    method Sum() returns (sum: real)
      requires Valid()
      ensures sum == SumOf(Retained(history, retentionMinutes))
    {
      hide Concat, SumOf, Retained;
      sum := 0.0;
      SumOfNothing(observations[..]);
      for i := 0 to observations.Length
        invariant sum == SumOf(Concat(observations[..i]))
      {
        var obs := observations[i];
        SumNext(obs, 0);
        for j := 0 to |obs|
          invariant sum == SumOf(Concat(observations[..i])) + SumOf(obs[..j])
        {
          SumNext(obs, j);
          sum := sum + obs[j].value;
        }
        assert obs[..|obs|] == obs;
        assert observations[..i + 1] == observations[..i] + [obs];
        ConcatLast(observations[..i], obs);
        SumCat(Concat(observations[..i]), obs);
      }
      SumRing(observations[..], index + 1);
      assert observations[..][..observations.Length] == observations[..];
      assert observations[..][..index + 1] == observations[..index + 1];
      assert observations[..][index + 1..] == observations[index + 1..];
      RingHoldsRetained();
    }

    /** MaxValue starts from zero, so it is the larger of zero and the largest retained value. */
    method MaxValue() returns (max: real)
      requires Valid()
      ensures max >= 0.0
      ensures forall o :: o in Retained(history, retentionMinutes) ==> o.value <= max
      ensures max == 0.0 || exists o :: o in Retained(history, retentionMinutes) && o.value == max
    {
      max := 0.0;
      ghost var seen := [];
      for i := 0 to observations.Length
        invariant seen == Concat(observations[..i])
        invariant max >= 0.0 && (forall o :: o in seen ==> o.value <= max)
        invariant max == 0.0 || exists o :: o in seen && o.value == max
      {
        var obs := observations[i];
        for j := 0 to |obs|
          invariant max >= 0.0 && (forall o :: o in seen + obs[..j] ==> o.value <= max)
          invariant max == 0.0 || exists o :: o in seen + obs[..j] && o.value == max
        {
          assert obs[j] in seen + obs[..j + 1];
          assert seen + obs[..j + 1] == seen + obs[..j] + [obs[j]];
          if obs[j].value > max {
            max := obs[j].value;
          }
        }
        assert obs[..|obs|] == obs;
        assert observations[..i + 1] == observations[..i] + [obs];
        ConcatLast(observations[..i], obs);
        seen := seen + obs;
      }
      assert observations[..observations.Length] == observations[..index + 1] + observations[index + 1..];
      ConcatCat(observations[..index + 1], observations[index + 1..]);
      ConcatCat(observations[index + 1..], observations[..index + 1]);
      RingHoldsRetained();
    }

    method Record(at: int, value: real)
      requires Valid()
      modifies this, observations
      ensures Valid() && history == old(history) + [Observation(at, value)]
    {
      var o := Observation(at, value);
      var last := LastMinute();
      var minute := Minute(o);
      ghost var before, r := observations[..], Runs(history);
      RunsNext(history, o);
      hide Minute, Runs, Ring, Next;
      if minute != last {
        index := Next(index, observations.Length);
        observations[index] := [];
        observations[index] := observations[index] + [o];
        history := history + [o];
        RingAdvance(before, old(index), r, [o], []);
        assert [] + [o] == [o];
        assert observations[..] == before[index := [o]];
      } else {
        RingLatest(before, index, r, []);
        ghost var run := before[index] + [o];
        observations[index] := observations[index] + [o];
        history := history + [o];
        RingReplace(before, index, r, run, []);
        assert observations[..] == before[index := run];
      }
    }
  }

  /** Slot i holds the last element of r, the slots before it, cyclically, those before that; e fills up. */
  ghost predicate Ring<T>(slots: seq<T>, i: nat, r: seq<T>, e: T) {
    i < |slots| && forall j :: 0 <= j < |slots| ==> slots[Back(i, j, |slots|)] == FromEnd(r, j, e)
  }

  lemma RingLatest<T>(slots: seq<T>, i: nat, r: seq<T>, e: T)
    requires Ring(slots, i, r, e)
    ensures i < |slots| && slots[i] == FromEnd(r, 0, e)
  {
    assert Back(i, 0, |slots|) == i;
  }

  lemma RingAdvance<T>(slots: seq<T>, i: nat, r: seq<T>, x: T, e: T)
    requires Ring(slots, i, r, e)
    ensures i < |slots| && Ring(slots[Next(i, |slots|) := x], Next(i, |slots|), r + [x], e)
  {
    hide Next;
    var n, k := |slots|, Next(i, |slots|);
    forall j | 0 <= j < n
      ensures slots[k := x][Back(k, j, n)] == FromEnd(r + [x], j, e)
    {
      if j > 0 {
        assert Back(k, j, n) == Back(i, j - 1, n) != k;
      }
    }
  }

  lemma RingReplace<T>(slots: seq<T>, i: nat, r: seq<T>, x: T, e: T)
    requires Ring(slots, i, r, e)
    ensures i < |slots| && Ring(slots[i := x], i, if r == [] then [x] else r[..|r| - 1] + [x], e)
  {
    var n := |slots|;
    forall j | 0 <= j < n
      ensures slots[i := x][Back(i, j, n)] == FromEnd(if r == [] then [x] else r[..|r| - 1] + [x], j, e)
    {
      assert j > 0 ==> Back(i, j, n) != i;
    }
  }

  lemma RingFillsUp<T>(slots: seq<T>, i: nat, r: seq<T>, e: T)
    requires Ring(slots, i, r, e)
    ensures i < |slots| && FillsUp(slots[i + 1..] + slots[..i + 1], r, e)
  {
    var n := |slots|;
    var ring := slots[i + 1..] + slots[..i + 1];
    forall k | 0 <= k < n
      ensures ring[k] == FromEnd(r, n - 1 - k, e)
    {
      assert ring[k] == slots[Back(i, n - 1 - k, n)];
    }
  }

  function Next(i: nat, n: nat): (j: nat)
    requires i < n
    ensures j == if i + 1 == n then 0 else i + 1
  {
    (i + 1) % n
  }

  /** The slot j places before slot i in a ring of n. */
  function Back(i: nat, j: nat, n: nat): nat
    requires i < n && j < n
  {
    if j <= i then i - j else i + n - j
  }


  lemma {:induction false} ConcatNothing(n: nat)
    ensures Concat(Repeat([], n)) == []
  {
    if n > 0 {
      ConcatNothing(n - 1);
      assert Repeat<seq<Observation>>([], n)[..n - 1] == Repeat([], n - 1);
    }
  }

  /** The sum over a ring does not depend on where it is cut. */
  lemma SumRing(r: seq<seq<Observation>>, k: nat)
    requires k <= |r|
    ensures SumOf(Concat(r)) == SumOf(Concat(r[k..] + r[..k]))
  {
    assert r == r[..k] + r[k..];
    ConcatCat(r[..k], r[k..]);
    ConcatCat(r[k..], r[..k]);
    SumCat(Concat(r[..k]), Concat(r[k..]));
    SumCat(Concat(r[k..]), Concat(r[..k]));
  }
}
