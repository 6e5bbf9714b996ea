/**
 From scraped batches to one combined batch per flush
 (collector/plugins/sources/manager.go, collector/plugins/manager/manager.go).
 */
module Flush {
  import opened Bags
  import opened Metrics
  import opened Wrappers

  // ---- the queue of scraped batches -----------------------------------------------------------

  /** A batch comes in on the response channel, nil or not, or a flush takes what is there. */
  datatype Event<T> = Arrival(batch: Option<T>) | Rotation

  datatype Queue<T> = Queue(pending: seq<T>, drained: seq<seq<T>>)

  function Replay<T>(events: seq<Event<T>>): Queue<T> {
    if events == [] then Queue([], [])
    else
      var q := Replay(events[..|events| - 1]);
      match events[|events| - 1]
      case Arrival(None) => q
      case Arrival(Some(b)) => q.(pending := q.pending + [b])
      case Rotation => Queue([], q.drained + [q.pending])
  }

  function Arrived<T>(events: seq<Event<T>>): seq<T> {
    if events == [] then []
    else
      var before := Arrived(events[..|events| - 1]);
      match events[|events| - 1]
      case Arrival(Some(b)) => before + [b]
      case _ => before
  }

  function Concat<T>(parts: seq<seq<T>>): seq<T> {
    if parts == [] then [] else Concat(parts[..|parts| - 1]) + parts[|parts| - 1]
  }

  lemma ConcatPush<T>(parts: seq<seq<T>>, part: seq<T>)
    ensures Concat(parts + [part]) == Concat(parts) + part
  {
    assert (parts + [part])[..|parts|] == parts;
  }

  lemma Assoc<T>(a: seq<T>, b: seq<T>, c: seq<T>)
    ensures a + b + c == a + (b + c)
  {
  }

  /** However arrivals and rotations interleave, the batches that arrived are those drained, then those pending. */
  lemma {:induction false} DrainedOnce<T>(events: seq<Event<T>>)
    ensures Arrived(events) == Concat(Replay(events).drained) + Replay(events).pending
  {
    if events != [] {
      hide Concat;
      var q := Replay(events[..|events| - 1]);
      DrainedOnce(events[..|events| - 1]);
      match events[|events| - 1]
      case Arrival(None) =>
      case Arrival(Some(b)) => Assoc(Concat(q.drained), q.pending, [b]);
      case Rotation =>
        ConcatPush(q.drained, q.pending);
        assert Concat(q.drained) + q.pending + [] == Concat(q.drained) + q.pending;
    }
  }

  /** The part of the source manager that its mutex responseMtx guards. */
  class ResponseQueue {
    var response: seq<Batch>
    ghost var events: seq<Event<Batch>>

    ghost predicate Valid()
      reads this
    {
      response == Replay(events).pending
    }

    constructor ()
      ensures Valid() && events == []
    {
      response, events := [], [];
    }

    /** One turn of run. */
    method Receive(batch: Option<Batch>)
      requires Valid()
      modifies this
      ensures Valid() && events == old(events) + [Arrival(batch)]
    {
      if batch.Some? {
        response := response + [batch.value];
      }
      events := events + [Arrival(batch)];
      assert events[..|events| - 1] == old(events);
    }

    method RotateResponse() returns (r: seq<Batch>)
      requires Valid()
      modifies this
      ensures Valid() && events == old(events) + [Rotation] && r == old(response)
      ensures Replay(events).drained == Replay(old(events)).drained + [r]
    {
      r := response;
      response := [];
      events := events + [Rotation];
      assert events[..|events| - 1] == old(events);
    }

    method GetPendingMetrics() returns (r: seq<Batch>)
      requires Valid()
      modifies this
      ensures Valid() && events == old(events) + [Rotation]
      ensures multiset(r) == multiset(old(response)) && InOrder(Views(r))
    {
      r := RotateResponse();
      r := SortByTime(r);
    }
  }

  // ---- batches as values ----------------------------------------------------------------------

  datatype View = View(timestamp: int, sets: map<ResourceKey, MetricSet>, points: seq<Point>)

  function ViewOf(b: Batch): View
    reads b
  {
    View(b.timestamp, b.sets, b.points)
  }

  function Views(l: seq<Batch>): (r: seq<View>)
    reads l
    ensures |r| == |l| && forall i :: 0 <= i < |l| ==> r[i] == ViewOf(l[i])
  {
    seq(|l|, i requires 0 <= i < |l| reads l => ViewOf(l[i]))
  }

  ghost predicate InOrder(l: seq<View>) {
    forall i, j :: 0 <= i < j < |l| ==> l[i].timestamp <= l[j].timestamp
  }

  /** sort.Slice by timestamp; the order of equal timestamps is not relied on anywhere. */
  method SortByTime(l: seq<Batch>) returns (r: seq<Batch>)
    ensures multiset(r) == multiset(l) && InOrder(Views(r))
  {
    r := [];
    assert InOrder(Views(r));
    hide InOrder;
    for i := 0 to |l|
      invariant multiset(r) == multiset(l[..i]) && InOrder(Views(r))
    {
      r := InsertByTime(l[i], r);
      assert l[..i + 1] == l[..i] + [l[i]];
    }
    assert l[..|l|] == l;
  }

  method InsertByTime(b: Batch, l: seq<Batch>) returns (r: seq<Batch>)
    requires InOrder(Views(l))
    ensures multiset(r) == multiset(l) + multiset{b} && InOrder(Views(r))
  {
    hide InOrder;
    var j := |l|;
    while j > 0 && b.timestamp < l[j - 1].timestamp
      invariant 0 <= j <= |l| && forall k :: j <= k < |l| ==> b.timestamp < Views(l)[k].timestamp
    {
      j := j - 1;
    }
    r := l[..j] + [b] + l[j..];
    InsertKeepsOrder(Views(l), j, ViewOf(b));
    ViewsInsert(l, j, b);
    SplitCounts(l, j, b);
  }

  lemma SplitCounts<T>(l: seq<T>, j: nat, b: T)
    requires j <= |l|
    ensures multiset(l[..j] + [b] + l[j..]) == multiset(l) + multiset{b}
  {
    assert l == l[..j] + l[j..];
  }

  lemma ViewsInsert(l: seq<Batch>, j: nat, b: Batch)
    requires j <= |l|
    ensures Views(l[..j] + [b] + l[j..]) == Views(l)[..j] + [ViewOf(b)] + Views(l)[j..]
  {
  }

  lemma InsertKeepsOrder(l: seq<View>, j: nat, v: View)
    requires InOrder(l) && j <= |l|
    requires forall k :: j <= k < |l| ==> v.timestamp < l[k].timestamp
    requires j > 0 ==> l[j - 1].timestamp <= v.timestamp
    ensures InOrder(l[..j] + [v] + l[j..])
  {
  }

  // ---- combining ------------------------------------------------------------------------------

  function Combine(dst: View, src: View): View {
    View(src.timestamp, dst.sets + src.sets, dst.points + src.points)
  }

  function CombineAll(l: seq<View>): View {
    if l == [] then View(0, map[], []) else Combine(CombineAll(l[..|l| - 1]), l[|l| - 1])
  }

  /** m is a overwritten by b at the keys done so far. */
  ghost predicate Overwritten<K, V>(m: map<K, V>, a: map<K, V>, b: map<K, V>, done: set<K>) {
    done <= b.Keys && m.Keys == a.Keys + done
    && forall k :: k in m ==> m[k] == if k in done then b[k] else a[k]
  }

  lemma OverwrittenStep<K, V>(m: map<K, V>, a: map<K, V>, b: map<K, V>, done: set<K>, k: K)
    requires Overwritten(m, a, b, done) && k in b
    ensures Overwritten(m[k := b[k]], a, b, done + {k})
  {
  }

  lemma OverwrittenAll<K, V>(m: map<K, V>, a: map<K, V>, b: map<K, V>)
    requires Overwritten(m, a, b, b.Keys)
    ensures m == a + b
  {
  }

  lemma OverwrittenNone<K, V>(a: map<K, V>, b: map<K, V>)
    ensures Overwritten(a, a, b, {})
  {
  }

  method CombineMetricSets(src: Batch, dst: Batch)
    requires src != dst
    modifies dst
    ensures ViewOf(dst) == Combine(old(ViewOf(dst)), ViewOf(src))
  {
    hide Overwritten;
    dst.timestamp := src.timestamp;
    var todo := src.sets.Keys;
    ghost var done: set<ResourceKey> := {};
    ghost var before := dst.sets;
    OverwrittenNone(before, src.sets);
    while todo != {}
      invariant dst.timestamp == src.timestamp && dst.points == old(dst.points)
      invariant done + todo == src.sets.Keys
      invariant Overwritten(dst.sets, before, src.sets, done)
      decreases |todo|
    {
      var k :| k in todo;
      OverwrittenStep(dst.sets, before, src.sets, done, k);
      todo := todo - {k};
      done := done + {k};
      dst.sets := dst.sets[k := src.sets[k]];
    }
    OverwrittenAll(dst.sets, before, src.sets);
    dst.points := dst.points + src.points;
  }

  lemma NothingCombined(l: seq<View>)
    requires l == []
    ensures CombineAll(l) == View(0, map[], [])
  {
  }

  method CombineBatches(dataBatches: seq<Batch>) returns (combined: Batch)
    ensures fresh(combined) && ViewOf(combined) == CombineAll(Views(dataBatches))
  {
    hide Combine;
    combined := new Batch();
    ghost var views := Views(dataBatches);
    for i := 0 to |dataBatches|
      invariant fresh(combined) && Views(dataBatches) == views
      invariant ViewOf(combined) == CombineAll(views[..i])
    {
      assert views[i] == ViewOf(dataBatches[i]) && views[..i + 1][..i] == views[..i];
      CombineMetricSets(dataBatches[i], combined);
    }
    assert views[..|views|] == views;
  }

  // ---- latest wins ----------------------------------------------------------------------------

  /** Batch i is the last one to hold key k. */
  ghost predicate LastHolder(l: seq<View>, k: ResourceKey, i: nat) {
    i < |l| && k in l[i].sets && forall j :: i < j < |l| ==> k !in l[j].sets
  }

  lemma {:induction false} LastHolderWins(l: seq<View>, k: ResourceKey)
    ensures k in CombineAll(l).sets <==> exists i: nat :: LastHolder(l, k, i)
    ensures forall i: nat :: LastHolder(l, k, i) ==> k in CombineAll(l).sets && CombineAll(l).sets[k] == l[i].sets[k]
  {
    if l != [] {
      var n := |l| - 1;
      LastHolderWins(l[..n], k);
      SplitSets(l, k);
      hide CombineAll;
      if k in l[n].sets {
        assert LastHolder(l, k, n);
      } else {
        assert forall i: nat :: LastHolder(l, k, i) <==> LastHolder(l[..n], k, i);
      }
    }
  }

  lemma SplitSets(l: seq<View>, k: ResourceKey)
    requires l != []
    ensures var a, b := CombineAll(l[..|l| - 1]).sets, l[|l| - 1].sets;
            (k in CombineAll(l).sets <==> k in a || k in b)
            && (k in b ==> CombineAll(l).sets[k] == b[k])
            && (k in a && k !in b ==> CombineAll(l).sets[k] == a[k])
  {
  }

  lemma {:induction false} HolderBeforeLast(l: seq<View>, k: ResourceKey, j: nat) returns (i: nat)
    requires j < |l| && k in l[j].sets
    ensures LastHolder(l, k, i) && j <= i
    decreases |l| - j
  {
    if m: nat :| j < m < |l| && k in l[m].sets {
      i := HolderBeforeLast(l, k, m);
    } else {
      i := j;
    }
  }

  function PointLists(l: seq<View>): seq<seq<Point>> {
    seq(|l|, i requires 0 <= i < |l| => l[i].points)
  }

  lemma {:induction false} PointsConcat(l: seq<View>)
    ensures CombineAll(l).points == Concat(PointLists(l))
  {
    if l != [] {
      var n := |l| - 1;
      PointsConcat(l[..n]);
      assert PointLists(l)[..n] == PointLists(l[..n]);
    }
  }

  /**
   The combined timestamp is the greatest, and each key that occurs has a set from a batch with the
   greatest timestamp among those that hold the key.
   */
  ghost predicate Latest(pending: seq<View>, combined: View) {
    (forall v :: v in pending ==> v.timestamp <= combined.timestamp)
    && (exists v :: v in pending && v.timestamp == combined.timestamp)
    && (forall k :: k in combined.sets <==> exists v :: v in pending && k in v.sets)
    && forall k :: k in combined.sets ==> FromLatest(pending, k, combined.sets[k])
  }

  /** Whatever order the sort gives equal timestamps, the latest wins, and the points come in timestamp order. */
  lemma FlushTakesLatest(pending: seq<View>, l: seq<View>)
    requires (forall v :: v in l <==> v in pending) && InOrder(l) && pending != []
    ensures Latest(pending, CombineAll(l)) && CombineAll(l).points == Concat(PointLists(l))
  {
    PointsConcat(l);
    assert pending[0] in l;
    forall v | v in pending
      ensures v.timestamp <= l[|l| - 1].timestamp
    {
      var j :| 0 <= j < |l| && l[j] == v;
    }
    assert l[|l| - 1] in pending;
    forall k
      ensures k in CombineAll(l).sets <==> exists v :: v in pending && k in v.sets
      ensures k in CombineAll(l).sets ==> FromLatest(pending, k, CombineAll(l).sets[k])
    {
      KeyTakesLatest(pending, l, k);
    }
  }

  /** Some batch with the greatest timestamp among those holding k holds this set for it. */
  ghost predicate FromLatest(pending: seq<View>, k: ResourceKey, s: MetricSet) {
    exists v :: v in pending && k in v.sets && v.sets[k] == s
                && forall w :: w in pending && k in w.sets ==> w.timestamp <= v.timestamp
  }

  lemma KeyTakesLatest(pending: seq<View>, l: seq<View>, k: ResourceKey)
    requires (forall v :: v in l <==> v in pending) && InOrder(l)
    ensures k in CombineAll(l).sets <==> exists v :: v in pending && k in v.sets
    ensures k in CombineAll(l).sets ==> FromLatest(pending, k, CombineAll(l).sets[k])
  {
    hide CombineAll;
    LastHolderWins(l, k);
    if v :| v in pending && k in v.sets {
      var j :| 0 <= j < |l| && l[j] == v;
      var i := HolderBeforeLast(l, k, j);
      forall w | w in pending && k in w.sets
        ensures w.timestamp <= l[i].timestamp
      {
        var m :| 0 <= m < |l| && l[m] == w;
      }
      assert l[i] in pending;
    }
  }

  /** No point is lost or doubled. */
  lemma {:induction false} PointsConserved(l: seq<View>)
    ensures forall p :: multiset(CombineAll(l).points)[p] == CountIn(l, p)
  {
    if l != [] {
      PointsConserved(l[..|l| - 1]);
    }
  }

  function CountIn(l: seq<View>, p: Point): nat {
    if l == [] then 0 else CountIn(l[..|l| - 1], p) + multiset(l[|l| - 1].points)[p]
  }

  lemma SameViews(l: seq<Batch>, r: seq<Batch>)
    requires multiset(l) == multiset(r)
    ensures forall v :: v in Views(l) <==> v in Views(r)
  {
    SameMembers(l, r);
    forall v | v in Views(l)
      ensures v in Views(r)
    {
      var i :| 0 <= i < |l| && Views(l)[i] == v;
      assert l[i] in r;
      var j :| 0 <= j < |r| && r[j] == l[i];
      assert Views(r)[j] == v;
    }
    forall v | v in Views(r)
      ensures v in Views(l)
    {
      var i :| 0 <= i < |r| && Views(r)[i] == v;
      assert r[i] in l;
      var j :| 0 <= j < |l| && l[j] == r[i];
      assert Views(l)[j] == v;
    }
  }

  /** The first half of push: what the processors are given. With nothing pending it is an empty batch. */
  method CombinePending(queue: ResponseQueue) returns (combined: Batch, ghost order: seq<Batch>)
    requires queue.Valid()
    modifies queue
    ensures queue.Valid() && queue.events == old(queue.events) + [Rotation]
    ensures fresh(combined) && multiset(order) == multiset(old(queue.response)) && InOrder(Views(order))
    ensures if old(queue.response) == [] then ViewOf(combined) == View(0, map[], [])
            else Latest(Views(old(queue.response)), ViewOf(combined))
                 && combined.points == Concat(PointLists(Views(order)))
  {
    hide Latest, InOrder, Concat, CombineAll;
    ghost var pending := queue.response;
    var dataBatches := queue.GetPendingMetrics();
    order := dataBatches;
    combined := CombineBatches(dataBatches);
    if pending == [] {
      assert order == [] by {
        assert |multiset(order)| == 0;
      }
      NothingCombined(Views(order));
    } else {
      SameViews(order, pending);
      FlushTakesLatest(Views(pending), Views(order));
    }
  }
}
