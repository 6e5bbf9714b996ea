/**
 The endpoint handler's counters of registered targets (collector/internal/discovery/endpoint.go), and
 when they agree with what is registered.
 */
module DiscoveryCounts {
  import opened Bags
  import opened Discovery

  datatype Call = AddCall(ep: Endpoint) | DeleteCall(ep: Endpoint)

  type Counts = map<string, int>

  function Bump(counts: Counts, t: string, step: int): Counts {
    if t in counts then counts[t := counts[t] + step] else counts
  }

  /** An addition is counted if the provider can be built, a deletion if the type is known. */
  function CountsCall(c: Config, counts: Counts, call: Call): Counts {
    match call
    case AddCall(ep) => if c.Builds(ep) then Bump(counts, ep.pluginType, 1) else counts
    case DeleteCall(ep) => if c.Knows(ep) then Bump(counts, ep.pluginType, -1) else counts
  }

  function NamesCall(c: Config, names: set<string>, call: Call): set<string> {
    match call
    case AddCall(ep) => AddName(c, names, ep)
    case DeleteCall(ep) => DeleteName(c, names, ep)
  }

  function CountsAfter(c: Config, counts: Counts, calls: seq<Call>): Counts {
    if calls == [] then counts else CountsCall(c, CountsAfter(c, counts, calls[..|calls| - 1]), calls[|calls| - 1])
  }

  function NamesAfter(c: Config, names: set<string>, calls: seq<Call>): set<string> {
    if calls == [] then names else NamesCall(c, NamesAfter(c, names, calls[..|calls| - 1]), calls[|calls| - 1])
  }

  /** No name is a provider's name for two types. */
  ghost predicate Separate(c: Config) {
    forall t, u, n :: HasType(c, t, n) && HasType(c, u, n) ==> t == u
  }

  ghost predicate HasType(c: Config, t: string, n: string) {
    t in c.factories && c.factories[t] + ": " <= n
  }

  /** The names registered for a type. */
  ghost function OfType(c: Config, names: set<string>, t: string): set<string> {
    set n | n in names && HasType(c, t, n)
  }

  /** A provider of type t is built under a name that is registered already. */
  predicate AddsAgain(c: Config, names: set<string>, call: Call, t: string) {
    call.AddCall? && call.ep.pluginType == t && c.Builds(call.ep) && c.ProviderName(call.ep) in names
  }

  /** A provider of type t is deleted that is not registered. */
  predicate DeletesNone(c: Config, names: set<string>, call: Call, t: string) {
    call.DeleteCall? && call.ep.pluginType == t && c.Knows(call.ep) && c.ProviderName(call.ep) !in names
  }

  function AddedAgain(c: Config, names: set<string>, calls: seq<Call>, t: string): nat {
    if calls == [] then 0
    else
      var k := |calls| - 1;
      AddedAgain(c, names, calls[..k], t) + if AddsAgain(c, NamesAfter(c, names, calls[..k]), calls[k], t) then 1 else 0
  }

  function DeletedNone(c: Config, names: set<string>, calls: seq<Call>, t: string): nat {
    if calls == [] then 0
    else
      var k := |calls| - 1;
      DeletedNone(c, names, calls[..k], t) + if DeletesNone(c, NamesAfter(c, names, calls[..k]), calls[k], t) then 1 else 0
  }

  /** The names of the two factories, each followed by a colon, start no common name. */
  lemma FactoriesAreSeparate(buildable: set<Endpoint>, interval: int)
    ensures Separate(Config(map["prometheus" := "prometheus_metrics_provider", "telegraf" := "telegraf_provider"],
                            buildable, interval))
  {
    var c := Config(map["prometheus" := "prometheus_metrics_provider", "telegraf" := "telegraf_provider"],
                    buildable, interval);
    forall t, n | HasType(c, t, n)
      ensures (t == "prometheus" || t == "telegraf") && |n| > 0 && n[0] == t[0]
    {
      assert n[0] == (c.factories[t] + ": ")[0] == c.factories[t][0];
    }
    hide HasType;
    assert "prometheus"[0] == 'p' && "telegraf"[0] == 't';
  }

  lemma OwnType(c: Config, ep: Endpoint)
    requires c.Knows(ep)
    ensures HasType(c, ep.pluginType, c.ProviderName(ep))
  {
  }

  lemma OfTypeWith(c: Config, names: set<string>, n: string, t: string)
    ensures |OfType(c, names + {n}, t)| == |OfType(c, names, t)| + if HasType(c, t, n) && n !in names then 1 else 0
  {
    if HasType(c, t, n) && n !in names {
      assert OfType(c, names + {n}, t) == OfType(c, names, t) + {n};
    } else {
      assert OfType(c, names + {n}, t) == OfType(c, names, t);
    }
  }

  lemma OfTypeWithout(c: Config, names: set<string>, n: string, t: string)
    ensures |OfType(c, names - {n}, t)| == |OfType(c, names, t)| - if HasType(c, t, n) && n in names then 1 else 0
  {
    if HasType(c, t, n) && n in names {
      assert OfType(c, names - {n}, t) == OfType(c, names, t) - {n};
    } else {
      assert OfType(c, names - {n}, t) == OfType(c, names, t);
    }
  }

  /** How far one call moves the count of a type away from the names registered for it. */
  lemma DriftOfCall(c: Config, counts: Counts, names: set<string>, call: Call, t: string)
    requires Separate(c) && t in counts && t in c.factories
    ensures t in CountsCall(c, counts, call)
    ensures CountsCall(c, counts, call)[t] - |OfType(c, NamesCall(c, names, call), t)|
            == counts[t] - |OfType(c, names, t)|
               + (if AddsAgain(c, names, call, t) then 1 else 0) - (if DeletesNone(c, names, call, t) then 1 else 0)
  {
    var ep := call.ep;
    if c.Knows(ep) {
      var n := c.ProviderName(ep);
      OwnType(c, ep);
      assert HasType(c, t, n) <==> ep.pluginType == t;
      hide HasType, Separate, OfType;
      OfTypeWith(c, names, n, t);
      OfTypeWithout(c, names, n, t);
    }
  }

  /** Over any calls, the count runs ahead by the repeated additions and behind by the deletions of nothing. */
  lemma {:induction false} DriftOfCalls(c: Config, counts: Counts, names: set<string>, calls: seq<Call>, t: string)
    requires Separate(c) && t in counts && t in c.factories
    ensures t in CountsAfter(c, counts, calls)
    ensures CountsAfter(c, counts, calls)[t] - |OfType(c, NamesAfter(c, names, calls), t)|
            == counts[t] - |OfType(c, names, t)| + AddedAgain(c, names, calls, t) - DeletedNone(c, names, calls, t)
  {
    hide OfType, Separate, CountsCall, NamesCall, AddsAgain, DeletesNone;
    if calls != [] {
      var k := |calls| - 1;
      DriftOfCalls(c, counts, names, calls[..k], t);
      DriftOfCall(c, CountsAfter(c, counts, calls[..k]), NamesAfter(c, names, calls[..k]), calls[k], t);
    }
  }

  /** The count of a type is the number of its names that are registered. */
  ghost predicate CountAgrees(c: Config, counts: Counts, names: set<string>, t: string) {
    t in counts && counts[t] == |OfType(c, names, t)|
  }

  /** From agreement, calls lead to agreement if and only if as many additions repeat as deletions find nothing. */
  lemma CountAgreesIff(c: Config, counts: Counts, names: set<string>, calls: seq<Call>, t: string)
    requires Separate(c) && t in c.factories && CountAgrees(c, counts, names, t)
    ensures CountAgrees(c, CountsAfter(c, counts, calls), NamesAfter(c, names, calls), t)
            <==> AddedAgain(c, names, calls, t) == DeletedNone(c, names, calls, t)
  {
    DriftOfCalls(c, counts, names, calls, t);
  }

  /** The count agrees all along if and only if no addition repeats a name and no deletion misses one. */
  lemma {:induction false} CountAlwaysAgreesIff(c: Config, counts: Counts, names: set<string>, calls: seq<Call>, t: string)
    requires Separate(c) && t in c.factories && CountAgrees(c, counts, names, t)
    ensures (forall k :: 0 <= k <= |calls| ==>
               CountAgrees(c, CountsAfter(c, counts, calls[..k]), NamesAfter(c, names, calls[..k]), t))
            <==> AddedAgain(c, names, calls, t) == DeletedNone(c, names, calls, t) == 0
  {
    hide OfType, Separate, CountsCall, NamesCall, AddsAgain, DeletesNone;
    forall k | 0 <= k <= |calls|
      ensures CountAgrees(c, CountsAfter(c, counts, calls[..k]), NamesAfter(c, names, calls[..k]), t)
              <==> AddedAgain(c, names, calls[..k], t) == DeletedNone(c, names, calls[..k], t)
    {
      CountAgreesIff(c, counts, names, calls[..k], t);
    }
    AlwaysEqualIff(c, names, calls, t);
  }

  /** The two totals agree at every point if and only if both stay zero: no call raises both. */
  lemma {:induction false} AlwaysEqualIff(c: Config, names: set<string>, calls: seq<Call>, t: string)
    ensures (forall k :: 0 <= k <= |calls| ==> AddedAgain(c, names, calls[..k], t) == DeletedNone(c, names, calls[..k], t))
            <==> AddedAgain(c, names, calls, t) == DeletedNone(c, names, calls, t) == 0
  {
    hide NamesAfter;
    assert calls[..|calls|] == calls;
    if calls != [] {
      var n := |calls| - 1;
      AlwaysEqualIff(c, names, calls[..n], t);
      assert forall k :: 0 <= k <= n ==> calls[..n][..k] == calls[..k];
    }
  }

  // ---- counts over runs of the discoverer -----------------------------------------------------

  function BuiltOf(c: Config, t: string): Endpoint -> bool {
    (ep: Endpoint) => ep.pluginType == t && c.Builds(ep)
  }

  function FailedOf(c: Config, t: string): Endpoint -> bool {
    (ep: Endpoint) => ep.pluginType == t && !c.Builds(ep)
  }

  function TypeIs(t: string): Endpoint -> bool {
    (ep: Endpoint) => ep.pluginType == t
  }

  /** A counter has gone up for every endpoint of its type that was added and built, and down for every one deleted. */
  ghost predicate Tallies(c: Config, counts: Counts, added: multiset<Endpoint>, deleted: multiset<Endpoint>) {
    counts.Keys == c.factories.Keys
    && forall t :: t in counts ==> counts[t] == CountOf(added, BuiltOf(c, t)) - CountOf(deleted, TypeIs(t))
  }

  lemma TalliesStart(c: Config, counts: Counts)
    requires counts.Keys == c.factories.Keys && forall t :: t in counts ==> counts[t] == 0
    ensures Tallies(c, counts, multiset{}, multiset{})
  {
  }

  lemma TalliesAdd(c: Config, counts: Counts, added: multiset<Endpoint>, deleted: multiset<Endpoint>, ep: Endpoint)
    requires Tallies(c, counts, added, deleted)
    ensures Tallies(c, CountsCall(c, counts, AddCall(ep)), added + multiset{ep}, deleted)
  {
    var after := CountsCall(c, counts, AddCall(ep));
    forall t | t in after
      ensures after[t] == CountOf(added + multiset{ep}, BuiltOf(c, t)) - CountOf(deleted, TypeIs(t))
    {
      CountAdd(added, BuiltOf(c, t), ep);
    }
  }

  lemma TalliesDelete(c: Config, counts: Counts, added: multiset<Endpoint>, deleted: multiset<Endpoint>, ep: Endpoint)
    requires Tallies(c, counts, added, deleted)
    ensures Tallies(c, CountsCall(c, counts, DeleteCall(ep)), added, deleted + multiset{ep})
  {
    var after := CountsCall(c, counts, DeleteCall(ep));
    forall t | t in after
      ensures after[t] == CountOf(added, BuiltOf(c, t)) - CountOf(deleted + multiset{ep}, TypeIs(t))
    {
      CountAdd(deleted, TypeIs(t), ep);
    }
  }

  /** What a call does to the counters of the known types. */
  lemma CallIs(c: Config, counts: Counts, added: multiset<Endpoint>, deleted: multiset<Endpoint>, ep: Endpoint)
    requires Tallies(c, counts, added, deleted)
    ensures c.Knows(ep) <==> ep.pluginType in counts
    ensures c.Builds(ep) ==> ep.pluginType in counts
    ensures c.Builds(ep) ==> CountsCall(c, counts, AddCall(ep)) == counts[ep.pluginType := counts[ep.pluginType] + 1]
    ensures c.Knows(ep) ==> CountsCall(c, counts, DeleteCall(ep)) == counts[ep.pluginType := counts[ep.pluginType] - 1]
  {
    hide CountOf;
  }

  /**
   In every run of the discoverer, a counter is the number of tracked endpoints of its type that build, less
   the deletions of endpoints that do not; so it is that number if and only if no such endpoint was deleted.
   */
  lemma CountOfTracked(c: Config, counts: Counts, s: State, t: string)
    requires Tallies(c, counts, s.added, s.deleted) && Conserved(s) && t in counts
    ensures counts[t] == CountOf(All(s.endpoints), BuiltOf(c, t)) - CountOf(s.deleted, FailedOf(c, t))
    ensures counts[t] == CountOf(All(s.endpoints), BuiltOf(c, t))
            <==> forall ep :: ep in s.deleted && ep.pluginType == t ==> c.Builds(ep)
  {
    hide All, CountOf;
    CountSum(s.deleted, All(s.endpoints), BuiltOf(c, t));
    CountSplit(s.deleted, TypeIs(t), BuiltOf(c, t), FailedOf(c, t));
    CountNone(s.deleted, FailedOf(c, t));
  }

  /** One endpoint that does not build, tracked and given up: the counter is below zero. */
  lemma FailedEndpointDrift(c: Config, counts: Counts, s: State, ep: Endpoint)
    requires Tallies(c, counts, s.added, s.deleted) && ep.pluginType in counts && !c.Builds(ep)
    requires s == State(map[], {}, multiset{ep}, multiset{ep})
    ensures counts[ep.pluginType] == -1
  {
    var t := ep.pluginType;
    CountAdd(multiset{}, BuiltOf(c, t), ep);
    CountAdd(multiset{}, TypeIs(t), ep);
    assert multiset{} + multiset{ep} == multiset{ep};
  }
}
