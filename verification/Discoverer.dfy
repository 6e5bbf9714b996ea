/** The discoverer and its endpoint handler, each call one step of the state machine of Discovery. */
module Discoverer {
  import opened Bags
  import opened Discovery
  import opened DiscoveryCounts
  import opened IntervalTimer
  import opened SourceManager

  twostate lemma FreshUnion(new a: set<object>, new b: set<object>)
    requires fresh(a) && fresh(b)
    ensures fresh(a + b)
  {
  }

  class EndpointHandler {
    const config: Config
    const sm: SourceManager
    var counts: map<string, int>
    ghost var added: multiset<Endpoint>
    ghost var deleted: multiset<Endpoint>

    ghost predicate Valid()
      reads this, sm, sm.quits, sm.timers
    {
      Tallies(config, counts, added, deleted) && sm.Valid()
    }

    constructor (config: Config, sm: SourceManager)
      requires sm.Valid()
      ensures Valid() && this.config == config && this.sm == sm
      ensures added == multiset{} && deleted == multiset{} && forall t :: t in counts ==> counts[t] == 0
    {
      this.config, this.sm := config, sm;
      counts := map t | t in config.factories :: 0;
      added, deleted := multiset{}, multiset{};
      new;
      TalliesStart(config, counts);
    }

    /** The provider is registered if it can be built, and only then counted. */
    method Add(ep: Endpoint, now: int) returns (ghost created: set<object>)
      requires Valid()
      modifies this`counts, this`added, sm, sm.quits, sm.timers
      ensures Valid() && fresh(created) && sm.Repr() == old(sm.Repr()) + created
      ensures sm.metricsSourceProviders.Keys == AddName(config, old(sm.metricsSourceProviders.Keys), ep)
      ensures added == old(added) + multiset{ep}
      ensures counts == CountsCall(config, old(counts), AddCall(ep))
    {
      hide SourceManager.Valid, Tallies, AddName, CountsCall;
      created := {};
      if ep.pluginType in config.factories && ep in config.buildable {
        created := AddProvider(ep, now);
        CountUp(ep);
      } else {
        NotAdded(config, sm.metricsSourceProviders.Keys, ep);
        NoteFailed(ep);
      }
    }

    method CountUp(ep: Endpoint)
      requires config.Builds(ep) && Tallies(config, counts, added, deleted)
      modifies this`counts, this`added
      ensures Tallies(config, counts, added, deleted) && added == old(added) + multiset{ep}
      ensures counts == CountsCall(config, old(counts), AddCall(ep))
    {
      hide *;
      TalliesAdd(config, counts, added, deleted, ep);
      CallIs(config, counts, added, deleted, ep);
      counts := counts[ep.pluginType := counts[ep.pluginType] + 1];
      added := added + multiset{ep};
    }

    ghost method NoteFailed(ep: Endpoint)
      requires !config.Builds(ep) && Tallies(config, counts, added, deleted)
      modifies this`added
      ensures Tallies(config, counts, added, deleted) && added == old(added) + multiset{ep}
      ensures counts == CountsCall(config, counts, AddCall(ep))
    {
      TalliesAdd(config, counts, added, deleted, ep);
      added := added + multiset{ep};
    }

    method CountDown(ep: Endpoint)
      requires config.Knows(ep) && Tallies(config, counts, added, deleted)
      modifies this`counts, this`deleted
      ensures Tallies(config, counts, added, deleted) && deleted == old(deleted) + multiset{ep}
      ensures counts == CountsCall(config, old(counts), DeleteCall(ep))
    {
      hide *;
      TalliesDelete(config, counts, added, deleted, ep);
      CallIs(config, counts, added, deleted, ep);
      counts := counts[ep.pluginType := counts[ep.pluginType] - 1];
      deleted := deleted + multiset{ep};
    }

    ghost method NoteUnknown(ep: Endpoint)
      requires !config.Knows(ep) && Tallies(config, counts, added, deleted)
      modifies this`deleted
      ensures Tallies(config, counts, added, deleted) && deleted == old(deleted) + multiset{ep}
      ensures counts == CountsCall(config, counts, DeleteCall(ep))
    {
      TalliesDelete(config, counts, added, deleted, ep);
      deleted := deleted + multiset{ep};
    }

    /** Registers the provider that has been built for the endpoint. */
    method AddProvider(ep: Endpoint, now: int) returns (ghost created: set<object>)
      requires config.Builds(ep) && sm.Valid()
      modifies sm, sm.quits, sm.timers
      ensures sm.Valid() && fresh(created) && sm.Repr() == old(sm.Repr()) + created
      ensures sm.metricsSourceProviders.Keys == AddName(config, old(sm.metricsSourceProviders.Keys), ep)
    {
      hide SourceManager.Valid;
      var provider := Provider(config.ProviderName(ep), config.interval);
      sm.AddProvider(provider, now);
      created := {sm.metricsSourceQuits[provider.name], sm.metricsSourceTimers[provider.name]};
    }

    /** The provider is deleted by name, and counted whether or not there was one. */
    method Delete(ep: Endpoint)
      requires Valid()
      modifies this`counts, this`deleted, sm, sm.quits, sm.timers
      ensures Valid() && sm.quits == old(sm.quits) && sm.timers == old(sm.timers)
      ensures sm.metricsSourceProviders.Keys == DeleteName(config, old(sm.metricsSourceProviders.Keys), ep)
      ensures deleted == old(deleted) + multiset{ep}
      ensures counts == CountsCall(config, old(counts), DeleteCall(ep))
    {
      hide SourceManager.Valid, Tallies, DeleteName, CountsCall;
      DeletedOrNot(config, sm.metricsSourceProviders.Keys, ep);
      if ep.pluginType in config.factories {
        sm.DeleteProvider(config.ProviderName(ep));
        CountDown(ep);
      } else {
        NoteUnknown(ep);
      }
    }

    method AddAll(eps: seq<Endpoint>, now: int) returns (ghost created: set<object>)
      requires Valid()
      modifies this`counts, this`added, sm, sm.quits, sm.timers
      ensures Valid() && fresh(created) && sm.Repr() == old(sm.Repr()) + created
      ensures sm.metricsSourceProviders.Keys == AddNames(config, old(sm.metricsSourceProviders.Keys), eps)
      ensures added == old(added) + multiset(eps)
    {
      hide Valid, AddName, AddNames, DeleteNames;
      created := {};
      ghost var names := sm.metricsSourceProviders.Keys;
      AddNamesStart(config, names, eps);
      for i := 0 to |eps|
        invariant Valid() && fresh(created) && sm.Repr() == old(sm.Repr()) + created
        invariant sm.metricsSourceProviders.Keys == AddNames(config, names, eps[..i])
        invariant added == old(added) + multiset(eps[..i])
      {
        AddNamesStep(config, names, eps, i);
        ghost var more := {};
        more := Add(eps[i], now);
        assert fresh(more);
        FreshUnion(created, more);
        created := created + more;
      }
      assert eps[..|eps|] == eps;
    }

    method DeleteEach(eps: seq<Endpoint>)
      requires Valid()
      modifies this`counts, this`deleted, sm, sm.quits, sm.timers
      ensures Valid() && sm.quits == old(sm.quits) && sm.timers == old(sm.timers)
      ensures sm.metricsSourceProviders.Keys == DeleteNames(config, old(sm.metricsSourceProviders.Keys), eps)
      ensures deleted == old(deleted) + multiset(eps)
    {
      hide *;
      ghost var names := sm.metricsSourceProviders.Keys;
      AddNamesStart(config, names, eps);
      for i := 0 to |eps|
        invariant Valid() && sm.quits == old(sm.quits) && sm.timers == old(sm.timers)
        invariant sm.metricsSourceProviders.Keys == DeleteNames(config, names, eps[..i])
        invariant deleted == old(deleted) + multiset(eps[..i])
      {
        AddNamesStep(config, names, eps, i);
        Delete(eps[i]);
      }
      assert eps[..|eps|] == eps;
    }
  }

  lemma NotAdded(c: Config, names: set<string>, ep: Endpoint)
    ensures !c.Builds(ep) ==> AddName(c, names, ep) == names
  {
  }

  lemma DeletedOrNot(c: Config, names: set<string>, ep: Endpoint)
    ensures DeleteName(c, names, ep) == if c.Knows(ep) then names - {c.ProviderName(ep)} else names
  {
  }

  lemma AddNamesStart(c: Config, names: set<string>, eps: seq<Endpoint>)
    ensures AddNames(c, names, eps[..0]) == names && DeleteNames(c, names, eps[..0]) == names
    ensures multiset(eps[..0]) == multiset{}
  {
  }

  lemma AddNamesStep(c: Config, names: set<string>, eps: seq<Endpoint>, i: nat)
    requires i < |eps|
    ensures AddNames(c, names, eps[..i + 1]) == AddName(c, AddNames(c, names, eps[..i]), eps[i])
    ensures DeleteNames(c, names, eps[..i + 1]) == DeleteName(c, DeleteNames(c, names, eps[..i]), eps[i])
    ensures multiset(eps[..i + 1]) == multiset(eps[..i]) + multiset{eps[i]}
  {
    assert eps[..i + 1][..i] == eps[..i];
    assert eps[..i + 1] == eps[..i] + [eps[i]];
  }

  class Discoverer {
    const endpointHandler: EndpointHandler
    var endpoints: Tracked

    ghost predicate Valid()
      reads this, endpointHandler, endpointHandler.sm, endpointHandler.sm.quits, endpointHandler.sm.timers
    {
      endpointHandler.Valid() && Conserved(StateOf())
    }

    /** At any time a counter is the number of tracked endpoints of its type that build, less the failed ones deleted. */
    lemma CountsAre(t: string)
      requires Valid() && t in endpointHandler.counts
      ensures var built := CountOf(All(endpoints), BuiltOf(Config(), t));
              endpointHandler.counts[t] == built - CountOf(endpointHandler.deleted, FailedOf(Config(), t))
              && (endpointHandler.counts[t] == built
                  <==> forall ep :: ep in endpointHandler.deleted && ep.pluginType == t ==> Config().Builds(ep))
    {
      CountOfTracked(Config(), endpointHandler.counts, StateOf(), t);
    }

    ghost function StateOf(): State
      reads this, endpointHandler, endpointHandler.sm
    {
      State(endpoints, endpointHandler.sm.metricsSourceProviders.Keys, endpointHandler.added, endpointHandler.deleted)
    }

    ghost function Config(): Discovery.Config {
      endpointHandler.config
    }

    constructor (endpointHandler: EndpointHandler)
      requires endpointHandler.Valid() && endpointHandler.added == endpointHandler.deleted == multiset{}
      ensures Valid() && this.endpointHandler == endpointHandler
      ensures StateOf() == Start(endpointHandler.sm.metricsSourceProviders.Keys)
    {
      this.endpointHandler := endpointHandler;
      endpoints := map[];
      new;
      StartConserves(endpointHandler.sm.metricsSourceProviders.Keys);
    }

    /** A resource is seen with its endpoints, perhaps not for the first time. */
    method InternalDiscover(resourceName: string, eps: seq<Endpoint>, now: int)
      returns (ghost created: set<object>)
      requires Valid()
      modifies this`endpoints, endpointHandler, endpointHandler.sm, endpointHandler.sm.quits, endpointHandler.sm.timers
      ensures Valid() && fresh(created) && endpointHandler.sm.Repr() == old(endpointHandler.sm.Repr()) + created
      ensures Next(Config(), old(StateOf()), Discover(resourceName, eps), StateOf())
    {
      hide EndpointHandler.Valid, AddNames, DeleteNames, Conserved;
      created := {};
      var oldEps := Held(endpoints, resourceName);
      endpoints := endpoints - {resourceName};
      if |eps| > 0 {
        endpoints := endpoints[resourceName := eps];
      }
      PutIs(old(endpoints), resourceName, eps);
      if eps != oldEps {
        endpointHandler.DeleteEach(oldEps);
        created := endpointHandler.AddAll(eps, now);
      }
      StepConserves(Config(), old(StateOf()), Discover(resourceName, eps), StateOf());
    }

    method InternalDelete(resourceName: string)
      requires Valid()
      modifies this`endpoints, endpointHandler, endpointHandler.sm, endpointHandler.sm.quits, endpointHandler.sm.timers
      ensures Valid() && endpointHandler.sm.Repr() == old(endpointHandler.sm.Repr())
      ensures Next(Config(), old(StateOf()), Step.Delete(resourceName), StateOf())
    {
      hide EndpointHandler.Valid, DeleteNames, Conserved;
      var eps := Held(endpoints, resourceName);
      endpoints := endpoints - {resourceName};
      endpointHandler.DeleteEach(eps);
      StepConserves(Config(), old(StateOf()), Step.Delete(resourceName), StateOf());
    }

    /** An endpoint of the node itself is added to those the node has. */
    method DiscoverNodeEndpoint(resourceName: string, ep: Endpoint, now: int) returns (ghost created: set<object>)
      requires Valid()
      modifies this`endpoints, endpointHandler, endpointHandler.sm, endpointHandler.sm.quits, endpointHandler.sm.timers
      ensures Valid() && fresh(created) && endpointHandler.sm.Repr() == old(endpointHandler.sm.Repr()) + created
      ensures Next(Config(), old(StateOf()), DiscoverNode(resourceName, ep), StateOf())
    {
      hide EndpointHandler.Valid, AddName, Conserved;
      var eps := [];
      if resourceName in endpoints {
        eps := endpoints[resourceName];
      }
      eps := eps + [ep];
      endpoints := endpoints[resourceName := eps];
      created := endpointHandler.Add(ep, now);
      StepConserves(Config(), old(StateOf()), DiscoverNode(resourceName, ep), StateOf());
    }

    /** The resources go in any order. */
    method DeleteAll()
      requires Valid()
      modifies this`endpoints, endpointHandler, endpointHandler.sm, endpointHandler.sm.quits, endpointHandler.sm.timers
      ensures Valid() && endpointHandler.sm.Repr() == old(endpointHandler.sm.Repr())
      ensures Next(Config(), old(StateOf()), Step.DeleteAll, StateOf())
    {
      hide Valid, EndpointHandler.Valid, SourceManager.Valid, Next, Clearing;
      ghost var s := StateOf();
      var todo := endpoints.Keys;
      ClearStart(Config(), s);
      while todo != {}
        invariant Valid() && endpointHandler.sm.Repr() == old(endpointHandler.sm.Repr())
        invariant endpoints.Keys == todo && Clearing(Config(), s, StateOf())
        decreases |todo|
      {
        var k :| k in todo;
        ghost var t := StateOf();
        InternalDelete(k);
        ClearStep(Config(), s, t, k, StateOf());
        todo := todo - {k};
      }
      ClearDone(Config(), s, StateOf());
    }
  }

  lemma StartConserves(others: set<string>)
    ensures Conserved(Start(others))
  {
  }

  lemma PutIs(t: Tracked, r: string, eps: seq<Endpoint>)
    ensures Put(t, r, eps) == if eps == [] then t - {r} else (t - {r})[r := eps]
  {
  }

  /** Endpoint lists that are gone have been deleted, name by name. */
  ghost predicate Clearing(c: Discovery.Config, s: State, t: State) {
    t.endpoints.Keys <= s.endpoints.Keys && (forall r :: r in t.endpoints ==> t.endpoints[r] == s.endpoints[r])
    && t.added == s.added && t.deleted + All(t.endpoints) == s.deleted + All(s.endpoints)
    && forall n :: n in t.names <==> n in s.names && !GoneNamed(c, s.endpoints, t.endpoints, n)
  }

  ghost predicate GoneNamed(c: Discovery.Config, t: Tracked, left: Tracked, n: string) {
    exists r :: r in t && r !in left && Named(c, t[r], n)
  }

  lemma ClearStart(c: Discovery.Config, s: State)
    ensures Clearing(c, s, s)
  {
  }

  lemma GoneStep(c: Discovery.Config, s: Tracked, t: Tracked, k: string, n: string)
    requires k in t && t.Keys <= s.Keys && forall r :: r in t ==> t[r] == s[r]
    ensures GoneNamed(c, s, t - {k}, n) <==> GoneNamed(c, s, t, n) || Named(c, t[k], n)
  {
    hide Named;
  }

  lemma ClearStep(c: Discovery.Config, s: State, t: State, k: string, u: State)
    requires Clearing(c, s, t) && k in t.endpoints && Next(c, t, Step.Delete(k), u)
    ensures Clearing(c, s, u) && u.endpoints.Keys == t.endpoints.Keys - {k}
  {
    AllAt(t.endpoints, k);
    hide All, Named, GoneNamed, DeleteNames;
    forall n
      ensures n in u.names <==> n in s.names && !GoneNamed(c, s.endpoints, u.endpoints, n)
    {
      DeleteNamesIs(c, t.names, t.endpoints[k], n);
      GoneStep(c, s.endpoints, t.endpoints, k, n);
    }
  }

  lemma ClearDone(c: Discovery.Config, s: State, t: State)
    requires Clearing(c, s, t) && t.endpoints.Keys == {}
    ensures Next(c, s, Step.DeleteAll, t)
  {
    hide Named;
    assert t.endpoints == map[];
    assert All(t.endpoints) == multiset{};
    forall n
      ensures GoneNamed(c, s.endpoints, t.endpoints, n) <==> AnyNamed(c, s.endpoints, n)
    {
    }
  }
}
