/**
 The registry of source providers (collector/plugins/sources/manager.go): a provider, a timer and a
 quit channel per name. Closing a channel twice would panic, so that closing asks for an open one.
 */
module SourceManager {
  import opened IntervalTimer
  import opened Metrics
  import opened SourceCleanup

  datatype Provider = Provider(name: string, collectionInterval: int)

  /** A channel that is only ever closed; the scraping goroutine of its provider ends when it is. */
  class QuitChannel {
    var closed: bool

    constructor ()
      ensures !closed
    {
      closed := false;
    }

    method Close()
      requires !closed
      modifies this
      ensures closed
    {
      closed := true;
    }
  }

  const MINUTE := 60000000000

  ghost function OpenOf(quits: set<QuitChannel>): set<QuitChannel>
    reads quits
  {
    set q | q in quits && !q.closed
  }

  ghost function RunningOf(timers: set<IntervalTimer>): set<IntervalTimer>
    reads timers
  {
    set t | t in timers && t.running
  }

  lemma OpenOne(quits: set<QuitChannel>, quit: QuitChannel)
    requires !quit.closed
    ensures OpenOf(quits + {quit}) == OpenOf(quits) + {quit}
  {
  }

  lemma RunningOne(timers: set<IntervalTimer>, timer: IntervalTimer)
    requires timer.running
    ensures RunningOf(timers + {timer}) == RunningOf(timers) + {timer}
  {
  }

  lemma PartOfAll(quits: set<QuitChannel>, timers: set<IntervalTimer>)
    ensures OpenOf(quits) <= quits && RunningOf(timers) <= timers
  {
  }

  /** No two names share a value, and what the names have is all that is live. */
  ghost predicate Tracks<K, V>(m: map<K, V>, live: set<V>) {
    m.Values == live && forall j, k :: j in m && k in m && m[j] == m[k] ==> j == k
  }

  lemma TracksWithout<K, V>(m: map<K, V>, live: set<V>, k: K)
    requires Tracks(m, live) && k in m
    ensures Tracks(m - {k}, live - {m[k]})
  {
    forall v
      ensures v in (m - {k}).Values <==> v in live - {m[k]}
    {
      if v in m.Values && v != m[k] {
        var j :| j in m && m[j] == v;
        assert j in m - {k} && (m - {k})[j] == v;
      }
    }
  }

  lemma TracksWith<K, V>(m: map<K, V>, live: set<V>, k: K, v: V)
    requires Tracks(m, live) && k !in m && v !in live
    ensures Tracks(m[k := v], live + {v})
  {
    forall w
      ensures w in m[k := v].Values <==> w in live + {v}
    {
      if w in m.Values {
        var j :| j in m && m[j] == w;
        assert j in m[k := v] && m[k := v][j] == w;
      }
      assert k in m[k := v] && m[k := v][k] == v;
    }
    assert forall j :: j in m ==> m[j] in m.Values;
  }

  lemma PutAgain<K, V>(m: map<K, V>, k: K, v: V)
    ensures (m - {k})[k := v] == m[k := v]
  {
  }

  ghost predicate SameKeys<K, U, V, W>(l: map<K, U>, m: map<K, V>, n: map<K, W>) {
    l.Keys == m.Keys == n.Keys
  }

  lemma SameKeysPut<K, U, V, W>(l: map<K, U>, m: map<K, V>, n: map<K, W>, k: K, u: U, v: V, w: W)
    requires SameKeys(l, m, n)
    ensures SameKeys(l[k := u], m[k := v], n[k := w])
  {
  }

  lemma SameKeysWithout<K, U, V, W>(l: map<K, U>, m: map<K, V>, n: map<K, W>, k: K)
    requires SameKeys(l, m, n)
    ensures SameKeys(l - {k}, m - {k}, n - {k}) && (k in l <==> k in m) && (k in l <==> k in n)
    ensures k !in l ==> l - {k} == l && m - {k} == m && n - {k} == n
  {
  }

  /** One more event: the provider of the name was deleted, whatever it answered with. */
  ghost predicate DeletedOne(before: seq<Event>, events: seq<Event>, name: string) {
    exists sources :: events == before + [Deleted(name, sources)]
  }

  /** More events: the providers of the names were deleted, each once. */
  ghost predicate DeletedEach(before: seq<Event>, events: seq<Event>, names: set<string>) {
    before <= events && |events| == |before| + |names|
    && (forall i :: |before| <= i < |events| ==> events[i].Deleted? && events[i].provider in names)
    && forall i, j :: |before| <= i < j < |events| ==> events[i].provider != events[j].provider
  }

  lemma DeletedNone(before: seq<Event>, all: set<string>)
    ensures DeletedEach(before, before, all - all)
  {
    assert all - all == {};
  }

  lemma DeletedOneMore(before: seq<Event>, events: seq<Event>, after: seq<Event>, all: set<string>, todo: set<string>, name: string)
    requires DeletedEach(before, events, all - todo) && DeletedOne(events, after, name) && name in todo && todo <= all
    ensures DeletedEach(before, after, all - (todo - {name}))
  {
    assert all - (todo - {name}) == (all - todo) + {name};
  }

  class SourceManager {
    var defaultCollectionInterval: int
    var metricsSourceProviders: map<string, Provider>
    var metricsSourceTimers: map<string, IntervalTimer>
    var metricsSourceQuits: map<string, QuitChannel>
    /** The names that sources have in the registry of internal metrics. */
    var internalMetrics: set<string>
    /** The channels and timers ever made, and what providers have answered with so far. */
    ghost var quits: set<QuitChannel>
    ghost var timers: set<IntervalTimer>
    ghost var events: seq<Event>

    ghost function Repr(): set<object>
      reads this
    {
      quits + timers
    }

    /**
     The three maps have the same names; the open channels and running timers are those of the names; and
     the internal metrics are those that the answers of the providers so far leave.
     */
    ghost predicate Valid()
      reads this, quits, timers
    {
      defaultCollectionInterval > 0
      && SameKeys(metricsSourceProviders, metricsSourceTimers, metricsSourceQuits)
      && Tracks(metricsSourceQuits, OpenOf(quits)) && Tracks(metricsSourceTimers, RunningOf(timers))
      && internalMetrics == After(events)
    }

    constructor ()
      ensures Valid() && metricsSourceProviders == map[] && Repr() == {} && internalMetrics == {} && events == []
      ensures defaultCollectionInterval == MINUTE
    {
      defaultCollectionInterval := MINUTE;
      metricsSourceProviders, metricsSourceTimers, metricsSourceQuits := map[], map[], map[];
      internalMetrics, quits, timers, events := {}, {}, {}, [];
    }

    method SetDefaultCollectionInterval(interval: int)
      requires Valid() && interval > 0
      modifies this`defaultCollectionInterval
      ensures Valid() && defaultCollectionInterval == interval
    {
      defaultCollectionInterval := interval;
    }

    /** The provider is asked for its sources; what it answers is not up to the manager. */
    method GetMetricsSources(provider: Provider) returns (sources: seq<Source>)
      modifies this`internalMetrics
      ensures internalMetrics == old(internalMetrics) + Registered(sources)
    {
      sources := *;
      for i := 0 to |sources|
        invariant internalMetrics == old(internalMetrics) + Registered(sources[..i])
      {
        TakeNext(sources, i);
        hide Registered;
        internalMetrics := internalMetrics + sources[i].registers;
      }
      assert sources[..|sources|] == sources;
    }

    /** The timer of a registered provider fires: it is asked for the sources to be scraped. */
    method Scrape(name: string)
      requires Valid() && name in metricsSourceProviders
      modifies this`internalMetrics, this`events
      ensures Valid() && exists sources :: events == old(events) + [Asked(name, sources)]
    {
      hide Tracks, OpenOf, RunningOf, Registered, After;
      var sources := GetMetricsSources(metricsSourceProviders[name]);
      AfterPush(events, Asked(name, sources));
      events := events + [Asked(name, sources)];
    }

    /** A provider takes over its name: an old one of that name is deleted, with its channel closed. */
    method AddProvider(provider: Provider, now: int)
      requires Valid()
      modifies this, quits, timers
      ensures provider.name in metricsSourceQuits && provider.name in metricsSourceTimers
      ensures Valid() && quits == old(quits) + {metricsSourceQuits[provider.name]}
      ensures timers == old(timers) + {metricsSourceTimers[provider.name]}
      ensures metricsSourceProviders == old(metricsSourceProviders)[provider.name := provider]
      ensures fresh(metricsSourceQuits[provider.name]) && fresh(metricsSourceTimers[provider.name])
      ensures metricsSourceQuits == old(metricsSourceQuits)[provider.name := metricsSourceQuits[provider.name]]
      ensures metricsSourceTimers == old(metricsSourceTimers)[provider.name := metricsSourceTimers[provider.name]]
      ensures provider.name in old(metricsSourceQuits) ==> old(metricsSourceQuits)[provider.name].closed
      ensures provider.name in old(metricsSourceTimers) ==> !old(metricsSourceTimers)[provider.name].running
      ensures metricsSourceTimers[provider.name].interval
              == if provider.collectionInterval > 0 then provider.collectionInterval else defaultCollectionInterval
      ensures metricsSourceTimers[provider.name].firesAt == now + metricsSourceTimers[provider.name].interval
      ensures if provider.name in old(metricsSourceProviders) then DeletedOne(old(events), events, provider.name)
              else events == old(events)
      ensures defaultCollectionInterval == old(defaultCollectionInterval)
    {
      hide *;
      SameNames();
      if provider.name in metricsSourceProviders {
        DeleteProvider(provider.name);
      }
      SameNames();
      StartProvider(provider, now);
      PutAgain(old(metricsSourceProviders), provider.name, provider);
      PutAgain(old(metricsSourceTimers), provider.name, metricsSourceTimers[provider.name]);
      PutAgain(old(metricsSourceQuits), provider.name, metricsSourceQuits[provider.name]);
    }

    lemma Parts()
      requires Valid()
      ensures defaultCollectionInterval > 0
      ensures SameKeys(metricsSourceProviders, metricsSourceTimers, metricsSourceQuits)
      ensures Tracks(metricsSourceQuits, OpenOf(quits)) && Tracks(metricsSourceTimers, RunningOf(timers))
      ensures internalMetrics == After(events)
    {
    }

    lemma IsValid()
      requires defaultCollectionInterval > 0
      requires SameKeys(metricsSourceProviders, metricsSourceTimers, metricsSourceQuits)
      requires Tracks(metricsSourceQuits, OpenOf(quits)) && Tracks(metricsSourceTimers, RunningOf(timers))
      requires internalMetrics == After(events)
      ensures Valid()
    {
    }

    lemma SameNames()
      requires Valid()
      ensures SameKeys(metricsSourceProviders, metricsSourceTimers, metricsSourceQuits)
    {
    }

    /** Registers a provider under a name that is free, with a timer and an open channel. */
    method StartProvider(provider: Provider, now: int)
      requires Valid() && provider.name !in metricsSourceProviders
      modifies this
      ensures Valid() && metricsSourceProviders == old(metricsSourceProviders)[provider.name := provider]
      ensures provider.name in metricsSourceQuits && provider.name in metricsSourceTimers
      ensures fresh(metricsSourceQuits[provider.name]) && fresh(metricsSourceTimers[provider.name])
      ensures quits == old(quits) + {metricsSourceQuits[provider.name]}
      ensures timers == old(timers) + {metricsSourceTimers[provider.name]}
      ensures metricsSourceQuits == old(metricsSourceQuits)[provider.name := metricsSourceQuits[provider.name]]
      ensures metricsSourceTimers == old(metricsSourceTimers)[provider.name := metricsSourceTimers[provider.name]]
      ensures metricsSourceTimers[provider.name].interval
              == if provider.collectionInterval > 0 then provider.collectionInterval else defaultCollectionInterval
      ensures metricsSourceTimers[provider.name].firesAt == now + metricsSourceTimers[provider.name].interval
      ensures events == old(events)
      ensures defaultCollectionInterval == old(defaultCollectionInterval)
    {
      hide Tracks, OpenOf, RunningOf, IntervalTimer.Valid, NonDecreasing, After;
      var interval;
      if provider.collectionInterval > 0 {
        interval := provider.collectionInterval;
      } else {
        interval := defaultCollectionInterval;
      }
      var intervalTimer := new IntervalTimer(interval, now);
      var quit := new QuitChannel();
      Register(provider, intervalTimer, quit);
    }

    method Register(provider: Provider, intervalTimer: IntervalTimer, quit: QuitChannel)
      requires Valid() && provider.name !in metricsSourceProviders
      requires intervalTimer.running && intervalTimer !in timers && !quit.closed && quit !in quits
      modifies this`metricsSourceProviders, this`metricsSourceTimers, this`metricsSourceQuits, this`quits,
        this`timers
      ensures Valid() && metricsSourceProviders == old(metricsSourceProviders)[provider.name := provider]
      ensures quits == old(quits) + {quit} && timers == old(timers) + {intervalTimer}
      ensures metricsSourceQuits == old(metricsSourceQuits)[provider.name := quit]
      ensures metricsSourceTimers == old(metricsSourceTimers)[provider.name := intervalTimer]
    {
      hide *;
      CanRegister(provider, intervalTimer, quit);
      metricsSourceProviders, metricsSourceTimers, metricsSourceQuits, quits, timers :=
        metricsSourceProviders[provider.name := provider], metricsSourceTimers[provider.name := intervalTimer],
        metricsSourceQuits[provider.name := quit], quits + {quit}, timers + {intervalTimer};
      assert OpenOf(quits) == old(OpenOf(quits + {quit}));
      assert RunningOf(timers) == old(RunningOf(timers + {intervalTimer}));
      IsValid();
    }

    lemma CanRegister(provider: Provider, intervalTimer: IntervalTimer, quit: QuitChannel)
      requires Valid() && provider.name !in metricsSourceProviders
      requires intervalTimer.running && intervalTimer !in timers && !quit.closed && quit !in quits
      ensures defaultCollectionInterval > 0
      ensures var p, n := metricsSourceProviders, provider.name;
              && SameKeys(p[n := provider], metricsSourceTimers[n := intervalTimer], metricsSourceQuits[n := quit])
              && Tracks(metricsSourceQuits[n := quit], OpenOf(quits + {quit}))
              && Tracks(metricsSourceTimers[n := intervalTimer], RunningOf(timers + {intervalTimer}))
              && internalMetrics == After(events)
    {
      assert provider.name !in metricsSourceTimers && provider.name !in metricsSourceQuits;
      hide Tracks, After, OpenOf, RunningOf, SameKeys;
      PartOfAll(quits, timers);
      OpenOne(quits, quit);
      RunningOne(timers, intervalTimer);
      TracksWith(metricsSourceQuits, OpenOf(quits), provider.name, quit);
      TracksWith(metricsSourceTimers, RunningOf(timers), provider.name, intervalTimer);
      SameKeysPut(metricsSourceProviders, metricsSourceTimers, metricsSourceQuits, provider.name, provider,
                  intervalTimer, quit);
    }

    /** The provider, its timer and its channel go; the sources it then answers with are cleaned up in order. */
    method DeleteProvider(name: string)
      requires Valid()
      modifies this, quits, timers
      ensures Valid() && quits == old(quits) && timers == old(timers)
      ensures metricsSourceProviders == old(metricsSourceProviders) - {name}
      ensures metricsSourceQuits == old(metricsSourceQuits) - {name}
      ensures metricsSourceTimers == old(metricsSourceTimers) - {name}
      ensures name in old(metricsSourceQuits) ==> old(metricsSourceQuits)[name].closed
      ensures name in old(metricsSourceTimers) ==> !old(metricsSourceTimers)[name].running
      ensures if name in old(metricsSourceProviders) then DeletedOne(old(events), events, name) else events == old(events)
      ensures defaultCollectionInterval == old(defaultCollectionInterval)
    {
      hide *;
      Parts();
      SameKeysWithout(metricsSourceProviders, metricsSourceTimers, metricsSourceQuits, name);
      if name !in metricsSourceProviders {
        return;
      }
      var provider := metricsSourceProviders[name];
      metricsSourceProviders := metricsSourceProviders - {name};
      StopScraping(name);
      CleanUp(provider, name);
      IsValid();
    }

    method StopScraping(name: string)
      requires Tracks(metricsSourceTimers, RunningOf(timers)) && name in metricsSourceTimers
      requires Tracks(metricsSourceQuits, OpenOf(quits)) && name in metricsSourceQuits
      modifies this`metricsSourceTimers, this`metricsSourceQuits, timers, quits
      ensures metricsSourceTimers == old(metricsSourceTimers) - {name} && !old(metricsSourceTimers)[name].running
      ensures metricsSourceQuits == old(metricsSourceQuits) - {name} && old(metricsSourceQuits)[name].closed
      ensures Tracks(metricsSourceTimers, RunningOf(timers)) && Tracks(metricsSourceQuits, OpenOf(quits))
    {
      hide *;
      StopTimer(name);
      CloseQuit(name);
    }

    method StopTimer(name: string)
      requires Tracks(metricsSourceTimers, RunningOf(timers)) && name in metricsSourceTimers
      modifies this`metricsSourceTimers, timers
      ensures metricsSourceTimers == old(metricsSourceTimers) - {name} && !old(metricsSourceTimers)[name].running
      ensures Tracks(metricsSourceTimers, RunningOf(timers)) && OpenOf(quits) == old(OpenOf(quits))
    {
      var ticker := metricsSourceTimers[name];
      assert ticker in metricsSourceTimers.Values;
      TracksWithout(metricsSourceTimers, RunningOf(timers), name);
      ticker.Stop();
      assert RunningOf(timers) == old(RunningOf(timers)) - {ticker};
      metricsSourceTimers := metricsSourceTimers - {name};
    }

    method CloseQuit(name: string)
      requires Tracks(metricsSourceQuits, OpenOf(quits)) && name in metricsSourceQuits
      modifies this`metricsSourceQuits, quits
      ensures metricsSourceQuits == old(metricsSourceQuits) - {name} && old(metricsSourceQuits)[name].closed
      ensures Tracks(metricsSourceQuits, OpenOf(quits)) && RunningOf(timers) == old(RunningOf(timers))
    {
      var quit := metricsSourceQuits[name];
      assert quit in metricsSourceQuits.Values;
      TracksWithout(metricsSourceQuits, OpenOf(quits), name);
      quit.Close();
      assert OpenOf(quits) == old(OpenOf(quits)) - {quit};
      metricsSourceQuits := metricsSourceQuits - {name};
    }

    /** The sources that a deleted provider answers with are cleaned up. */
    method CleanUp(provider: Provider, ghost name: string)
      requires internalMetrics == After(events)
      modifies this`internalMetrics, this`events
      ensures internalMetrics == After(events) && DeletedOne(old(events), events, name)
    {
      hide After, Registered;
      var sources := GetMetricsSources(provider);
      ghost var before := internalMetrics;
      for i := 0 to |sources|
        invariant internalMetrics == before - Unregistered(sources[..i]) && events == old(events)
      {
        TakeNext(sources, i);
        hide Unregistered;
        internalMetrics := internalMetrics - sources[i].unregisters;
      }
      assert sources[..|sources|] == sources;
      AfterDeletion(events, name, sources);
      events := events + [Deleted(name, sources)];
    }

    /** Every provider goes and is asked once more: all channels are closed and all timers stopped. */
    method StopProviders()
      requires Valid()
      modifies this, quits, timers
      ensures Valid() && quits == old(quits) && timers == old(timers) && metricsSourceProviders == map[]
      ensures forall q :: q in quits ==> q.closed
      ensures forall t :: t in timers ==> !t.running
      ensures DeletedEach(old(events), events, old(metricsSourceProviders.Keys))
    {
      hide *;
      var todo := metricsSourceProviders.Keys;
      ghost var all := todo;
      DeletedNone(events, all);
      while todo != {}
        invariant Valid() && quits == old(quits) && timers == old(timers)
        invariant metricsSourceProviders.Keys == todo <= all && DeletedEach(old(events), events, all - todo)
        decreases |todo|
      {
        var name :| name in todo;
        ghost var before := events;
        DeleteProvider(name);
        DeletedOneMore(old(events), before, events, all, todo, name);
        todo := todo - {name};
      }
      assert all - todo == all;
      NothingLeft();
    }

    lemma NothingLeft()
      requires Valid() && metricsSourceProviders.Keys == {}
      ensures metricsSourceProviders == map[]
      ensures forall q :: q in quits ==> q.closed
      ensures forall t :: t in timers ==> !t.running
    {
      assert metricsSourceQuits == map[] && metricsSourceTimers == map[];
      assert forall q :: q in quits && !q.closed ==> q in OpenOf(quits);
      assert forall t :: t in timers && t.running ==> t in RunningOf(timers);
    }
  }

  lemma AfterDeletion(events: seq<Event>, name: string, sources: seq<Source>)
    ensures After(events + [Deleted(name, sources)]) == After(events) + Registered(sources) - Unregistered(sources)
  {
    AfterPush(events, Deleted(name, sources));
  }
}
