/**
 What the sources of a provider leave in the registry of internal metrics when the provider is deleted
 (collector/plugins/sources/manager.go, prometheus/prometheus.go, telegraf/provider.go).

 A provider is asked for its sources at every scrape and once more when it is deleted. What it answers
 depends on leadership and lookups; the sources it answers with may be new ones each time.
 */
module SourceCleanup {

  /** The names a source registers when it is made, and those that its Cleanup takes away. */
  datatype Source = Source(name: string, registers: set<string>, unregisters: set<string>)

  /** A provider answers with its sources: for a scrape, or when it is deleted, after which they are cleaned up. */
  datatype Event = Asked(provider: string, sources: seq<Source>) | Deleted(provider: string, sources: seq<Source>)

  function Registered(sources: seq<Source>): set<string> {
    if sources == [] then {} else Registered(sources[..|sources| - 1]) + sources[|sources| - 1].registers
  }

  function Unregistered(sources: seq<Source>): set<string> {
    if sources == [] then {} else Unregistered(sources[..|sources| - 1]) + sources[|sources| - 1].unregisters
  }

  function Apply(names: set<string>, e: Event): set<string> {
    match e
    case Asked(_, sources) => names + Registered(sources)
    case Deleted(_, sources) => names + Registered(sources) - Unregistered(sources)
  }

  /** The names registered after some events. */
  function After(events: seq<Event>): set<string> {
    if events == [] then {} else Apply(After(events[..|events| - 1]), events[|events| - 1])
  }

  lemma AfterPush(events: seq<Event>, e: Event)
    ensures After(events + [e]) == Apply(After(events), e)
  {
    assert (events + [e])[..|events|] == events;
  }

  lemma TakeNext(sources: seq<Source>, i: nat)
    requires i < |sources|
    ensures Registered(sources[..i + 1]) == Registered(sources[..i]) + sources[i].registers
    ensures Unregistered(sources[..i + 1]) == Unregistered(sources[..i]) + sources[i].unregisters
  {
    assert sources[..i + 1][..i] == sources[..i];
  }

  // ---- what is left ---------------------------------------------------------------------------

  predicate Leaves(e: Event, n: string) {
    n in Registered(e.sources) && !Removes(e, n)
  }

  predicate Removes(e: Event, n: string) {
    e.Deleted? && n in Unregistered(e.sources)
  }

  ghost predicate LeftSince(events: seq<Event>, i: int, n: string) {
    0 <= i < |events| && Leaves(events[i], n) && forall j :: i < j < |events| ==> !Removes(events[j], n)
  }

  /** A name is registered if and only if some event has left it there and none after has removed it. */
  lemma {:induction false} RegisteredIff(events: seq<Event>, n: string)
    ensures n in After(events) <==> exists i :: LeftSince(events, i, n)
  {
    if events != [] {
      var k := |events| - 1;
      var before, last := events[..k], events[k];
      RegisteredIff(before, n);
      hide Registered, Unregistered;
      if n in After(before) && !Removes(last, n) {
        var i :| LeftSince(before, i, n);
        assert LeftSince(events, i, n);
      }
      if Leaves(last, n) {
        assert LeftSince(events, k, n);
      }
      if i :| LeftSince(events, i, n) {
        assert i < k ==> LeftSince(before, i, n);
      }
    }
  }

  /** The names that a provider has registered at its scrapes. */
  function RegisteredBy(events: seq<Event>, p: string): set<string> {
    if events == [] then {}
    else
      var last := events[|events| - 1];
      RegisteredBy(events[..|events| - 1], p)
      + if last.Asked? && last.provider == p then Registered(last.sources) else {}
  }

  /** No name that the provider has registered is left. */
  predicate Cleaned(events: seq<Event>, p: string) {
    RegisteredBy(events, p) !! After(events)
  }

  /**
   When a provider is deleted, nothing that it has registered is left if and only if the sources it answers
   with at that time unregister all of it that is still there.
   */
  lemma CleanedIff(events: seq<Event>, p: string, sources: seq<Source>)
    ensures Cleaned(events + [Deleted(p, sources)], p)
            <==> RegisteredBy(events, p) * (After(events) + Registered(sources)) <= Unregistered(sources)
  {
    var e := Deleted(p, sources);
    AfterPush(events, e);
    assert (events + [e])[..|events|] == events;
    hide After, RegisteredBy, Registered, Unregistered;
    var mine, there := RegisteredBy(events, p), After(events) + Registered(sources);
    assert RegisteredBy(events + [e], p) == mine by {
      DeletionRegistersNothing(events, e, p);
    }
    if mine !! there - Unregistered(sources) {
      assert forall n :: n in mine * there ==> n in Unregistered(sources);
    }
  }

  lemma DeletionRegistersNothing(events: seq<Event>, e: Event, p: string)
    requires e.Deleted?
    ensures RegisteredBy(events + [e], p) == RegisteredBy(events, p)
  {
    assert (events + [e])[..|events|] == events;
  }

  /** Every source unregisters what it registers, as those for Prometheus do. */
  predicate Tidy(sources: seq<Source>) {
    forall s :: s in sources ==> s.registers <= s.unregisters
  }

  /** The provider was asked at some scrape, and answered with the source. */
  ghost predicate ScrapedWith(events: seq<Event>, p: string, s: Source) {
    exists i :: 0 <= i < |events| && events[i].Asked? && events[i].provider == p && s in events[i].sources
  }

  lemma {:induction false} RegisteredByScraped(events: seq<Event>, p: string, n: string)
    ensures n in RegisteredBy(events, p) <==> exists s :: ScrapedWith(events, p, s) && n in s.registers
  {
    if events != [] {
      var k := |events| - 1;
      var before, last := events[..k], events[k];
      RegisteredByScraped(before, p, n);
      RegisteredHas(last.sources, n);
      if s :| ScrapedWith(before, p, s) && n in s.registers {
        var i :| 0 <= i < |before| && before[i].Asked? && before[i].provider == p && s in before[i].sources;
        assert events[i] == before[i];
        assert ScrapedWith(events, p, s);
      }
      if last.Asked? && last.provider == p && n in Registered(last.sources) {
        var s :| s in last.sources && n in s.registers;
        assert events[k] == last;
        assert ScrapedWith(events, p, s);
      }
      hide Registered;
      if s :| ScrapedWith(events, p, s) && n in s.registers {
        var i :| 0 <= i < |events| && events[i].Asked? && events[i].provider == p && s in events[i].sources;
        if i < k {
          assert before[i] == events[i];
          assert ScrapedWith(before, p, s);
        }
      }
    }
  }

  lemma {:induction false} RegisteredHas(sources: seq<Source>, n: string)
    ensures n in Registered(sources) <==> exists s :: s in sources && n in s.registers
  {
    if sources != [] {
      var k := |sources| - 1;
      RegisteredHas(sources[..k], n);
      assert forall s :: s in sources <==> s in sources[..k] || s == sources[k];
    }
  }

  lemma {:induction false} UnregisteredHas(sources: seq<Source>, n: string)
    ensures n in Unregistered(sources) <==> exists s :: s in sources && n in s.unregisters
  {
    if sources != [] {
      var k := |sources| - 1;
      UnregisteredHas(sources[..k], n);
      assert forall s :: s in sources <==> s in sources[..k] || s == sources[k];
    }
  }

  /** A provider that, when deleted, answers with all sources it was scraped with, all of them tidy, leaves nothing. */
  lemma SameAnswerCleans(events: seq<Event>, p: string, sources: seq<Source>)
    requires Tidy(sources) && forall s :: ScrapedWith(events, p, s) ==> s in sources
    ensures Cleaned(events + [Deleted(p, sources)], p)
  {
    CleanedIff(events, p, sources);
    hide After, RegisteredBy, Registered, Unregistered, Cleaned;
    forall n | n in RegisteredBy(events, p)
      ensures n in Unregistered(sources)
    {
      RegisteredByScraped(events, p, n);
      var s :| ScrapedWith(events, p, s) && n in s.registers;
      UnregisteredHas(sources, n);
    }
  }

  ghost predicate InPlay(events: seq<Event>, p: string, sources: seq<Source>, s: Source) {
    s in sources || ScrapedWith(events, p, s)
  }

  /** The sources unregister exactly the names they register, and no two share a name. */
  ghost predicate OwnNames(events: seq<Event>, p: string, sources: seq<Source>) {
    (forall s :: InPlay(events, p, sources, s) ==> s.registers == s.unregisters && s.registers != {})
    && forall s, t | InPlay(events, p, sources, s) && InPlay(events, p, sources, t) :: s == t || s.registers !! t.registers
  }

  /**
   Where sources do not share names, and none has been removed by another's deletion, the provider is
   cleaned up if and only if it answers at its deletion with every source it was ever scraped with.
   */
  lemma CleanedIffAnswered(events: seq<Event>, p: string, sources: seq<Source>)
    requires OwnNames(events, p, sources) && RegisteredBy(events, p) <= After(events)
    ensures Cleaned(events + [Deleted(p, sources)], p) <==> forall s :: ScrapedWith(events, p, s) ==> s in sources
  {
    CleanedIff(events, p, sources);
    hide After, RegisteredBy, Registered, Unregistered, Cleaned, ScrapedWith;
    if forall s :: ScrapedWith(events, p, s) ==> s in sources {
      forall n | n in RegisteredBy(events, p)
        ensures n in Unregistered(sources)
      {
        RegisteredByScraped(events, p, n);
        var s :| ScrapedWith(events, p, s) && n in s.registers;
        assert InPlay(events, p, sources, s);
        UnregisteredHas(sources, n);
      }
    }
    if RegisteredBy(events, p) * (After(events) + Registered(sources)) <= Unregistered(sources) {
      forall s | ScrapedWith(events, p, s)
        ensures s in sources
      {
        assert InPlay(events, p, sources, s);
        var n :| n in s.registers;
        RegisteredByScraped(events, p, n);
        UnregisteredHas(sources, n);
        assert n in RegisteredBy(events, p) * (After(events) + Registered(sources));
        var t :| t in sources && n in t.unregisters;
        assert InPlay(events, p, sources, t);
      }
    }
  }

  /** A provider scraped while leading and deleted after the lead is lost answers with nothing, and leaves everything. */
  lemma LostLeadLeavesAll(p: string, s: Source, n: string)
    requires n in s.registers
    ensures var events := [Asked(p, [s]), Deleted(p, [])];
            n in After(events) && !Cleaned(events, p)
  {
    var events := [Asked(p, [s])];
    assert n in Registered([s]) by {
      TakeNext([s], 0);
      assert [s][..1] == [s] && [s][..0] == [];
    }
    assert [Asked(p, [s])][..0] == [];
    CleanedIff(events, p, []);
    AfterPush(events, Deleted(p, []));
    assert events + [Deleted(p, [])] == [Asked(p, [s]), Deleted(p, [])];
  }

  /** A discovered Telegraf source registers two names and unregisters only the one for errors, twice. */
  function TelegrafSource(points: string, errors: string): Source {
    Source("telegraf", {points, errors}, {errors})
  }

  /** However often it is asked and deleted with the same answer, the name for points stays. */
  lemma TelegrafLeavesPoints(p: string, points: string, errors: string)
    requires points != errors
    ensures var s := TelegrafSource(points, errors);
            points in After([Asked(p, [s]), Deleted(p, [s])]) && errors !in After([Asked(p, [s]), Deleted(p, [s])])
  {
    var s := TelegrafSource(points, errors);
    TakeNext([s], 0);
    assert [s][..1] == [s] && [s][..0] == [];
    AfterPush([], Asked(p, [s]));
    AfterPush([Asked(p, [s])], Deleted(p, [s]));
    assert [] + [Asked(p, [s])] == [Asked(p, [s])];
    assert [Asked(p, [s])] + [Deleted(p, [s])] == [Asked(p, [s]), Deleted(p, [s])];
  }
}
