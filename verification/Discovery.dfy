/**
 From discovered endpoints to registered providers: the discoverer, the endpoint handler and the source
 manager (collector/plugins/discovery/discoverer.go, internal/discovery/endpoint.go).

 Rules and annotations decide which endpoints a resource has; here they are a parameter of each step.
 Building a provider may fail, and a built provider is named after the factory and the endpoint.
 */
module Discovery {
  import opened Bags
  import opened SourceManager

  datatype Endpoint = Endpoint(name: string, pluginType: string, config: string)

  /** The factory name for each plugin type, and the endpoints whose providers can be built. */
  datatype Config = Config(factories: map<string, string>, buildable: set<Endpoint>, interval: int) {

    predicate Knows(ep: Endpoint) {
      ep.pluginType in factories
    }

    predicate Builds(ep: Endpoint) {
      Knows(ep) && ep in buildable
    }

    function ProviderName(ep: Endpoint): string
      requires Knows(ep)
    {
      factories[ep.pluginType] + ": " + ep.name
    }
  }

  // ---- the registered names -------------------------------------------------------------------

  function AddName(c: Config, names: set<string>, ep: Endpoint): set<string> {
    if c.Builds(ep) then names + {c.ProviderName(ep)} else names
  }

  function DeleteName(c: Config, names: set<string>, ep: Endpoint): set<string> {
    if c.Knows(ep) then names - {c.ProviderName(ep)} else names
  }

  function AddNames(c: Config, names: set<string>, eps: seq<Endpoint>): set<string> {
    if eps == [] then names else AddName(c, AddNames(c, names, eps[..|eps| - 1]), eps[|eps| - 1])
  }

  function DeleteNames(c: Config, names: set<string>, eps: seq<Endpoint>): set<string> {
    if eps == [] then names else DeleteName(c, DeleteNames(c, names, eps[..|eps| - 1]), eps[|eps| - 1])
  }

  predicate IsName(c: Config, ep: Endpoint, n: string) {
    c.Knows(ep) && c.ProviderName(ep) == n
  }

  /** Some endpoint of the list has the name. */
  ghost predicate Named(c: Config, eps: seq<Endpoint>, n: string) {
    exists i :: 0 <= i < |eps| && IsName(c, eps[i], n)
  }

  /** Some endpoint of the list that builds has the name. */
  ghost predicate BuiltNamed(c: Config, eps: seq<Endpoint>, n: string) {
    exists i :: 0 <= i < |eps| && c.Builds(eps[i]) && IsName(c, eps[i], n)
  }

  lemma {:induction false} AddNamesIs(c: Config, names: set<string>, eps: seq<Endpoint>, n: string)
    ensures n in AddNames(c, names, eps) <==> n in names || BuiltNamed(c, eps, n)
  {
    if eps != [] {
      var k := |eps| - 1;
      AddNamesIs(c, names, eps[..k], n);
      assert BuiltNamed(c, eps, n) <==> BuiltNamed(c, eps[..k], n) || (c.Builds(eps[k]) && IsName(c, eps[k], n));
    }
  }

  lemma {:induction false} DeleteNamesIs(c: Config, names: set<string>, eps: seq<Endpoint>, n: string)
    ensures n in DeleteNames(c, names, eps) <==> n in names && !Named(c, eps, n)
  {
    if eps != [] {
      var k := |eps| - 1;
      DeleteNamesIs(c, names, eps[..k], n);
      assert Named(c, eps, n) <==> Named(c, eps[..k], n) || IsName(c, eps[k], n);
    }
  }

  // ---- the discoverer as a state machine ------------------------------------------------------

  type Tracked = map<string, seq<Endpoint>>

  /** What is tracked per resource, what is registered, and the handler calls so far. */
  datatype State = State(endpoints: Tracked, names: set<string>, added: multiset<Endpoint>, deleted: multiset<Endpoint>)

  datatype Step =
    | Discover(resource: string, eps: seq<Endpoint>)
    | Delete(resource: string)
    | DiscoverNode(resource: string, ep: Endpoint)
    | DeleteAll

  function Held(t: Tracked, resource: string): seq<Endpoint> {
    if resource in t then t[resource] else []
  }

  function Put(t: Tracked, resource: string, eps: seq<Endpoint>): Tracked {
    if eps == [] then t - {resource} else t[resource := eps]
  }

  ghost predicate AnyNamed(c: Config, t: Tracked, n: string) {
    exists r :: r in t && Named(c, t[r], n)
  }

  ghost predicate AnyBuilt(c: Config, t: Tracked, n: string) {
    exists r :: r in t && BuiltNamed(c, t[r], n)
  }

  /** The names that are left when the handler has been asked to delete everything tracked. */
  ghost predicate LeftAfterAll(c: Config, s: State, names: set<string>) {
    forall n :: n in names <==> n in s.names && !AnyNamed(c, s.endpoints, n)
  }

  /** s becomes t by the given step. An unchanged list of endpoints is left alone. */
  ghost predicate Next(c: Config, s: State, step: Step, t: State) {
    match step
    case Discover(r, eps) =>
      var former := Held(s.endpoints, r);
      t == if eps == former then s.(endpoints := Put(s.endpoints, r, eps))
           else State(Put(s.endpoints, r, eps), AddNames(c, DeleteNames(c, s.names, former), eps),
                      s.added + multiset(eps), s.deleted + multiset(former))
    case Delete(r) =>
      var former := Held(s.endpoints, r);
      t == State(s.endpoints - {r}, DeleteNames(c, s.names, former), s.added, s.deleted + multiset(former))
    case DiscoverNode(r, ep) =>
      t == State(s.endpoints[r := Held(s.endpoints, r) + [ep]], AddName(c, s.names, ep), s.added + multiset{ep}, s.deleted)
    case DeleteAll =>
      t.endpoints == map[] && LeftAfterAll(c, s, t.names) && t.added == s.added && t.deleted == s.deleted + All(s.endpoints)
  }

  // ---- added less deleted is what is held -----------------------------------------------------

  lemma AllPut(t: Tracked, r: string, eps: seq<Endpoint>)
    ensures All(Put(t, r, eps)) + multiset(Held(t, r)) == All(t) + multiset(eps)
  {
    if eps != [] {
      AllAt(t[r := eps], r);
      assert t[r := eps] - {r} == t - {r};
    }
    if r in t {
      AllAt(t, r);
    } else {
      assert t - {r} == t;
    }
  }

  lemma AllWithout(t: Tracked, r: string)
    ensures All(t - {r}) + multiset(Held(t, r)) == All(t)
  {
    var none: seq<Endpoint> := [];
    AllPut(t, r, none);
    assert multiset(none) == multiset{};
  }

  ghost predicate Conserved(s: State) {
    s.added == s.deleted + All(s.endpoints)
  }

  lemma StepConserves(c: Config, s: State, step: Step, t: State)
    requires Conserved(s) && Next(c, s, step, t)
    ensures Conserved(t)
  {
    match step
    case Discover(r, eps) =>
      AllPut(s.endpoints, r, eps);
      PutConserves(s.added, s.deleted, s.endpoints, t.endpoints, multiset(Held(s.endpoints, r)), multiset(eps));
    case Delete(r) => AllWithout(s.endpoints, r);
    case DiscoverNode(r, ep) =>
      var former := Held(s.endpoints, r);
      AllPut(s.endpoints, r, former + [ep]);
      assert multiset(former + [ep]) == multiset(former) + multiset{ep};
      PutConserves(s.added, s.deleted, s.endpoints, t.endpoints, multiset(former), multiset(former + [ep]));
    case DeleteAll =>
  }

  /** What an exchange of `former` for `eps` does to both sides of the conservation. */
  lemma PutConserves(added: multiset<Endpoint>, deleted: multiset<Endpoint>, t: Tracked, u: Tracked,
                     former: multiset<Endpoint>, eps: multiset<Endpoint>)
    requires added == deleted + All(t) && All(u) + former == All(t) + eps
    ensures added + eps == deleted + former + All(u)
    ensures former == eps ==> All(u) == All(t)
    ensures forall ep :: eps == former + multiset{ep} ==> added + multiset{ep} == deleted + All(u)
  {
    hide All;
    assert added + eps == deleted + (All(t) + eps);
    if former == eps {
      Cancel(All(u), All(t), former);
    }
    forall ep | eps == former + multiset{ep}
      ensures added + multiset{ep} == deleted + All(u)
    {
      Cancel(All(u), All(t) + multiset{ep}, former);
    }
  }

  // ---- what is registered is what is held -----------------------------------------------------

  /** The registered names are those registered by others and those of the endpoints held that build. */
  ghost predicate Agrees(c: Config, others: set<string>, s: State) {
    forall n :: n in s.names <==> n in others || AnyBuilt(c, s.endpoints, n)
  }

  /** No name is held by two resources, nor by a resource and by others. */
  ghost predicate Disjoint(c: Config, others: set<string>, t: Tracked) {
    (forall q, r, n :: q in t && r in t && Named(c, t[q], n) && Named(c, t[r], n) ==> q == r)
    && forall r, n :: r in t && Named(c, t[r], n) ==> n !in others
  }

  /** The name is registered by others, or by an endpoint that builds of another resource. */
  ghost predicate Elsewhere(c: Config, others: set<string>, t: Tracked, r: string, n: string) {
    n in others || exists q :: q in t && q != r && BuiltNamed(c, t[q], n)
  }

  lemma BuiltIsNamed(c: Config, eps: seq<Endpoint>, n: string)
    requires BuiltNamed(c, eps, n)
    ensures Named(c, eps, n)
  {
  }

  lemma BuiltAfterPut(c: Config, others: set<string>, t: Tracked, r: string, eps: seq<Endpoint>, n: string)
    ensures n in others || AnyBuilt(c, Put(t, r, eps), n) <==> Elsewhere(c, others, t, r, n) || BuiltNamed(c, eps, n)
  {
    assert !BuiltNamed(c, [], n);
    hide BuiltNamed;
    var u := Put(t, r, eps);
    if q :| q in u && BuiltNamed(c, u[q], n) {
      if q != r {
        assert q in t && t[q] == u[q];
      }
    }
    if q :| q in t && q != r && BuiltNamed(c, t[q], n) {
      assert q in u && u[q] == t[q];
    }
    if BuiltNamed(c, eps, n) {
      assert r in u && u[r] == eps;
    }
  }

  lemma BuiltBefore(c: Config, others: set<string>, t: Tracked, r: string, n: string)
    ensures n in others || AnyBuilt(c, t, n) <==> Elsewhere(c, others, t, r, n) || BuiltNamed(c, Held(t, r), n)
  {
    assert !BuiltNamed(c, [], n);
    hide BuiltNamed;
  }

  /** Replacing the old endpoints of r by eps takes no name away that is also registered elsewhere. */
  ghost predicate TakesNothing(c: Config, others: set<string>, t: Tracked, r: string, eps: seq<Endpoint>) {
    forall n :: Named(c, Held(t, r), n) && Elsewhere(c, others, t, r, n) ==> BuiltNamed(c, eps, n)
  }

  /** Exactly then the registry still agrees afterwards. */
  lemma ReplaceAgrees(c: Config, others: set<string>, s: State, r: string, eps: seq<Endpoint>)
    requires Agrees(c, others, s)
    ensures var names := AddNames(c, DeleteNames(c, s.names, Held(s.endpoints, r)), eps);
            (forall n :: n in names <==> n in others || AnyBuilt(c, Put(s.endpoints, r, eps), n))
            <==> TakesNothing(c, others, s.endpoints, r, eps)
  {
    var former := Held(s.endpoints, r);
    var names := AddNames(c, DeleteNames(c, s.names, former), eps);
    forall n
      ensures n in names <==> (((Elsewhere(c, others, s.endpoints, r, n) || BuiltNamed(c, former, n)) && !Named(c, former, n))
                               || BuiltNamed(c, eps, n))
      ensures n in others || AnyBuilt(c, Put(s.endpoints, r, eps), n)
              <==> Elsewhere(c, others, s.endpoints, r, n) || BuiltNamed(c, eps, n)
      ensures BuiltNamed(c, former, n) ==> Named(c, former, n)
    {
      AddNamesIs(c, DeleteNames(c, s.names, former), eps, n);
      DeleteNamesIs(c, s.names, former, n);
      BuiltBefore(c, others, s.endpoints, r, n);
      BuiltAfterPut(c, others, s.endpoints, r, eps, n);
      if BuiltNamed(c, former, n) {
        BuiltIsNamed(c, former, n);
      }
    }
    hide AddNames, DeleteNames, Elsewhere, AnyBuilt, BuiltNamed, Named, Put;
  }

  /** A step keeps the registry in agreement where no name is held twice before it. */
  lemma StepAgrees(c: Config, others: set<string>, s: State, step: Step, t: State)
    requires Agrees(c, others, s) && Disjoint(c, others, s.endpoints) && Next(c, s, step, t)
    ensures Agrees(c, others, t)
  {
    match step
    case Discover(r, eps) =>
      if eps == Held(s.endpoints, r) {
        SameAgrees(c, others, s, r);
      } else {
        HeldOnce(c, others, s.endpoints, r, eps);
        ReplaceAgrees(c, others, s, r, eps);
      }
    case Delete(r) =>
      HeldOnce(c, others, s.endpoints, r, []);
      ReplaceAgrees(c, others, s, r, []);
      assert AddNames(c, t.names, []) == t.names;
    case DiscoverNode(r, ep) => NodeAgrees(c, others, s, r, ep);
    case DeleteAll => ClearAgrees(c, others, s, t);
  }

  lemma NamedOnlyHere(c: Config, others: set<string>, t: Tracked, r: string, n: string)
    requires Disjoint(c, others, t)
    ensures !(Named(c, Held(t, r), n) && Elsewhere(c, others, t, r, n))
  {
    forall q | q in t
      ensures BuiltNamed(c, t[q], n) ==> Named(c, t[q], n)
    {
      if BuiltNamed(c, t[q], n) {
        BuiltIsNamed(c, t[q], n);
      }
    }
    assert !Named(c, [], n);
    hide Named, BuiltNamed;
  }

  lemma HeldOnce(c: Config, others: set<string>, t: Tracked, r: string, eps: seq<Endpoint>)
    requires Disjoint(c, others, t)
    ensures TakesNothing(c, others, t, r, eps)
  {
    forall n
      ensures !(Named(c, Held(t, r), n) && Elsewhere(c, others, t, r, n))
    {
      NamedOnlyHere(c, others, t, r, n);
    }
    hide Named, Elsewhere, Held;
  }

  lemma SameAgrees(c: Config, others: set<string>, s: State, r: string)
    requires Agrees(c, others, s)
    ensures Agrees(c, others, s.(endpoints := Put(s.endpoints, r, Held(s.endpoints, r))))
  {
    forall n
      ensures n in s.names <==> n in others || AnyBuilt(c, Put(s.endpoints, r, Held(s.endpoints, r)), n)
    {
      BuiltBefore(c, others, s.endpoints, r, n);
      BuiltAfterPut(c, others, s.endpoints, r, Held(s.endpoints, r), n);
      hide Elsewhere, AnyBuilt, BuiltNamed;
    }
  }

  lemma NodeAgrees(c: Config, others: set<string>, s: State, r: string, ep: Endpoint)
    requires Agrees(c, others, s)
    ensures Agrees(c, others, s.(endpoints := s.endpoints[r := Held(s.endpoints, r) + [ep]], names := AddName(c, s.names, ep)))
  {
    var former, eps := Held(s.endpoints, r), Held(s.endpoints, r) + [ep];
    forall n
      ensures n in AddName(c, s.names, ep) <==> n in others || AnyBuilt(c, s.endpoints[r := eps], n)
    {
      BuiltBefore(c, others, s.endpoints, r, n);
      BuiltAfterPut(c, others, s.endpoints, r, eps, n);
      AddNamesIs(c, {}, eps, n);
      AddNamesIs(c, {}, former, n);
      assert eps[..|eps| - 1] == former;
      hide Elsewhere, AnyBuilt, BuiltNamed;
    }
  }

  /** After everything is deleted, registry and tracked endpoints agree if and only if no name of others was tracked. */
  lemma ClearAgrees(c: Config, others: set<string>, s: State, t: State)
    requires Agrees(c, others, s) && Next(c, s, Step.DeleteAll, t)
    ensures Agrees(c, others, t) <==> forall n :: AnyNamed(c, s.endpoints, n) ==> n !in others
  {
    forall n
      ensures n in t.names <==> n in others && !AnyNamed(c, s.endpoints, n)
      ensures !AnyBuilt(c, t.endpoints, n)
    {
      if AnyBuilt(c, s.endpoints, n) {
        var r :| r in s.endpoints && BuiltNamed(c, s.endpoints[r], n);
        BuiltIsNamed(c, s.endpoints[r], n);
      }
    }
    hide AnyNamed, AnyBuilt, LeftAfterAll;
    if forall n :: AnyNamed(c, s.endpoints, n) ==> n !in others {
      assert Agrees(c, others, t);
    }
    if Agrees(c, others, t) {
      forall n | AnyNamed(c, s.endpoints, n)
        ensures n !in others
      {
        assert n !in t.names;
      }
    }
  }

  // ---- whole runs -----------------------------------------------------------------------------

  ghost predicate IsRun(c: Config, steps: seq<Step>, states: seq<State>) {
    |states| == |steps| + 1 && forall i :: 0 <= i < |steps| ==> Next(c, states[i], steps[i], states[i + 1])
  }

  function Start(others: set<string>): State {
    State(map[], others, multiset{}, multiset{})
  }

  /** In every run the endpoints added, less those deleted, are those held. */
  lemma {:induction false} RunConserves(c: Config, others: set<string>, steps: seq<Step>, states: seq<State>, i: nat)
    requires IsRun(c, steps, states) && states[0] == Start(others) && i < |states|
    ensures Conserved(states[i])
  {
    if i > 0 {
      RunConserves(c, others, steps, states, i - 1);
      StepConserves(c, states[i - 1], steps[i - 1], states[i]);
    }
  }

  /** In every run in which no name is held twice, the registered names are those of the endpoints held that build. */
  lemma {:induction false} RunAgrees(c: Config, others: set<string>, steps: seq<Step>, states: seq<State>, i: nat)
    requires IsRun(c, steps, states) && states[0] == Start(others) && i < |states|
    requires forall j :: 0 <= j < i ==> Disjoint(c, others, states[j].endpoints)
    ensures Agrees(c, others, states[i])
  {
    if i > 0 {
      RunAgrees(c, others, steps, states, i - 1);
      StepAgrees(c, others, states[i - 1], steps[i - 1], states[i]);
    }
  }

  /** The states of a run in which two resources have an endpoint of one name, and one of them goes. */
  function Shared(e: Endpoint, i: nat): State
    requires i <= 3
  {
    var n := ": " + e.name;
    if i == 0 then Start({})
    else if i == 1 then State(map["a" := [e]], {n}, multiset{e}, multiset{})
    else if i == 2 then State(map["a" := [e], "b" := [e]], {n}, multiset{e, e}, multiset{})
    else State(map["b" := [e]], {}, multiset{e, e}, multiset{e})
  }

  function Sharing(e: Endpoint): Config {
    Config(map[e.pluginType := ""], {e}, 0)
  }

  lemma OneName(e: Endpoint, names: set<string>)
    ensures AddNames(Sharing(e), names, [e]) == names + {": " + e.name}
    ensures AddNames(Sharing(e), names, []) == names && DeleteNames(Sharing(e), names, []) == names
    ensures DeleteNames(Sharing(e), names, [e]) == names - {": " + e.name}
    ensures multiset([e]) == multiset{e}
  {
    assert [e][..0] == [];
    assert "" + ": " + e.name == ": " + e.name;
  }

  lemma SharedDiscover(e: Endpoint)
    ensures Next(Sharing(e), Shared(e, 0), Discover("a", [e]), Shared(e, 1))
    ensures Next(Sharing(e), Shared(e, 1), Discover("b", [e]), Shared(e, 2))
  {
    OneName(e, {});
    OneName(e, {": " + e.name});
    var none: seq<Endpoint> := [];
    assert multiset(none) == multiset{};
    hide AddNames, DeleteNames;
    assert Put(Shared(e, 0).endpoints, "a", [e]) == Shared(e, 1).endpoints;
    assert Put(Shared(e, 1).endpoints, "b", [e]) == Shared(e, 2).endpoints;
  }

  lemma SharedDelete(e: Endpoint)
    ensures Next(Sharing(e), Shared(e, 2), Delete("a"), Shared(e, 3))
  {
    OneName(e, {": " + e.name});
    hide AddNames, DeleteNames;
    assert Shared(e, 2).endpoints - {"a"} == Shared(e, 3).endpoints;
  }

  /** When one of two resources with the same endpoint name goes, the other is held but no longer registered. */
  lemma SharedNameIsLost(e: Endpoint)
    ensures IsRun(Sharing(e), [Discover("a", [e]), Discover("b", [e]), Delete("a")],
                  [Shared(e, 0), Shared(e, 1), Shared(e, 2), Shared(e, 3)])
    ensures !Agrees(Sharing(e), {}, Shared(e, 3))
  {
    SharedDiscover(e);
    SharedDelete(e);
    var c, t, n := Sharing(e), Shared(e, 3).endpoints, ": " + e.name;
    assert IsName(c, e, n) by {
      assert "" + ": " + e.name == n;
    }
    assert BuiltNamed(c, [e], n) by {
      assert c.Builds([e][0]) && IsName(c, [e][0], n);
    }
    assert AnyBuilt(c, t, n) by {
      assert "b" in t && t["b"] == [e];
    }
    assert n !in Shared(e, 3).names;
    hide Next, AnyBuilt;
  }
}
