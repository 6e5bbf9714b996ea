/** Sequences seen as bags of their elements. */
module Bags {

  ghost predicate Distinct<T>(s: seq<T>) {
    forall i, j :: 0 <= i < j < |s| ==> s[i] != s[j]
  }

  lemma SameMembers<T>(s: seq<T>, t: seq<T>)
    requires multiset(s) == multiset(t)
    ensures forall x :: x in s <==> x in t
  {
    forall x
      ensures x in s <==> x in t
    {
      assert x in s <==> x in multiset(s);
    }
  }

  lemma Swap<T>(b: multiset<T>, x: multiset<T>, y: multiset<T>)
    ensures b + x + y == b + y + x
  {
  }

  lemma Cancel<T>(a: multiset<T>, b: multiset<T>, m: multiset<T>)
    requires a + m == b + m
    ensures a == b
  {
    forall x ensures a[x] == b[x] {
      assert (a + m)[x] == (b + m)[x];
    }
  }

  lemma Twice<T>(s: seq<T>, i: nat, j: nat)
    requires i < j < |s| && s[i] == s[j]
    ensures multiset(s)[s[i]] >= 2
  {
    assert s == s[..j] + s[j..];
    assert s[..j][i] == s[i] && s[j..][0] == s[j];
    assert s[i] in multiset(s[..j]) && s[j] in multiset(s[j..]);
  }

  lemma Once<T>(s: seq<T>, i: nat)
    requires i < |s| && Distinct(s)
    ensures multiset(s)[s[i]] == 1
  {
    assert s == s[..i] + [s[i]] + s[i + 1..];
    assert s[i] !in s[..i] && s[i] !in s[i + 1..];
    assert s[i] !in multiset(s[..i]) && s[i] !in multiset(s[i + 1..]);
  }

  /** A permutation of distinct elements is distinct. */
  lemma DistinctBag<T>(s: seq<T>, t: seq<T>)
    requires Distinct(s) && multiset(s) == multiset(t)
    ensures Distinct(t)
  {
    forall i, j | 0 <= i < j < |t|
      ensures t[i] != t[j]
    {
      if t[i] == t[j] {
        Twice(t, i, j);
        SameMembers(s, t);
        assert t[i] in s;
        var k :| 0 <= k < |s| && s[k] == t[i];
        Once(s, k);
        assert false;
      }
    }
  }

  /** Distinct sequences with the same elements are the same bag. */
  lemma DistinctSameMembers<T>(s: seq<T>, t: seq<T>)
    requires Distinct(s) && Distinct(t) && forall x :: x in s <==> x in t
    ensures multiset(s) == multiset(t)
  {
    forall x
      ensures multiset(s)[x] == multiset(t)[x]
    {
      if x in s {
        var i :| 0 <= i < |s| && s[i] == x;
        var j :| 0 <= j < |t| && t[j] == x;
        Once(s, i);
        Once(t, j);
      } else {
        assert x !in multiset(s) && x !in multiset(t);
      }
    }
  }

  // ---- counting -------------------------------------------------------------------------------

  /** How many elements of the bag satisfy p. */
  ghost function CountOf<T(!new)>(b: multiset<T>, p: T -> bool): nat {
    if b == multiset{} then 0
    else
      var x :| x in b;
      CountOf(b - multiset{x}, p) + if p(x) then 1 else 0
  }

  lemma {:induction false} CountAt<T(!new)>(b: multiset<T>, p: T -> bool, x: T)
    requires x in b
    ensures CountOf(b, p) == CountOf(b - multiset{x}, p) + if p(x) then 1 else 0
    decreases |b|
  {
    var y :| y in b && CountOf(b, p) == CountOf(b - multiset{y}, p) + if p(y) then 1 else 0;
    if x != y {
      CountAt(b - multiset{y}, p, x);
      CountAt(b - multiset{x}, p, y);
      assert b - multiset{x} - multiset{y} == b - multiset{y} - multiset{x};
    }
  }

  lemma CountAdd<T(!new)>(b: multiset<T>, p: T -> bool, x: T)
    ensures CountOf(b + multiset{x}, p) == CountOf(b, p) + if p(x) then 1 else 0
  {
    CountAt(b + multiset{x}, p, x);
    assert b + multiset{x} - multiset{x} == b;
  }

  lemma {:induction false} CountSum<T(!new)>(a: multiset<T>, b: multiset<T>, p: T -> bool)
    ensures CountOf(a + b, p) == CountOf(a, p) + CountOf(b, p)
    decreases |b|
  {
    if b == multiset{} {
      assert a + b == a;
    } else {
      var x :| x in b;
      CountSum(a, b - multiset{x}, p);
      CountAt(b, p, x);
      assert a + b == a + (b - multiset{x}) + multiset{x};
      CountAdd(a + (b - multiset{x}), p, x);
    }
  }

  /** Where each element satisfies exactly one of two conditions for each it satisfies of a third, counts add up. */
  lemma {:induction false} CountSplit<T(!new)>(b: multiset<T>, p: T -> bool, q: T -> bool, r: T -> bool)
    requires forall x :: (p(x) <==> q(x) || r(x)) && !(q(x) && r(x))
    ensures CountOf(b, p) == CountOf(b, q) + CountOf(b, r)
    decreases |b|
  {
    if b != multiset{} {
      var x :| x in b;
      CountSplit(b - multiset{x}, p, q, r);
      CountAt(b, p, x);
      CountAt(b, q, x);
      CountAt(b, r, x);
    }
  }

  lemma {:induction false} CountNone<T(!new)>(b: multiset<T>, p: T -> bool)
    ensures CountOf(b, p) == 0 <==> forall x :: x in b ==> !p(x)
    decreases |b|
  {
    if b != multiset{} {
      var y :| y in b;
      CountNone(b - multiset{y}, p);
      CountAt(b, p, y);
      assert forall x :: x in b <==> x == y || x in b - multiset{y};
    }
  }

  // ---- maps to sequences ----------------------------------------------------------------------

  /** All elements of the sequences in a map. */
  ghost function All<K, T>(t: map<K, seq<T>>): multiset<T> {
    if t == map[] then multiset{}
    else
      var r :| r in t;
      multiset(t[r]) + All(t - {r})
  }

  lemma {:induction false} AllAt<K, T>(t: map<K, seq<T>>, r: K)
    requires r in t
    ensures All(t) == multiset(t[r]) + All(t - {r})
    decreases |t|
  {
    var q :| q in t && All(t) == multiset(t[q]) + All(t - {q});
    if q != r {
      AllAt(t - {q}, r);
      AllAt(t - {r}, q);
      assert t - {q} - {r} == t - {r} - {q};
    }
  }

  lemma AllNone<K, T>(t: map<K, seq<T>>)
    requires t.Keys == {}
    ensures All(t) == multiset{}
  {
    assert t == map[];
  }

  lemma AllInsert<K, T>(t: map<K, seq<T>>, r: K, l: seq<T>)
    requires r !in t
    ensures All(t[r := l]) == All(t) + multiset(l)
  {
    AllAt(t[r := l], r);
    assert t[r := l] - {r} == t;
  }
}
