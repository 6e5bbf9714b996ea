/**
 Keeping the tags of a metric within the capacity of the sink (sinks/wavefront/utils.go).

 Strings are taken as byte strings, so lengths and the order are those of Go.
 */
module TagBudget {
  import opened Bags
  import opened StringMaps
  import opened Strings

  // ---- the three patterns and the two lists ---------------------------------------------------

  predicate WordAt(s: string, i: nat, word: string) {
    i + |word| <= |s| && s[i..i + |word|] == word
  }

  predicate Contains(s: string, word: string) {
    exists i :: 0 <= i <= |s| && WordAt(s, i, word)
  }

  /** ^label.*word, where the dot does not match a line break. */
  predicate LabelThen(s: string, word: string) {
    "label" <= s && exists i :: 5 <= i <= |s| && WordAt(s, i, word) && '\n' !in s[5..i]
  }

  datatype Pattern = AlphaBeta | Iaas | Label

  /**
   The patterns as the regular expressions bind: ^label.*beta|alpha*, ^label.*gke|azure|eks* and
   ^label.*. The bar separates whole alternatives, and a star repeats only the letter before it.
   */
  predicate Matches(p: Pattern, name: string) {
    match p
    case AlphaBeta => LabelThen(name, "beta") || Contains(name, "alph")
    case Iaas => LabelThen(name, "gke") || Contains(name, "azure") || Contains(name, "ek")
    case Label => "label" <= name
  }

  predicate IsAnEmptyTag(value: string) {
    value == "" || value == "/" || value == "-"
  }

  const EXCLUDE_LIST: seq<string> := ["namespace_id", "host_id", "pod_id", "hostname"]

  const MIN_DEDUPE_LENGTH := 5

  datatype Reason = WasEmpty | WasExcluded | WasDuplicate | WasAlphaBeta | WasIaas | WasExtra

  // ---- which of two names a value keeps -------------------------------------------------------

  predicate Before(a: string, b: string) {
    AtMost(a, b) && a != b
  }

  /** Plain names win over alpha/beta names; plain names by length and then order; others by order. */
  predicate Better(a: string, b: string) {
    if Matches(AlphaBeta, a) != Matches(AlphaBeta, b) then Matches(AlphaBeta, b)
    else if Matches(AlphaBeta, a) || |a| == |b| then Before(a, b)
    else |a| < |b|
  }

  lemma BetterIsTotal(a: string, b: string)
    ensures a == b || Better(a, b) || Better(b, a)
    ensures !(Better(a, b) && Better(b, a))
  {
    AtMostTotal(a, b);
  }

  lemma BetterIsTransitive(a: string, b: string, c: string)
    requires Better(a, b) && Better(b, c)
    ensures Better(a, c)
  {
    if AtMost(a, b) && AtMost(b, c) {
      AtMostTransitive(a, b, c);
    }
    AtMostTotal(a, b);
    AtMostTotal(b, c);
  }

  method CompareTagNames(name: string, prevWinner: string) returns (keep: string, remove: string)
    requires Before(prevWinner, name)
    ensures (keep == name && remove == prevWinner) || (keep == prevWinner && remove == name)
    ensures Better(keep, remove)
  {
    AtMostTotal(name, prevWinner);
    if Matches(AlphaBeta, name) {
      return prevWinner, name;
    }
    if Matches(AlphaBeta, prevWinner) {
      return name, prevWinner;
    }
    if |name| < |prevWinner| {
      return name, prevWinner;
    } else if |prevWinner| < |name| {
      return prevWinner, name;
    }
    if Before(name, prevWinner) {
      return name, prevWinner;
    } else {
      return prevWinner, name;
    }
  }

  /** removed lists the names that m has and n has not, each once. */
  ghost predicate ListsGap(removed: seq<string>, m: map<string, string>, n: map<string, string>) {
    Distinct(removed) && forall k :: k in removed <==> k in m && k !in n
  }

  // ---- removing duplicates --------------------------------------------------------------------

  /** name is the best name of its value in m. */
  ghost predicate Wins(m: map<string, string>, name: string)
    requires name in m
  {
    forall other :: other in m && m[other] == m[name] ==> other == name || Better(name, other)
  }

  /** What deduplication leaves: short values as they are, of a longer value its best name. */
  ghost function Deduped(m: map<string, string>): map<string, string> {
    map name | name in m && (|m[name]| < MIN_DEDUPE_LENGTH || Wins(m, name)) :: m[name]
  }

  /** Each value that is long enough keeps exactly one name, and it is the best one. */
  lemma DedupedKeepsOne(m: map<string, string>, value: string)
    requires value in m.Values && |value| >= MIN_DEDUPE_LENGTH
    ensures exists name :: name in Deduped(m) && m[name] == value && Wins(m, name)
    ensures forall a, b :: a in Deduped(m) && b in Deduped(m) && m[a] == value && m[b] == value ==> a == b
  {
    var some :| some in m && m[some] == value;
    var best := BestOf(m, (set n | n in m && m[n] == value), some);
    assert best in Deduped(m);
    forall a, b | a in Deduped(m) && b in Deduped(m) && m[a] == value && m[b] == value
      ensures a == b
    {
      BetterIsTotal(a, b);
    }
  }

  lemma {:induction false} BestOf(m: map<string, string>, names: set<string>, some: string) returns (best: string)
    requires some in names
    ensures best in names && forall n :: n in names ==> n == best || Better(best, n)
    decreases names
  {
    hide Better;
    if other :| other in names && other != some {
      var b := BestOf(m, names - {other}, some);
      BetterIsTotal(b, other);
      best := if Better(b, other) then b else other;
      forall n | n in names
        ensures n == best || Better(best, n)
      {
        if best == other && n != other && n != b {
          BetterIsTransitive(other, b, n);
        }
      }
    } else {
      best := some;
    }
  }

  /** What deduplication has done after the names in done: winner[v] is the best of them with value v. */
  ghost predicate DedupedSoFar(m: map<string, string>, done: set<string>, winner: map<string, string>, now: map<string, string>)
    requires done <= m.Keys
  {
    && (forall v :: v in winner ==> |v| >= MIN_DEDUPE_LENGTH && winner[v] in done && m[winner[v]] == v)
    && (forall k :: k in done && |m[k]| >= MIN_DEDUPE_LENGTH ==>
          m[k] in winner && (winner[m[k]] == k || Better(winner[m[k]], k)))
    && now == map k | k in m && (k !in done || |m[k]| < MIN_DEDUPE_LENGTH || winner[m[k]] == k) :: m[k]
  }

  lemma DedupeStart(m: map<string, string>)
    ensures DedupedSoFar(m, {}, map[], m)
  {
    assert m == map k | k in m :: m[k];
  }

  lemma DedupeShort(m: map<string, string>, done: set<string>, winner: map<string, string>, now: map<string, string>, k: string)
    requires done <= m.Keys && DedupedSoFar(m, done, winner, now) && k in m && |m[k]| < MIN_DEDUPE_LENGTH
    ensures DedupedSoFar(m, done + {k}, winner, now)
  {
    hide Better;
  }

  lemma DedupeFirst(m: map<string, string>, done: set<string>, winner: map<string, string>, now: map<string, string>, k: string)
    requires done <= m.Keys && DedupedSoFar(m, done, winner, now) && k in m && k !in done
    requires |m[k]| >= MIN_DEDUPE_LENGTH && m[k] !in winner
    ensures DedupedSoFar(m, done + {k}, winner[m[k] := k], now)
  {
    hide Better;
  }

  lemma DedupeClash(m: map<string, string>, done: set<string>, winner: map<string, string>, now: map<string, string>,
                    k: string, keep: string, remove: string)
    requires done <= m.Keys && DedupedSoFar(m, done, winner, now) && k in m && k !in done
    requires |m[k]| >= MIN_DEDUPE_LENGTH && m[k] in winner
    requires (keep == k && remove == winner[m[k]]) || (keep == winner[m[k]] && remove == k)
    requires Better(keep, remove)
    ensures DedupedSoFar(m, done + {k}, winner[m[k] := keep], now - {remove})
    ensures keep != remove && remove in now && keep in now
  {
    BetterIsTotal(keep, remove);
    hide Better;
    var v := m[k];
    var winner' := winner[v := keep];
    forall j | j in done + {k} && |m[j]| >= MIN_DEDUPE_LENGTH
      ensures m[j] in winner' && (winner'[m[j]] == j || Better(winner'[m[j]], j))
    {
      if m[j] == v && j != keep && j != remove && keep == k {
        BetterIsTransitive(keep, remove, j);
      }
    }
    assert now - {remove}
        == map j | j in m && (j !in done + {k} || |m[j]| < MIN_DEDUPE_LENGTH || winner'[m[j]] == j) :: m[j];
  }

  lemma DedupeEnd(m: map<string, string>, winner: map<string, string>, now: map<string, string>)
    requires DedupedSoFar(m, m.Keys, winner, now)
    ensures now == Deduped(m)
  {
    forall k | k in m && |m[k]| >= MIN_DEDUPE_LENGTH
      ensures winner[m[k]] == k <==> Wins(m, k)
    {
      BetterIsTotal(k, winner[m[k]]);
    }
    hide Better, Wins;
  }

  method DedupeTagValues(tags: StringMap) returns (removedTags: seq<string>)
    modifies tags
    ensures tags.m == Deduped(old(tags.m))
    ensures ListsGap(removedTags, old(tags.m), tags.m)
  {
    hide DedupedSoFar, Deduped, Better;
    ghost var m := tags.m;
    removedTags := [];
    var invertedTags: map<string, string> := map[];
    var tagNames := SortedKeys(tags.m);
    ghost var done: set<string> := {};
    DedupeStart(m);
    var i := 0;
    while i < |tagNames|
      invariant 0 <= i <= |tagNames|
      invariant done == set j | 0 <= j < i :: tagNames[j]
      invariant done <= m.Keys && DedupedSoFar(m, done, invertedTags, tags.m)
      invariant ListsGap(removedTags, m, tags.m)
    {
      var name := tagNames[i];
      assert name !in done;
      Unprocessed(m, done, invertedTags, tags.m, name);
      var value := tags.m[name];
      if |value| < MIN_DEDUPE_LENGTH {
        DedupeShort(m, done, invertedTags, tags.m, name);
      } else if value !in invertedTags {
        DedupeFirst(m, done, invertedTags, tags.m, name);
        invertedTags := invertedTags[value := name];
      } else {
        WinnersAreDone(m, done, invertedTags, tags.m, value);
        assert Before(invertedTags[value], name);
        var nameToKeep, nameToRemove := CompareTagNames(name, invertedTags[value]);
        DedupeClash(m, done, invertedTags, tags.m, name, nameToKeep, nameToRemove);
        removedTags := removedTags + [nameToRemove];
        tags.m := tags.m - {nameToRemove};
        invertedTags := invertedTags[value := nameToKeep];
      }
      done := done + {name};
      i := i + 1;
    }
    assert done == m.Keys;
    DedupeEnd(m, invertedTags, tags.m);
  }

  lemma Unprocessed(m: map<string, string>, done: set<string>, winner: map<string, string>, now: map<string, string>, k: string)
    requires done <= m.Keys && DedupedSoFar(m, done, winner, now) && k in m && k !in done
    ensures k in now && now[k] == m[k]
  {
  }

  lemma WinnersAreDone(m: map<string, string>, done: set<string>, winner: map<string, string>, now: map<string, string>, v: string)
    requires done <= m.Keys && DedupedSoFar(m, done, winner, now) && v in winner
    ensures winner[v] in done
  {
  }

  // ---- removing by a test on each tag ---------------------------------------------------------

  ghost function NotEmpty(m: map<string, string>): map<string, string> {
    map k | k in m && !IsAnEmptyTag(m[k]) :: m[k]
  }

  ghost function NotExcluded(m: map<string, string>): map<string, string> {
    map k | k in m && k !in EXCLUDE_LIST :: m[k]
  }

  method RemoveEmptyTags(tags: StringMap) returns (removed: seq<string>)
    modifies tags
    ensures tags.m == NotEmpty(old(tags.m))
    ensures ListsGap(removed, old(tags.m), tags.m)
  {
    ghost var m := tags.m;
    removed := [];
    var todo := tags.m.Keys;
    while todo != {}
      invariant todo <= m.Keys
      invariant tags.m == map k | k in m && (k in todo || !IsAnEmptyTag(m[k])) :: m[k]
      invariant ListsGap(removed, m, tags.m)
      decreases |todo|
    {
      var name :| name in todo;
      if IsAnEmptyTag(tags.m[name]) {
        removed := removed + [name];
        tags.m := tags.m - {name};
      }
      todo := todo - {name};
    }
  }

  method ExcludeTags(tags: StringMap) returns (removed: seq<string>)
    modifies tags
    ensures tags.m == NotExcluded(old(tags.m))
    ensures ListsGap(removed, old(tags.m), tags.m)
  {
    ghost var m := tags.m;
    removed := [];
    var todo := tags.m.Keys;
    while todo != {}
      invariant todo <= m.Keys
      invariant tags.m == map k | k in m && (k in todo || k !in EXCLUDE_LIST) :: m[k]
      invariant ListsGap(removed, m, tags.m)
      decreases |todo|
    {
      var name :| name in todo;
      if name in EXCLUDE_LIST {
        removed := removed + [name];
        tags.m := tags.m - {name};
      }
      todo := todo - {name};
    }
  }

  // ---- guaranteed tags ------------------------------------------------------------------------

  ghost function Guaranteed(m: map<string, string>, guarantee: seq<string>): map<string, string> {
    map k | k in m && (k in guarantee || !Matches(Label, k)) :: m[k]
  }

  ghost function Listed(m: map<string, string>, guarantee: seq<string>): map<string, string> {
    map k | k in m && k in guarantee :: m[k]
  }

  ghost function Unlabelled(m: map<string, string>): map<string, string> {
    map k | k in m && !Matches(Label, k) :: m[k]
  }

  lemma ListedThenUnlabelled(m: map<string, string>, guarantee: seq<string>)
    ensures var l := Listed(m, guarantee); var u := Unlabelled(m - l.Keys);
            l + u == Guaranteed(m, guarantee) && m - l.Keys - u.Keys == m - Guaranteed(m, guarantee).Keys
  {
    hide Matches;
  }

  /** Move the tags of the guarantee list into a map of their own. */
  method SplitListed(tags: StringMap, guarantee: seq<string>) returns (kept: map<string, string>)
    modifies tags
    ensures kept == Listed(old(tags.m), guarantee)
    ensures tags.m == old(tags.m) - kept.Keys
  {
    ghost var m := tags.m;
    kept := map[];
    for i := 0 to |guarantee|
      invariant kept == Listed(m, guarantee[..i])
      invariant tags.m == m - kept.Keys
    {
      var tagKey := guarantee[i];
      assert guarantee[..i + 1] == guarantee[..i] + [tagKey];
      if tagKey in tags.m {
        kept := kept[tagKey := tags.m[tagKey]];
      }
      tags.m := tags.m - {tagKey};
    }
    assert guarantee[..|guarantee|] == guarantee;
  }

  /** Add the tags that are no labels. */
  method SplitUnlabelled(tags: StringMap) returns (kept: map<string, string>)
    modifies tags
    ensures kept == Unlabelled(old(tags.m))
    ensures tags.m == old(tags.m) - kept.Keys
  {
    hide Matches;
    ghost var m := tags.m;
    kept := map[];
    var todo := tags.m.Keys;
    while todo != {}
      invariant todo <= m.Keys
      invariant forall k :: k in kept <==> k in m && k !in todo && !Matches(Label, k)
      invariant forall k :: k in kept ==> kept[k] == m[k]
      invariant tags.m == m - kept.Keys
      decreases |todo|
    {
      var tagKey :| tagKey in todo;
      if !Matches(Label, tagKey) {
        kept := kept[tagKey := tags.m[tagKey]];
        tags.m := tags.m - {tagKey};
      }
      todo := todo - {tagKey};
    }
  }

  method SplitGuaranteedTags(tags: StringMap, guarantee: seq<string>) returns (kept: map<string, string>, size: nat)
    modifies tags
    ensures kept == Guaranteed(old(tags.m), guarantee) && size == |kept|
    ensures tags.m == old(tags.m) - kept.Keys
  {
    hide Matches, Listed, Unlabelled, Guaranteed;
    ListedThenUnlabelled(tags.m, guarantee);
    var listed := SplitListed(tags, guarantee);
    var unlabelled := SplitUnlabelled(tags);
    kept := listed + unlabelled;
    size := |kept|;
  }

  // ---- removing labels until the tags fit -----------------------------------------------------

  /** The first n names, in order, that match p; none when n is not positive. */
  function FirstMatching(names: seq<string>, p: Pattern, n: int): seq<string> {
    if names == [] || n <= 0 then []
    else if Matches(p, names[0]) then [names[0]] + FirstMatching(names[1..], p, n - 1)
    else FirstMatching(names[1..], p, n)
  }

  lemma {:induction false} FirstMatchingIs(names: seq<string>, p: Pattern, n: int)
    requires Distinct(names)
    ensures var r := FirstMatching(names, p, n);
            && Distinct(r) && (forall k :: k in r ==> k in names && Matches(p, k))
            && |r| <= (if n > 0 then n else 0)
            && (|r| < n ==> forall k :: k in names && Matches(p, k) ==> k in r)
  {
    hide Matches;
    if names != [] && n > 0 {
      FirstMatchingIs(names[1..], p, if Matches(p, names[0]) then n - 1 else n);
    }
  }

  /** The names of a map in their order. */
  ghost function SortedNames(m: map<string, string>): (s: seq<string>)
    ensures IsSortedNames(s, m)
  {
    SortedNamesExist(m);
    var s :| IsSortedNames(s, m);
    s
  }

  ghost predicate IsSortedNames(s: seq<string>, m: map<string, string>) {
    Sorted(s) && Distinct(s) && forall k :: k in s <==> k in m
  }

  lemma {:induction false} SortedNamesExist(m: map<string, string>)
    ensures exists s :: IsSortedNames(s, m)
    decreases |m|
  {
    if m == map[] {
      assert IsSortedNames([], m);
    } else {
      var k :| k in m;
      SortedNamesExist(m - {k});
      var s :| IsSortedNames(s, m - {k});
      InsertSorts(k, s);
      InsertAdds(k, s);
      SameMembers(Insert(k, s), [k] + s);
      assert Distinct([k] + s);
      DistinctBag([k] + s, Insert(k, s));
      assert IsSortedNames(Insert(k, s), m);
    }
  }

  lemma SortedNamesAgree(s: seq<string>, t: seq<string>, m: map<string, string>)
    requires IsSortedNames(s, m) && IsSortedNames(t, m)
    ensures s == t
  {
    DistinctSameMembers(s, t);
    SortedIsUnique(s, t);
  }

  ghost function Dropped(m: map<string, string>, p: Pattern, n: int): seq<string> {
    FirstMatching(SortedNames(m), p, n)
  }

  ghost function Without(m: map<string, string>, names: seq<string>): map<string, string> {
    map k | k in m && k !in names :: m[k]
  }

  lemma NothingDropped(m: map<string, string>, names: seq<string>, p: Pattern, n: int)
    ensures FirstMatching(names[|names|..], p, n) == [] && names[0..] == names && Without(m, []) == m
  {
  }

  lemma FirstMatchingNext(names: seq<string>, i: nat, p: Pattern, n: int)
    requires i < |names|
    ensures FirstMatching(names[i..], p, n)
            == if n <= 0 then []
               else if Matches(p, names[i]) then [names[i]] + FirstMatching(names[i + 1..], p, n - 1)
               else FirstMatching(names[i + 1..], p, n)
  {
    hide Matches;
    assert names[i..][1..] == names[i + 1..];
  }

  lemma DropNext(m: map<string, string>, removed: seq<string>, name: string, rest: seq<string>)
    ensures removed + ([name] + rest) == (removed + [name]) + rest
    ensures Without(m, removed + [name]) == Without(m, removed) - {name}
  {
  }

  method RemoveTagsLabelsMatching(tags: StringMap, p: Pattern, numberToRemove: int) returns (removed: seq<string>)
    modifies tags
    ensures removed == Dropped(old(tags.m), p, numberToRemove)
    ensures tags.m == Without(old(tags.m), removed)
  {
    hide Matches;
    ghost var m := tags.m;
    removed := [];
    var count := 0;
    var tagNames := SortedKeys(tags.m);
    SortedNamesAgree(tagNames, SortedNames(m), m);
    NothingDropped(m, tagNames, p, numberToRemove);
    hide Sorted, IsSortedNames, FirstMatching, Without;
    var i := 0;
    while i < |tagNames|
      invariant 0 <= i <= |tagNames| && count == |removed|
      invariant FirstMatching(tagNames, p, numberToRemove)
                == removed + FirstMatching(tagNames[i..], p, numberToRemove - count)
      invariant tags.m == Without(m, removed)
    {
      FirstMatchingNext(tagNames, i, p, numberToRemove - count);
      if count >= numberToRemove {
        break;
      }
      var name := tagNames[i];
      if Matches(p, name) {
        DropNext(m, removed, name, FirstMatching(tagNames[i + 1..], p, numberToRemove - count - 1));
        removed := removed + [name];
        tags.m := tags.m - {name};
        count := count + 1;
      }
      i := i + 1;
    }
    assert removed + [] == removed;
  }

  // ---- all phases -----------------------------------------------------------------------------

  /** Drop alpha/beta labels, then IaaS labels, then any labels, until at most room tags are left. */
  ghost function Trimmed(m: map<string, string>, room: int): map<string, string> {
    var m1 := Without(m, Dropped(m, AlphaBeta, |m| - room));
    var m2 := Without(m1, Dropped(m1, Iaas, |m1| - room));
    Without(m2, Dropped(m2, Label, |m2| - room))
  }

  /** The tags that are neither empty nor excluded nor guaranteed: the ones that may have to go. */
  ghost function Spare(m: map<string, string>, guarantee: seq<string>): map<string, string> {
    var a := NotExcluded(NotEmpty(m));
    a - Guaranteed(a, guarantee).Keys
  }

  ghost function Sure(m: map<string, string>, guarantee: seq<string>): map<string, string> {
    Guaranteed(NotExcluded(NotEmpty(m)), guarantee)
  }

  ghost function Fitted(spare: map<string, string>, room: int): map<string, string> {
    var d := Slimmed(spare, room);
    if |d| > room then Trimmed(d, room) else d
  }

  /** The tags that are sent: a function of the tags, so the order of map iteration does not matter. */
  ghost function Cleaned(m: map<string, string>, guarantee: seq<string>, maxCapacity: int): map<string, string> {
    var sure := Sure(m, guarantee);
    Both(Fitted(Spare(m, guarantee), maxCapacity - |sure|), sure)
  }

  ghost function Both(a: map<string, string>, b: map<string, string>): map<string, string> {
    a + b
  }

  /** Removed names by reason; a reason without an entry was not looked at. */
  type Removals = map<Reason, seq<string>>

  method Trim(tags: StringMap, room: int, before: Removals) returns (reasons: Removals)
    modifies tags
    ensures tags.m == Trimmed(old(tags.m), room)
    ensures TrimAccounts(reasons, old(tags.m), room)
    ensures reasons.Keys == before.Keys + {WasAlphaBeta, WasIaas, WasExtra}
    ensures forall r :: r in before && r !in {WasAlphaBeta, WasIaas, WasExtra} ==> reasons[r] == before[r]
  {
    hide Dropped, Without;
    var removed := RemoveTagsLabelsMatching(tags, AlphaBeta, |tags.m| - room);
    reasons := before[WasAlphaBeta := removed];
    removed := RemoveTagsLabelsMatching(tags, Iaas, |tags.m| - room);
    reasons := reasons[WasIaas := removed];
    removed := RemoveTagsLabelsMatching(tags, Label, |tags.m| - room);
    reasons := reasons[WasExtra := removed];
  }

  /** The spare tags after deduplication, which only runs when there are too many of them. */
  ghost function Slimmed(spare: map<string, string>, room: int): map<string, string> {
    if |spare| > room then Deduped(spare) else spare
  }

  /** Every removal is listed under the phase that made it, and phases that did not run list nothing. */
  ghost predicate Accounts(reasons: Removals, m: map<string, string>, guarantee: seq<string>, maxCapacity: int) {
    && WasEmpty in reasons && ListsGap(reasons[WasEmpty], m, NotEmpty(m))
    && WasExcluded in reasons && ListsGap(reasons[WasExcluded], NotEmpty(m), NotExcluded(NotEmpty(m)))
    && FitAccounts(reasons, Spare(m, guarantee), maxCapacity - |Sure(m, guarantee)|)
  }

  ghost predicate FitAccounts(reasons: Removals, spare: map<string, string>, room: int) {
    var d := Slimmed(spare, room);
    && (WasDuplicate in reasons <==> |spare| > room)
    && (WasDuplicate in reasons ==> ListsGap(reasons[WasDuplicate], spare, d))
    && (WasAlphaBeta in reasons <==> |d| > room)
    && (WasIaas in reasons <==> |d| > room)
    && (WasExtra in reasons <==> |d| > room)
    && (|d| > room ==> TrimAccounts(reasons, d, room))
  }

  ghost predicate TrimAccounts(reasons: Removals, d: map<string, string>, room: int) {
    var d1 := Without(d, Dropped(d, AlphaBeta, |d| - room));
    var d2 := Without(d1, Dropped(d1, Iaas, |d1| - room));
    && WasAlphaBeta in reasons && reasons[WasAlphaBeta] == Dropped(d, AlphaBeta, |d| - room)
    && WasIaas in reasons && reasons[WasIaas] == Dropped(d1, Iaas, |d1| - room)
    && WasExtra in reasons && reasons[WasExtra] == Dropped(d2, Label, |d2| - room)
  }

  /** The two phases that run only over capacity. */
  method FitTags(tags: StringMap, room: int, before: Removals) returns (reasons: Removals)
    requires before.Keys == {WasEmpty, WasExcluded}
    modifies tags
    ensures tags.m == Fitted(old(tags.m), room)
    ensures FitAccounts(reasons, old(tags.m), room)
    ensures WasEmpty in reasons && reasons[WasEmpty] == before[WasEmpty]
    ensures WasExcluded in reasons && reasons[WasExcluded] == before[WasExcluded]
  {
    hide Deduped, Trimmed, TrimAccounts, ListsGap;
    reasons := before;
    if |tags.m| > room {
      var removed := DedupeTagValues(tags);
      reasons := reasons[WasDuplicate := removed];
    }
    if |tags.m| > room {
      reasons := Trim(tags, room, reasons);
    }
  }

  method CleanTags(tags: StringMap, guarantee: seq<string>, maxCapacity: int) returns (reasons: Removals)
    modifies tags
    ensures tags.m == Cleaned(old(tags.m), guarantee, maxCapacity)
    ensures Accounts(reasons, old(tags.m), guarantee, maxCapacity)
  {
    hide NotEmpty, NotExcluded, Guaranteed, ListsGap, FitAccounts, Fitted, Cleaned, Both;
    ghost var m := tags.m;
    CleanedIs(m, guarantee, maxCapacity);
    var empty := RemoveEmptyTags(tags);
    var excluded := ExcludeTags(tags);
    var tagsToGuarantee, size := SplitGuaranteedTags(tags, guarantee);
    assert tagsToGuarantee == Sure(m, guarantee);
    assert tags.m == Spare(m, guarantee);
    hide Sure, Spare;
    reasons := FitTags(tags, maxCapacity - size, map[WasEmpty := empty, WasExcluded := excluded]);
    CombineTags(tagsToGuarantee, tags);
  }

  method CombineTags(included: map<string, string>, tags: StringMap)
    modifies tags
    ensures tags.m == Both(old(tags.m), included)
  {
    ghost var m := tags.m;
    var todo := included.Keys;
    NothingCombined(m, included);
    hide Combined;
    while todo != {}
      invariant todo <= included.Keys
      invariant tags.m == Combined(m, included, todo)
      decreases |todo|
    {
      var key :| key in todo;
      CombineNext(m, included, todo, key);
      tags.m := tags.m[key := included[key]];
      todo := todo - {key};
    }
  }

  ghost function Combined(m: map<string, string>, included: map<string, string>, todo: set<string>): map<string, string> {
    m + (included - todo)
  }

  lemma NothingCombined(m: map<string, string>, included: map<string, string>)
    ensures Combined(m, included, included.Keys) == m && Combined(m, included, {}) == m + included
  {
    assert included - included.Keys == map[] && included - {} == included;
  }

  lemma CombineNext(m: map<string, string>, included: map<string, string>, todo: set<string>, key: string)
    requires key in todo && todo <= included.Keys
    ensures Combined(m, included, todo)[key := included[key]] == Combined(m, included, todo - {key})
  {
  }

  // ---- what the cleaning guarantees -----------------------------------------------------------

  ghost predicate PartOf(a: map<string, string>, b: map<string, string>) {
    forall k :: k in a ==> k in b && a[k] == b[k]
  }

  lemma StagesShrink(m: map<string, string>, guarantee: seq<string>)
    ensures var b := NotExcluded(NotEmpty(m));
            && PartOf(NotEmpty(m), m) && PartOf(b, NotEmpty(m))
            && PartOf(Sure(m, guarantee), b) && PartOf(Spare(m, guarantee), b)
            && forall k :: k in b <==> k in Sure(m, guarantee) || k in Spare(m, guarantee)
    ensures Spare(m, guarantee).Keys !! Sure(m, guarantee).Keys
    ensures forall k :: k in Spare(m, guarantee) ==> Matches(Label, k)
  {
    hide Matches;
  }

  lemma FittedShrinks(spare: map<string, string>, room: int)
    ensures PartOf(Slimmed(spare, room), spare) && PartOf(Fitted(spare, room), Slimmed(spare, room))
  {
    hide Dropped, Wins;
  }

  /** The kept tags are tags of the input, with their values. */
  lemma KeptAreInput(m: map<string, string>, guarantee: seq<string>, maxCapacity: int)
    ensures PartOf(Cleaned(m, guarantee, maxCapacity), m)
  {
    hide NotEmpty, NotExcluded, Sure, Spare, Slimmed, Fitted;
    StagesShrink(m, guarantee);
    FittedShrinks(Spare(m, guarantee), maxCapacity - |Sure(m, guarantee)|);
  }

  /** A tag that is guaranteed or no label survives if and only if it is not empty and not excluded. */
  lemma GuaranteedSurvive(m: map<string, string>, guarantee: seq<string>, maxCapacity: int, k: string)
    requires k in m && (k in guarantee || !Matches(Label, k))
    ensures k in Cleaned(m, guarantee, maxCapacity) <==> !IsAnEmptyTag(m[k]) && k !in EXCLUDE_LIST
  {
    var b := NotExcluded(NotEmpty(m));
    assert k in b <==> !IsAnEmptyTag(m[k]) && k !in EXCLUDE_LIST;
    hide NotEmpty, NotExcluded, Fitted, Matches, Slimmed;
    StagesShrink(m, guarantee);
    FittedShrinks(Spare(m, guarantee), maxCapacity - |Sure(m, guarantee)|);
  }

  /**
   The list of guaranteed names keeps all its tags that are not empty, if and only if none of them is
   excluded; with room for everything, the tag `hostname` is lost although it is guaranteed.
   */
  lemma GuaranteeKeepsIff(m: map<string, string>, guarantee: seq<string>, maxCapacity: int)
    ensures (forall k :: k in guarantee && k in NotEmpty(m) ==> k in Cleaned(m, guarantee, maxCapacity))
            <==> forall k :: k in guarantee && k in NotEmpty(m) ==> k !in EXCLUDE_LIST
    ensures "hostname" in NotEmpty(map["hostname" := "a"])
            && "hostname" !in Cleaned(map["hostname" := "a"], ["hostname"], 20)
  {
    assert forall k :: k in NotEmpty(m) <==> k in m && !IsAnEmptyTag(m[k]);
    GuaranteedSurvive(map["hostname" := "a"], ["hostname"], 20, "hostname");
    assert "hostname" in NotEmpty(map["hostname" := "a"]) && EXCLUDE_LIST[3] == "hostname";
    hide NotEmpty, Cleaned, Matches, IsAnEmptyTag, EXCLUDE_LIST;
    forall k | k in guarantee && k in NotEmpty(m)
      ensures k in Cleaned(m, guarantee, maxCapacity) <==> k !in EXCLUDE_LIST
    {
      GuaranteedSurvive(m, guarantee, maxCapacity, k);
    }
  }

  lemma {:induction false} DistinctSize(s: seq<string>)
    requires Distinct(s)
    ensures |set k | k in s| == |s|
  {
    if s != [] {
      var t := s[..|s| - 1];
      DistinctSize(t);
      assert (set k | k in s) == (set k | k in t) + {s[|s| - 1]};
    }
  }

  lemma WithoutSize(m: map<string, string>, names: seq<string>)
    requires Distinct(names) && forall k :: k in names ==> k in m
    ensures |Without(m, names)| == |m| - |names|
  {
    DistinctSize(names);
    var gone := set k | k in names;
    assert Without(m, names).Keys == m.Keys - gone;
    assert gone <= m.Keys;
    assert |m.Keys - gone| == |m.Keys| - |gone|;
  }

  lemma DroppedIs(m: map<string, string>, p: Pattern, n: int)
    ensures var r := Dropped(m, p, n);
            && Distinct(r) && (forall k :: k in r ==> k in m && Matches(p, k))
            && |r| <= (if n > 0 then n else 0)
            && (|r| < n ==> forall k :: k in m && Matches(p, k) ==> k in r)
            && |Without(m, r)| == |m| - |r|
  {
    hide Matches;
    FirstMatchingIs(SortedNames(m), p, n);
    WithoutSize(m, Dropped(m, p, n));
  }

  lemma PhaseStopsAtRoom(m: map<string, string>, p: Pattern, room: int)
    requires |m| >= room
    ensures var m' := Without(m, Dropped(m, p, |m| - room));
            |m'| >= room && forall k :: k in m' ==> k in m
  {
    hide Matches, Dropped;
    DroppedIs(m, p, |m| - room);
  }

  lemma LastPhaseReachesRoom(m: map<string, string>, room: int)
    requires |m| >= room && forall k :: k in m ==> Matches(Label, k)
    ensures |Without(m, Dropped(m, Label, |m| - room))| == if room > 0 then room else 0
  {
    hide Matches, Dropped, Without;
    var r := Dropped(m, Label, |m| - room);
    DroppedIs(m, Label, |m| - room);
    if |r| < |m| - room {
      NothingWithout(m, r);
    }
  }

  lemma NothingWithout(m: map<string, string>, names: seq<string>)
    requires forall k :: k in m ==> k in names
    ensures |Without(m, names)| == 0
  {
    assert Without(m, names) == map[];
  }

  /** Trimming labels leaves exactly as many as there is room for, and none when there is no room. */
  lemma TrimmedSize(m: map<string, string>, room: int)
    requires |m| > room && forall k :: k in m ==> Matches(Label, k)
    ensures |Trimmed(m, room)| == if room > 0 then room else 0
  {
    hide Matches, Dropped, Without;
    var m1 := Without(m, Dropped(m, AlphaBeta, |m| - room));
    var m2 := Without(m1, Dropped(m1, Iaas, |m1| - room));
    PhaseStopsAtRoom(m, AlphaBeta, room);
    PhaseStopsAtRoom(m1, Iaas, room);
    LastPhaseReachesRoom(m2, room);
  }

  /**
   The result never has more tags than the capacity or, when that is more, the guaranteed ones; when the
   over-capacity phases run, it has exactly that many.
   */
  lemma CleanedSize(m: map<string, string>, guarantee: seq<string>, maxCapacity: int, reasons: Removals)
    requires Accounts(reasons, m, guarantee, maxCapacity)
    ensures var bound := if maxCapacity > |Sure(m, guarantee)| then maxCapacity else |Sure(m, guarantee)|;
            && |Cleaned(m, guarantee, maxCapacity)| <= bound
            && (WasExtra in reasons ==> |Cleaned(m, guarantee, maxCapacity)| == bound)
  {
    hide *;
    var sure, spare := Sure(m, guarantee), Spare(m, guarantee);
    CleanedCount(m, guarantee, maxCapacity);
    SpareAreLabels(m, guarantee);
    FittedSize(spare, maxCapacity - |sure|);
    ExtraMeansOver(m, guarantee, maxCapacity, reasons);
  }

  lemma SpareAreLabels(m: map<string, string>, guarantee: seq<string>)
    ensures forall k :: k in Spare(m, guarantee) ==> Matches(Label, k)
  {
    hide *;
    StagesShrink(m, guarantee);
  }

  lemma CleanedCount(m: map<string, string>, guarantee: seq<string>, maxCapacity: int)
    ensures |Cleaned(m, guarantee, maxCapacity)|
            == |Fitted(Spare(m, guarantee), maxCapacity - |Sure(m, guarantee)|)| + |Sure(m, guarantee)|
  {
    hide *;
    var sure, spare := Sure(m, guarantee), Spare(m, guarantee);
    var room := maxCapacity - |sure|;
    CleanedIs(m, guarantee, maxCapacity);
    SpareIsNotSure(m, guarantee);
    FittedShrinks(spare, room);
    ShrinksKeys(Fitted(spare, room), Slimmed(spare, room), spare);
    DisjointUnionSize(Fitted(spare, room), sure);
  }

  lemma SpareIsNotSure(m: map<string, string>, guarantee: seq<string>)
    ensures Spare(m, guarantee).Keys !! Sure(m, guarantee).Keys
  {
    hide *;
    StagesShrink(m, guarantee);
  }

  lemma CleanedIs(m: map<string, string>, guarantee: seq<string>, maxCapacity: int)
    ensures Cleaned(m, guarantee, maxCapacity)
            == Both(Fitted(Spare(m, guarantee), maxCapacity - |Sure(m, guarantee)|), Sure(m, guarantee))
  {
  }

  lemma ShrinksKeys(a: map<string, string>, b: map<string, string>, c: map<string, string>)
    requires PartOf(a, b) && PartOf(b, c)
    ensures a.Keys <= c.Keys
  {
  }

  lemma ExtraMeansOver(m: map<string, string>, guarantee: seq<string>, maxCapacity: int, reasons: Removals)
    requires Accounts(reasons, m, guarantee, maxCapacity)
    ensures var room := maxCapacity - |Sure(m, guarantee)|;
            WasExtra in reasons <==> |Slimmed(Spare(m, guarantee), room)| > room
  {
    hide Sure, Spare, NotEmpty, NotExcluded, Slimmed, TrimAccounts, ListsGap;
  }

  lemma FittedSize(spare: map<string, string>, room: int)
    requires forall k :: k in spare ==> Matches(Label, k)
    ensures if |Slimmed(spare, room)| > room then |Fitted(spare, room)| == if room > 0 then room else 0
            else |Fitted(spare, room)| <= room
  {
    hide Matches, Trimmed, Slimmed;
    FittedShrinks(spare, room);
    if |Slimmed(spare, room)| > room {
      TrimmedSize(Slimmed(spare, room), room);
    }
  }

  lemma DisjointUnionSize(a: map<string, string>, b: map<string, string>)
    requires a.Keys !! b.Keys
    ensures |Both(a, b)| == |a| + |b|
  {
    assert (a + b).Keys == a.Keys + b.Keys;
    assert |a.Keys + b.Keys| == |a.Keys| + |b.Keys|;
  }

  /** A plain label goes only when no alpha/beta and no IaaS label is left, an IaaS label only when no alpha/beta is. */
  lemma SacrificeOrder(m: map<string, string>, guarantee: seq<string>, maxCapacity: int, reasons: Removals)
    requires Accounts(reasons, m, guarantee, maxCapacity)
    ensures var left := Fitted(Spare(m, guarantee), maxCapacity - |Sure(m, guarantee)|);
            && (WasExtra in reasons && reasons[WasExtra] != [] ==>
                  forall k :: k in left ==> !Matches(AlphaBeta, k) && !Matches(Iaas, k))
            && (WasIaas in reasons && reasons[WasIaas] != [] ==> forall k :: k in left ==> !Matches(AlphaBeta, k))
  {
    hide Matches, Spare, Sure, Deduped, ListsGap, Dropped;
    var room := maxCapacity - |Sure(m, guarantee)|;
    var d := Slimmed(Spare(m, guarantee), room);
    if |d| > room {
      TrimOrder(d, room);
    }
  }

  lemma TrimOrder(d: map<string, string>, room: int)
    ensures var d1 := Without(d, Dropped(d, AlphaBeta, |d| - room));
            var d2 := Without(d1, Dropped(d1, Iaas, |d1| - room));
            && (Dropped(d2, Label, |d2| - room) != [] ==>
                  forall k :: k in Trimmed(d, room) ==> !Matches(AlphaBeta, k) && !Matches(Iaas, k))
            && (Dropped(d1, Iaas, |d1| - room) != [] ==>
                  forall k :: k in Trimmed(d, room) ==> !Matches(AlphaBeta, k))
  {
    hide Matches, Dropped;
    var d1 := Without(d, Dropped(d, AlphaBeta, |d| - room));
    var d2 := Without(d1, Dropped(d1, Iaas, |d1| - room));
    DroppedIs(d, AlphaBeta, |d| - room);
    DroppedIs(d1, Iaas, |d1| - room);
    DroppedIs(d2, Label, |d2| - room);
  }

  /** k is on the list of reason r. */
  ghost predicate IsListed(reasons: Removals, r: Reason, k: string) {
    r in reasons && k in reasons[r]
  }

  lemma TrimPartition(reasons: Removals, d: map<string, string>, room: int, k: string)
    requires TrimAccounts(reasons, d, room)
    ensures k in d <==> k in Trimmed(d, room) || IsListed(reasons, WasAlphaBeta, k) || IsListed(reasons, WasIaas, k)
                        || IsListed(reasons, WasExtra, k)
    ensures IsListed(reasons, WasAlphaBeta, k) ==> !IsListed(reasons, WasIaas, k) && !IsListed(reasons, WasExtra, k)
    ensures IsListed(reasons, WasIaas, k) ==> !IsListed(reasons, WasExtra, k)
    ensures k in Trimmed(d, room) ==> !IsListed(reasons, WasAlphaBeta, k) && !IsListed(reasons, WasIaas, k)
                                      && !IsListed(reasons, WasExtra, k)
    ensures Distinct(reasons[WasAlphaBeta]) && Distinct(reasons[WasIaas]) && Distinct(reasons[WasExtra])
  {
    hide Matches, Dropped;
    var d1 := Without(d, Dropped(d, AlphaBeta, |d| - room));
    var d2 := Without(d1, Dropped(d1, Iaas, |d1| - room));
    DroppedIs(d, AlphaBeta, |d| - room);
    DroppedIs(d1, Iaas, |d1| - room);
    DroppedIs(d2, Label, |d2| - room);
  }

  lemma FitPartition(reasons: Removals, spare: map<string, string>, room: int, k: string)
    requires FitAccounts(reasons, spare, room)
    ensures k in spare <==> k in Fitted(spare, room) || exists r :: r in FIT_REASONS && IsListed(reasons, r, k)
    ensures k in Fitted(spare, room) ==> forall r :: r in FIT_REASONS ==> !IsListed(reasons, r, k)
    ensures forall r, q :: r in FIT_REASONS && q in FIT_REASONS && IsListed(reasons, r, k) && IsListed(reasons, q, k) ==> r == q
    ensures forall r :: r in FIT_REASONS && r in reasons ==> Distinct(reasons[r])
  {
    hide Trimmed, TrimAccounts, Distinct;
    var d := Slimmed(spare, room);
    FittedShrinks(spare, room);
    SlimmedOnly(spare, room);
    hide Slimmed;
    if |d| > room {
      TrimPartition(reasons, d, room, k);
    }
    assert k in spare && k !in Fitted(spare, room) ==>
        IsListed(reasons, WasDuplicate, k)
        || IsListed(reasons, WasAlphaBeta, k) || IsListed(reasons, WasIaas, k) || IsListed(reasons, WasExtra, k);
  }

  const FIT_REASONS: set<Reason> := {WasDuplicate, WasAlphaBeta, WasIaas, WasExtra}

  /** Kept tags and the lists of the reasons partition the input; no list names a tag twice. */
  lemma RemovalsPartition(m: map<string, string>, guarantee: seq<string>, maxCapacity: int, reasons: Removals, k: string)
    requires Accounts(reasons, m, guarantee, maxCapacity)
    ensures k in m <==> k in Cleaned(m, guarantee, maxCapacity) || exists r :: IsListed(reasons, r, k)
    ensures k in Cleaned(m, guarantee, maxCapacity) ==> forall r :: !IsListed(reasons, r, k)
    ensures forall r, q :: IsListed(reasons, r, k) && IsListed(reasons, q, k) ==> r == q
    ensures forall r :: r in reasons ==> Distinct(reasons[r])
  {
    hide *;
    var spare, room := Spare(m, guarantee), maxCapacity - |Sure(m, guarantee)|;
    Membership(m, guarantee, maxCapacity, k);
    FirstLists(m, guarantee, maxCapacity, reasons, k);
    FitPartition(reasons, spare, room, k);
    AllReasons();
  }

  lemma AllReasons()
    ensures forall r: Reason :: r == WasEmpty || r == WasExcluded || r in FIT_REASONS
    ensures WasEmpty !in FIT_REASONS && WasExcluded !in FIT_REASONS
  {
  }

  /** Where a tag is at each stage. */
  lemma Membership(m: map<string, string>, guarantee: seq<string>, maxCapacity: int, k: string)
    ensures var a := NotEmpty(m);
            var b := NotExcluded(a);
            var sure, spare := Sure(m, guarantee), Spare(m, guarantee);
            var fitted := Fitted(spare, maxCapacity - |sure|);
            && (k in a ==> k in m) && (k in b ==> k in a)
            && (k in b <==> k in sure || k in spare) && !(k in sure && k in spare)
            && (k in fitted ==> k in spare)
            && (k in Cleaned(m, guarantee, maxCapacity) <==> k in fitted || k in sure)
  {
    hide *;
    var spare, sure := Spare(m, guarantee), Sure(m, guarantee);
    var room := maxCapacity - |sure|;
    StageOf(m, guarantee, k);
    FittedShrinks(spare, room);
    ShrinksKeys(Fitted(spare, room), Slimmed(spare, room), spare);
    CleanedIs(m, guarantee, maxCapacity);
    InBoth(Fitted(spare, room), sure, k);
  }

  lemma InBoth(a: map<string, string>, b: map<string, string>, k: string)
    ensures k in Both(a, b) <==> k in a || k in b
  {
  }

  lemma StageOf(m: map<string, string>, guarantee: seq<string>, k: string)
    ensures var a := NotEmpty(m);
            var b := NotExcluded(a);
            var sure, spare := Sure(m, guarantee), Spare(m, guarantee);
            && (k in a ==> k in m) && (k in b ==> k in a)
            && (k in b <==> k in sure || k in spare) && !(k in sure && k in spare)
  {
    hide Sure, Spare, NotEmpty, NotExcluded, Matches;
    StagesShrink(m, guarantee);
  }

  lemma FirstLists(m: map<string, string>, guarantee: seq<string>, maxCapacity: int, reasons: Removals, k: string)
    requires Accounts(reasons, m, guarantee, maxCapacity)
    ensures IsListed(reasons, WasEmpty, k) <==> k in m && k !in NotEmpty(m)
    ensures IsListed(reasons, WasExcluded, k) <==> k in NotEmpty(m) && k !in NotExcluded(NotEmpty(m))
    ensures FitAccounts(reasons, Spare(m, guarantee), maxCapacity - |Sure(m, guarantee)|)
    ensures WasEmpty in reasons && Distinct(reasons[WasEmpty])
    ensures WasExcluded in reasons && Distinct(reasons[WasExcluded])
  {
    hide NotEmpty, NotExcluded, Sure, Spare, FitAccounts, Distinct;
  }

  lemma SlimmedOnly(spare: map<string, string>, room: int)
    ensures |spare| <= room ==> Slimmed(spare, room) == spare
  {
  }
}
