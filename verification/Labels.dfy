/**
 Joining the labels of a pod into one metric label (LabelCopier.Copy) and splitting that label into
 tags again (pointConverter.addLabelTags).
 */
module Labels {
  import opened Bags
  import opened StringMaps
  import opened Strings

  const LABELS := "labels"
  const PREFIX := "label."

  // ---- joining --------------------------------------------------------------------------------

  function Entry(key: string, value: string): string {
    key + ":" + value
  }

  /** The labels that take part in the joined label. */
  function Shown(m: map<string, string>, ignored: set<string>): map<string, string> {
    m - ignored
  }

  /** One entry for every label, as a bag. */
  ghost function Entries(m: map<string, string>): multiset<string> {
    if m == map[] then multiset{}
    else
      var k :| k in m;
      Entries(m - {k}) + multiset{Entry(k, m[k])}
  }

  lemma EntriesPick(m: map<string, string>) returns (j: string)
    requires m != map[]
    ensures j in m && Entries(m) == Entries(m - {j}) + multiset{Entry(j, m[j])}
  {
    hide Entry;
    j :| j in m && Entries(m) == Entries(m - {j}) + multiset{Entry(j, m[j])};
  }

  lemma {:induction false} EntriesAt(m: map<string, string>, k: string)
    requires k in m
    ensures Entries(m) == Entries(m - {k}) + multiset{Entry(k, m[k])}
    decreases |m|
  {
    hide Entry, Entries;
    var j := EntriesPick(m);
    if j != k {
      var mj, mk := m - {j}, m - {k};
      EntriesAt(mj, k);
      EntriesAt(mk, j);
      var x, y := multiset{Entry(k, m[k])}, multiset{Entry(j, m[j])};
      assert mj - {k} == mk - {j};
      Swap(Entries(mk - {j}), x, y);
      assert Entries(mk) == Entries(mk - {j}) + y;
    }
  }

  ghost predicate IsEntry(e: string, m: map<string, string>) {
    exists k :: k in m && e == Entry(k, m[k])
  }

  lemma {:induction false} EntriesAre(m: map<string, string>)
    ensures forall e :: e in Entries(m) <==> IsEntry(e, m)
    decreases |m|
  {
    hide Entry;
    if m != map[] {
      var k := EntriesPick(m);
      EntriesAre(m - {k});
      forall e
        ensures e in Entries(m) <==> IsEntry(e, m)
      {
        assert e in Entries(m) <==> e in Entries(m - {k}) || e == Entry(k, m[k]);
        if j :| j in m && e == Entry(j, m[j]) {
          assert j == k || (j in m - {k} && e == Entry(j, (m - {k})[j]));
        }
      }
    }
  }

  /** text joins the entries of m in increasing order. */
  ghost predicate Joins(text: string, m: map<string, string>, sep: string) {
    exists s :: Sorted(s) && multiset(s) == Entries(m) && text == Join(s, sep)
  }

  /** The joined text does not depend on the order in which the map was walked. */
  lemma JoinedIsUnique(t: string, u: string, m: map<string, string>, sep: string)
    requires Joins(t, m, sep) && Joins(u, m, sep)
    ensures t == u
  {
    var r :| Sorted(r) && multiset(r) == Entries(m) && t == Join(r, sep);
    var s :| Sorted(s) && multiset(s) == Entries(m) && u == Join(s, sep);
    SortedIsUnique(r, s);
  }

  class LabelCopier {
    const labelSeparator: string
    const storedLabels: map<string, string>
    const ignoredLabels: set<string>

    constructor (labelSeparator: string, storedLabels: map<string, string>, ignoredLabels: set<string>)
      ensures this.labelSeparator == labelSeparator && this.storedLabels == storedLabels
      ensures this.ignoredLabels == ignoredLabels
    {
      this.labelSeparator, this.storedLabels, this.ignoredLabels := labelSeparator, storedLabels, ignoredLabels;
    }

    /** Some label of from is also stored under name, there with value v. */
    ghost predicate Stores(from: map<string, string>, name: string, v: string) {
      exists k :: k in from && k in storedLabels && storedLabels[k] == name && from[k] == v
    }

    /** out holds a stored value under each name that has one, and is as before elsewhere. */
    ghost predicate Stored(from: map<string, string>, before: map<string, string>, out: map<string, string>) {
      forall name ::
        (name in out && Stores(from, name, out[name]))
        || ((forall v :: !Stores(from, name, v)) && (name in out <==> name in before) && (name in out ==> out[name] == before[name]))
    }

    lemma StoreNext(done: map<string, string>, k: string, value: string, before: map<string, string>, out: map<string, string>)
      requires k !in done && Stored(done, before, out)
      ensures Stored(done[k := value], before, if k in storedLabels then out[storedLabels[k] := value] else out)
    {
      var next := done[k := value];
      var out' := if k in storedLabels then out[storedLabels[k] := value] else out;
      forall name, v
        ensures Stores(next, name, v) <==> Stores(done, name, v) || (k in storedLabels && storedLabels[k] == name && v == value)
      {
        if j :| j in done && j in storedLabels && storedLabels[j] == name && done[j] == v {
          assert next[j] == v;
        }
        if k in storedLabels && storedLabels[k] == name && v == value {
          assert next[k] == v;
        }
      }
      hide Stores;
      forall name
        ensures (name in out' && Stores(next, name, out'[name]))
                || ((forall v :: !Stores(next, name, v)) && (name in out' <==> name in before) && (name in out' ==> out'[name] == before[name]))
      {
      }
    }

    method Copy(from: map<string, string>, out: StringMap)
      modifies out
      ensures LABELS in out.m && Joins(out.m[LABELS], Shown(from, ignoredLabels), labelSeparator)
      ensures exists stored :: Stored(from, old(out.m), stored) && out.m == stored[LABELS := out.m[LABELS]]
    {
      hide Stored, Entries, Entry, Shown, Joins, Sort, Join;
      var labels := [];
      var todo := from.Keys;
      CopyStart(from, out.m);
      while todo != {}
        invariant todo <= from.Keys
        invariant multiset(labels) == Entries(Shown(from - todo, ignoredLabels))
        invariant Stored(from - todo, old(out.m), out.m)
        decreases |todo|
      {
        var key :| key in todo;
        var value := from[key];
        DoneNext(from, todo, key);
        StoreNext(from - todo, key, value, old(out.m), out.m);
        if key in storedLabels {
          out.m := out.m[storedLabels[key] := value];
        }
        AddEntry(from, todo, key, ignoredLabels);
        if key !in ignoredLabels {
          labels := labels + [Entry(key, value)];
        }
        todo := todo - {key};
      }
      assert from - todo == from;
      var joined := Join(Sort(labels), labelSeparator);
      SortedJoins(labels, Shown(from, ignoredLabels), labelSeparator);
      out.m := out.m[LABELS := joined];
    }

    lemma CopyStart(from: map<string, string>, before: map<string, string>)
      ensures Stored(from - from.Keys, before, before)
      ensures Entries(Shown(from - from.Keys, ignoredLabels)) == multiset{}
    {
      assert from - from.Keys == map[];
      assert Shown(map[], ignoredLabels) == map[];
    }
  }

  lemma SortedJoins(labels: seq<string>, m: map<string, string>, sep: string)
    requires multiset(labels) == Entries(m)
    ensures Joins(Join(Sort(labels), sep), m, sep)
  {
    SortSorts(labels);
  }

  lemma DoneNext(m: map<string, string>, todo: set<string>, k: string)
    requires k in todo && todo <= m.Keys
    ensures m - (todo - {k}) == (m - todo)[k := m[k]]
  {
  }

  lemma AddEntry(m: map<string, string>, todo: set<string>, k: string, ignored: set<string>)
    requires k in todo && todo <= m.Keys
    ensures Entries(Shown(m - (todo - {k}), ignored))
            == Entries(Shown(m - todo, ignored)) + if k in ignored then multiset{} else multiset{Entry(k, m[k])}
  {
    var before, after := Shown(m - todo, ignored), Shown(m - (todo - {k}), ignored);
    if k in ignored {
      assert after == before;
    } else {
      assert after - {k} == before;
      EntriesAt(after, k);
    }
  }

  // ---- splitting ------------------------------------------------------------------------------

  /** The tags that one part of the joined text adds. */
  function AddPart(tags: map<string, string>, part: string): map<string, string> {
    var t := SplitTwo(part, ':');
    if |t| == 2 then tags[PREFIX + t[0] := t[1]] else tags
  }

  function AddParts(tags: map<string, string>, parts: seq<string>): map<string, string> {
    if parts == [] then tags else AddPart(AddParts(tags, parts[..|parts| - 1]), parts[|parts| - 1])
  }

  /** The tags of a joined text. */
  function LabelTags(text: string): map<string, string> {
    AddParts(map[], Split(text, ','))
  }

  lemma {:induction false} AddPartsUnion(tags: map<string, string>, parts: seq<string>)
    ensures AddParts(tags, parts) == tags + AddParts(map[], parts)
  {
    if parts != [] {
      AddPartsUnion(tags, parts[..|parts| - 1]);
    }
  }

  method AddLabelParts(text: string, tags: StringMap)
    modifies tags
    ensures tags.m == old(tags.m) + LabelTags(text)
  {
    var parts := Split(text, ',');
    for i := 0 to |parts|
      invariant tags.m == AddParts(old(tags.m), parts[..i])
    {
      assert parts[..i + 1][..i] == parts[..i];
      var tagParts := SplitTwo(parts[i], ':');
      if |tagParts| == 2 {
        tags.m := tags.m[PREFIX + tagParts[0] := tagParts[1]];
      }
    }
    assert parts[..|parts|] == parts;
    AddPartsUnion(old(tags.m), parts);
  }

  /** What addLabelTags makes of a set's labels: the joined label wins over single labels. */
  ghost function TagsOf(labels: map<string, string>): map<string, string> {
    labels - {LABELS} + if LABELS in labels then LabelTags(labels[LABELS]) else map[]
  }

  /**
   addLabelTags walks the labels in increasing order; no label behind "labels" can be named like one
   that the joined label gives, so the walk amounts to one union.
   */
  method AddLabelTags(labels: map<string, string>, tags: StringMap)
    modifies tags
    ensures tags.m == old(tags.m) + TagsOf(labels)
  {
    var names := SortedKeys(labels);
    var i := 0;
    NoTags(labels);
    hide TagsOf, LabelTags, Chosen, Sorted;
    while i < |names|
      invariant 0 <= i <= |names|
      invariant tags.m == old(tags.m) + TagsOf(Chosen(labels, names[..i]))
    {
      var name := names[i];
      NextName(labels, names, i);
      if name == LABELS {
        AddLabelParts(labels[name], tags);
      } else {
        tags.m := tags.m[name := labels[name]];
      }
      i := i + 1;
    }
    assert names[..i] == names;
    AllChosen(labels, names);
  }

  lemma NoTags(m: map<string, string>)
    ensures TagsOf(Chosen(m, [][..0])) == map[]
  {
  }

  lemma AllChosen(m: map<string, string>, names: seq<string>)
    requires forall k :: k in names <==> k in m
    ensures Chosen(m, names) == m
  {
  }

  ghost function Chosen(m: map<string, string>, names: seq<string>): map<string, string> {
    map k | k in names && k in m :: m[k]
  }

  lemma NextName(labels: map<string, string>, names: seq<string>, i: nat)
    requires i < |names| && Sorted(names) && Distinct(names) && forall k :: k in names ==> k in labels
    ensures var before, after := Chosen(labels, names[..i]), Chosen(labels, names[..i + 1]);
            if names[i] == LABELS then TagsOf(after) == TagsOf(before) + LabelTags(labels[LABELS])
            else TagsOf(after) == TagsOf(before)[names[i] := labels[names[i]]]
  {
    hide LabelTags, AtMost, Chosen, Sorted;
    var name := names[i];
    var before, after := Chosen(labels, names[..i]), Chosen(labels, names[..i + 1]);
    ChosenNext(labels, names, i);
    if name == LABELS {
      assert after - {LABELS} == before == before - {LABELS};
    } else {
      assert after - {LABELS} == (before - {LABELS})[name := labels[name]];
      if LABELS in before {
        BehindLabels(name, before[LABELS]);
        PutUnion(before - {LABELS}, name, labels[name], LabelTags(before[LABELS]));
      } else {
        assert TagsOf(before) == before - {LABELS};
      }
    }
  }

  lemma ChosenNext(labels: map<string, string>, names: seq<string>, i: nat)
    requires i < |names| && Sorted(names) && Distinct(names) && forall k :: k in names ==> k in labels
    ensures var before, after := Chosen(labels, names[..i]), Chosen(labels, names[..i + 1]);
            && after == before[names[i] := labels[names[i]]] && names[i] !in before
            && (LABELS in before ==> before[LABELS] == labels[LABELS] && AtMost(LABELS, names[i]))
  {
    var before, after := Chosen(labels, names[..i]), Chosen(labels, names[..i + 1]);
    assert names[..i + 1] == names[..i] + [names[i]];
    assert names[i] !in names[..i];
    if LABELS in before {
      var j :| 0 <= j < i && names[j] == LABELS;
    }
  }

  lemma PutUnion(m: map<string, string>, k: string, v: string, u: map<string, string>)
    requires k !in u
    ensures m[k := v] + u == (m + u)[k := v]
  {
  }

  lemma {:induction false} TagsStart(parts: seq<string>, k: string)
    requires k in AddParts(map[], parts)
    ensures PREFIX <= k
  {
    if k in AddParts(map[], parts[..|parts| - 1]) {
      TagsStart(parts[..|parts| - 1], k);
    }
  }

  /** A name behind "labels" is not the name of a label tag. */
  lemma BehindLabels(name: string, text: string)
    requires AtMost(LABELS, name) && name != LABELS
    ensures name !in LabelTags(text)
  {
    if name in LabelTags(text) {
      TagsStart(Split(text, ','), name);
      PrefixBelow(name);
      AtMostTotal(LABELS, name);
    }
  }

  lemma PrefixBelow(name: string)
    requires PREFIX <= name
    ensures AtMost(name, LABELS)
  {
    assert name == PREFIX + name[6..];
    var n1, n2, n3, n4, n5 := name[1..], name[2..], name[3..], name[4..], name[5..];
    var l1, l2, l3, l4, l5 := LABELS[1..], LABELS[2..], LABELS[3..], LABELS[4..], LABELS[5..];
    assert n5[0] == '.' && l5[0] == 's';
    assert AtMost(n5, l5);
    assert n4[1..] == n5 && l4[1..] == l5 && n3[1..] == n4 && l3[1..] == l4;
    assert n2[1..] == n3 && l2[1..] == l3 && n1[1..] == n2 && l1[1..] == l2;
    assert AtMost(n4, l4);
    assert AtMost(n3, l3);
    assert AtMost(n2, l2);
    assert AtMost(n1, l1);
  }

  // ---- round trip -----------------------------------------------------------------------------

  /** What Kubernetes guarantees of label keys and values. */
  predicate Plain(m: map<string, string>) {
    forall k :: k in m ==> ',' !in k && ':' !in k && ',' !in m[k]
  }

  /** The tags the labels are meant to become. */
  ghost function Wanted(m: map<string, string>): map<string, string> {
    map name | name in (set k | k in m :: PREFIX + k) :: m[name[|PREFIX|..]]
  }

  lemma WantedAt(m: map<string, string>, k: string)
    ensures PREFIX + k in Wanted(m) <==> k in m
    ensures k in m ==> Wanted(m)[PREFIX + k] == m[k]
  {
    assert (PREFIX + k)[|PREFIX|..] == k;
    if PREFIX + k in Wanted(m) {
      var j :| j in m && PREFIX + j == PREFIX + k;
      assert (PREFIX + j)[|PREFIX|..] == j;
    }
  }

  lemma SplitEntry(k: string, v: string)
    requires ':' !in k
    ensures SplitTwo(Entry(k, v), ':') == [k, v]
  {
    var e := Entry(k, v);
    assert e[|k|] == ':';
    FirstIs(e, ':', |k|);
    assert e[..|k|] == k && e[|k| + 1..] == v;
  }

  lemma FirstIs(s: string, c: char, i: nat)
    requires i < |s| && s[i] == c && c !in s[..i]
    ensures c in s && First(s, c) == i
  {
  }

  lemma {:induction false} PartsAreLabels(m: map<string, string>, parts: seq<string>)
    requires Plain(m) && forall p :: p in parts ==> IsEntry(p, m)
    ensures var tags := AddParts(map[], parts);
            && (forall name :: name in tags ==> name in Wanted(m) && tags[name] == Wanted(m)[name])
            && (forall k :: k in m && Entry(k, m[k]) in parts ==> PREFIX + k in tags)
  {
    hide Wanted, SplitTwo;
    if parts != [] {
      var init, p := parts[..|parts| - 1], parts[|parts| - 1];
      assert forall q :: q in init ==> q in parts;
      PartsAreLabels(m, init);
      assert IsEntry(p, m);
      var k :| k in m && p == Entry(k, m[k]);
      SplitEntry(k, m[k]);
      WantedAt(m, k);
      forall j | j in m && Entry(j, m[j]) in parts
        ensures PREFIX + j in AddParts(map[], parts)
      {
        if Entry(j, m[j]) !in init {
          assert Entry(j, m[j]) == p;
          SplitEntry(j, m[j]);
        }
      }
    }
  }

  lemma EntryPlain(k: string, v: string)
    ensures ',' in Entry(k, v) <==> ',' in k || ',' in v
  {
    if ',' in k {
      var i :| 0 <= i < |k| && k[i] == ',';
      assert Entry(k, v)[i] == ',';
    }
    if ',' in v {
      var i :| 0 <= i < |v| && v[i] == ',';
      assert Entry(k, v)[|k| + 1 + i] == ',';
    }
  }

  /** Plain labels survive: the joined text splits into exactly the wanted tags. */
  lemma PlainSurvive(m: map<string, string>, text: string)
    requires Plain(m) && Joins(text, m, ",")
    ensures LabelTags(text) == Wanted(m)
  {
    hide Entries, Wanted, IsEntry, AddParts;
    var s :| Sorted(s) && multiset(s) == Entries(m) && text == Join(s, ",");
    EntriesAre(m);
    assert forall e :: e in s <==> e in multiset(s);
    if s == [] {
      NoLabels(m);
    } else {
      EntriesPlain(m, s);
      SplitJoin(s, ',');
      AllPartsWanted(m, s);
    }
  }

  lemma EntriesPlain(m: map<string, string>, s: seq<string>)
    requires Plain(m) && forall e :: e in s ==> IsEntry(e, m)
    ensures forall e :: e in s ==> ',' !in e
  {
    forall e | e in s
      ensures ',' !in e
    {
      assert IsEntry(e, m);
      var k :| k in m && e == Entry(k, m[k]);
      EntryPlain(k, m[k]);
    }
  }

  lemma AllPartsWanted(m: map<string, string>, s: seq<string>)
    requires Plain(m) && forall e :: e in s <==> IsEntry(e, m)
    ensures AddParts(map[], s) == Wanted(m)
  {
    PartsAreLabels(m, s);
    var tags := AddParts(map[], s);
    forall name | name in Wanted(m)
      ensures name in tags
    {
      var k :| k in m && name == PREFIX + k;
      assert IsEntry(Entry(k, m[k]), m);
    }
    assert tags.Keys == Wanted(m).Keys;
  }

  lemma NoLabels(m: map<string, string>)
    requires Entries(m) == multiset{}
    ensures LabelTags("") == Wanted(m) == map[]
  {
    assert m == map[];
    assert AddParts(map[], [""][..0]) == map[];
  }

  /** Whatever the text, a tag never has a comma, nor its name a comma or colon behind the prefix. */
  lemma {:induction false} TagsArePlain(parts: seq<string>)
    requires forall p :: p in parts ==> ',' !in p
    ensures forall k :: PREFIX + k in AddParts(map[], parts) ==>
              ',' !in k && ':' !in k && ',' !in AddParts(map[], parts)[PREFIX + k]
  {
    if parts != [] {
      var init, p := parts[..|parts| - 1], parts[|parts| - 1];
      TagsArePlain(init);
      var t := SplitTwo(p, ':');
      forall k | PREFIX + k in AddParts(map[], parts)
        ensures ',' !in k && ':' !in k && ',' !in AddParts(map[], parts)[PREFIX + k]
      {
        if |t| == 2 && PREFIX + k == PREFIX + t[0] {
          assert (PREFIX + k)[|PREFIX|..] == k && (PREFIX + t[0])[|PREFIX|..] == t[0];
          assert forall c :: c in t[0] || c in t[1] ==> c in p;
        }
      }
    }
  }

  /** Joining and splitting gives every label back exactly when the labels are plain. */
  lemma LabelRoundTrip(m: map<string, string>, text: string)
    requires Joins(text, m, ",")
    ensures LabelTags(text) == Wanted(m) <==> Plain(m)
  {
    if Plain(m) {
      PlainSurvive(m, text);
    } else if LabelTags(text) == Wanted(m) {
      var k :| k in m && !(',' !in k && ':' !in k && ',' !in m[k]);
      WantedAt(m, k);
      SplitParts(text, ',');
      TagsArePlain(Split(text, ','));
      assert false;
    }
  }

  /**
   A pod's labels, copied to a metric set and turned into tags: every label that is not ignored comes
   out under "label." and its own key, whatever else the set carries.
   */
  method CopyThenTag(copier: LabelCopier, podLabels: map<string, string>, set_: StringMap, tags: StringMap)
    requires copier.labelSeparator == "," && Plain(Shown(podLabels, copier.ignoredLabels)) && set_ != tags
    modifies set_, tags
    ensures forall k :: k in podLabels && k !in copier.ignoredLabels ==>
              PREFIX + k in tags.m && tags.m[PREFIX + k] == podLabels[k]
    ensures tags.m == old(tags.m) + (set_.m - {LABELS}) + Wanted(Shown(podLabels, copier.ignoredLabels))
  {
    hide Joins, LabelTags, Wanted, Plain;
    copier.Copy(podLabels, set_);
    ghost var shown := Shown(podLabels, copier.ignoredLabels);
    PlainSurvive(shown, set_.m[LABELS]);
    AddLabelTags(set_.m, tags);
    forall k | k in podLabels && k !in copier.ignoredLabels
      ensures PREFIX + k in tags.m && tags.m[PREFIX + k] == podLabels[k]
    {
      WantedAt(shown, k);
    }
  }
}
