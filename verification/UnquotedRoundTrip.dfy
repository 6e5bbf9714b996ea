/**
 Printing a metric with its names unquoted and parsing the line. Where a point has no timestamp, a tag name
 that starts with ten digits is taken for one, and a name with a slash can only be written in quotes.
 */
module UnquotedRoundTrip {
  import opened MetricGrammar
  import opened MetricParser
  import opened MetricRoundTrip
  import opened Wrappers

  function PlainTag(name: string, value: string): string {
    name + "=" + Quote(value)
  }

  function PlainMoreTags(order: seq<string>, tags: map<string, string>): string
    requires forall k :: k in order ==> k in tags
  {
    if order == [] then "" else " " + PlainTag(order[0], tags[order[0]]) + PlainMoreTags(order[1..], tags)
  }

  ghost function PlainNameAndTags(m: Metric, tags: seq<string>): string
    requires Enumerates(tags, m.tags)
  {
    " " + m.name + PlainMoreTags(tags, m.tags)
  }

  ghost function PlainValueAndRest(m: Metric, tags: seq<string>): string
    requires Enumerates(tags, m.tags)
  {
    " " + m.value + (PrintStamp(m.timestamp) + PlainMoreTags(tags, m.tags))
  }

  /** A metric as a line, with names as they are; tag values are always quoted. */
  ghost function PlainPrint(m: Metric, granularity: char, tags: seq<string>, buckets: seq<string>): string
    requires Enumerates(tags, m.tags) && Enumerates(buckets, m.buckets)
  {
    if m.buckets == map[] then m.name + PlainValueAndRest(m, tags)
    else
      "!" + [granularity]
      + (PrintStamp(m.timestamp) + (PrintMoreBuckets(buckets, m.buckets) + PlainNameAndTags(m, tags)))
  }

  predicate TenDigits(s: string) {
    |s| >= 10 && AllDigits(s[..10])
  }

  predicate NoSlash(order: seq<string>) {
    forall k :: k in order ==> '/' !in k
  }

  /** The first tag of a point without timestamp would be taken for one. */
  predicate LooksStamped(m: Metric, tags: seq<string>) {
    m.buckets == map[] && m.timestamp == "" && tags != [] && TenDigits(tags[0])
  }

  // ---- names ----------------------------------------------------------------------------------

  lemma NameStart(s: string)
    requires NameOk(s)
    ensures s != "" && s[0] != '"' && s[0] != '!' && s[0] != '#' && s[0] != ' '
  {
    var body := Unprefixed(Unprefixed(s, DELTA), '~');
    assert body[0] in body;
  }

  lemma ReadPlainName(b: string, i: nat, s: string)
    requires At(b, i, s) && NameOk(s) && Is(b, i + |s|, ' ')
    ensures MetricNameAt(b, i).Match? && MetricNameAt(b, i).pos == i + |s| && MetricNameText(b, i) == s
  {
    NameStart(s);
    AtSlice(b, i, s, 0, |s|);
    assert QuotedNameText(b, i).NoMatch?;
    ReadNameText(b, i, s);
    hide NameText, NameOk, QuotedNameText;
  }

  /** What a tag name that is fine in quotes is without them. */
  lemma TagNameChars(s: string)
    requires TagNameOk(s)
    ensures '/' !in s ==> AllInClass(TagChars, s)
    ensures s[0] != '"' && s[0] != ' '
    ensures forall k :: 0 <= k < |s| ==> s[k] != '=' && s[k] != ' '
  {
    assert forall k :: 0 <= k < |s| ==> s[k] in s;
  }

  lemma ReadPlainTagName(b: string, i: nat, s: string)
    requires At(b, i, s) && TagNameOk(s) && '/' !in s && Is(b, i + |s|, '=')
    ensures TagNameAt(b, i).Match? && TagNameAt(b, i).pos == i + |s| && TagNameText(b, i) == s
  {
    TagNameChars(s);
    AtSlice(b, i, s, 0, |s|);
    assert QuotedTagText(b, i).NoMatch?;
    ClassPlusEnds(b, i, i + |s|, TagChars);
    hide QuotedTagText, ClassPlus;
  }

  lemma ReadPlainTag(b: string, i: nat, name: string, value: string, f: Fields)
    requires At(b, i, PlainTag(name, value)) && TagNameOk(name) && TagValueOk(value) && '/' !in name
    ensures TagAt(b, i).Match? && TagAt(b, i).pos == i + |PlainTag(name, value)|
    ensures Run(b, TagAt(b, i).toks, f) == f.(text := value, tag := name, tags := f.tags[name := value])
  {
    hide TagNameAt, TagValueAt, TagNameOk, TagValueOk, At;
    AtCat(b, i, name + "=", Quote(value));
    AtCat(b, i, name, "=");
    AtChar(b, i + |name|, '=');
    ReadPlainTagName(b, i, name);
    ReadTagValue(b, i + |name| + 1, value);
    RunTag(b, i, f);
  }

  lemma FirstSlash(s: string) returns (p: nat)
    requires '/' in s
    ensures p < |s| && s[p] == '/' && forall k :: 0 <= k < p ==> s[k] != '/'
  {
    p := 0;
    while s[p] != '/'
      invariant p < |s| && forall k :: 0 <= k < p ==> s[k] != '/'
      invariant exists k :: p <= k < |s| && s[k] == '/'
      decreases |s| - p
    {
      p := p + 1;
    }
  }

  /** The name ends at the slash, where no equals sign follows. */
  lemma SlashStops(b: string, i: nat, name: string, value: string)
    requires At(b, i, PlainTag(name, value)) && TagNameOk(name) && '/' in name
    ensures TagAt(b, i).NoMatch?
  {
    var p := FirstSlash(name);
    AtCat(b, i, name + "=", Quote(value));
    AtCat(b, i, name, "=");
    AtSlice(b, i, name, 0, |name|);
    assert b[i + p] == '/';
    assert forall k :: 0 <= k < |name| ==> name[k] in name;
    assert QuotedTagText(b, i).NoMatch?;
    if p > 0 {
      forall c | c in b[i..i + p]
        ensures InClass(TagChars, c)
      {
        var k :| 0 <= k < p && c == b[i..i + p][k];
        assert c == name[k];
      }
      ClassPlusEnds(b, i, i + p, TagChars);
    }
    hide QuotedTagText, TagValueAt;
  }

  // ---- tags -----------------------------------------------------------------------------------

  lemma PlainTagStart(b: string, i: nat, order: seq<string>, tags: map<string, string>)
    requires forall k :: k in order ==> k in tags
    requires order != [] && At(b, i, PlainMoreTags(order, tags))
    ensures Is(b, i, ' ') && At(b, i + 1, PlainTag(order[0], tags[order[0]]))
    ensures var j := i + 1 + |PlainTag(order[0], tags[order[0]])|;
            At(b, j, PlainMoreTags(order[1..], tags))
            && j + |PlainMoreTags(order[1..], tags)| == i + |PlainMoreTags(order, tags)|
  {
    hide PlainTag, At;
    var tag := PlainTag(order[0], tags[order[0]]);
    AtCat(b, i, " " + tag, PlainMoreTags(order[1..], tags));
    AtCat(b, i, " ", tag);
    AtChar(b, i, ' ');
  }

  /** The tags are all read if none has a slash in its name, and reading stops early otherwise. */
  lemma {:induction false} ReadPlainTagStar(b: string, i: nat, order: seq<string>, tags: map<string, string>, f: Fields)
    requires forall k :: k in order ==> k in tags
    requires At(b, i, PlainMoreTags(order, tags)) && i + |PlainMoreTags(order, tags)| == |b| && TagsOk(tags)
    ensures TagStar(b, i).pos == |b| <==> NoSlash(order)
    ensures NoSlash(order) ==>
              var g := Run(b, TagStar(b, i).toks, f);
              g == f.(text := g.text, tag := g.tag, tags := f.tags + Chosen(order, tags))
    decreases |order|
  {
    if order == [] {
      assert f.tags + Chosen(order, tags) == f.tags;
    } else {
      assert NoSlash(order) <==> '/' !in order[0] && NoSlash(order[1..]);
      hide TagAt, PlainMoreTags, Chosen, TagsOk, NoSlash, At;
      var t, g := ReadPlainTagStep(b, i, order, tags, f);
      if t.Match? {
        ReadPlainTagStar(b, t.pos, order[1..], tags, g);
        RunCat(b, t.toks, TagStar(b, t.pos).toks, f);
        ChosenStep(order, tags, f.tags);
      }
    }
  }

  /** The first of the tags still to come is read unless its name has a slash. */
  lemma ReadPlainTagStep(b: string, i: nat, order: seq<string>, tags: map<string, string>, f: Fields)
    returns (t: Match, g: Fields)
    requires forall k :: k in order ==> k in tags
    requires order != [] && At(b, i, PlainMoreTags(order, tags)) && TagsOk(tags)
    ensures Is(b, i, ' ') && t == TagAt(b, i + 1) && (t.Match? <==> '/' !in order[0])
    ensures t.Match? ==>
              t.pos + |PlainMoreTags(order[1..], tags)| == i + |PlainMoreTags(order, tags)|
              && At(b, t.pos, PlainMoreTags(order[1..], tags)) && g == Run(b, t.toks, f)
              && g == f.(text := g.text, tag := g.tag, tags := f.tags[order[0] := tags[order[0]]])
    ensures t.NoMatch? ==> i < |b|
  {
    assert TagNameOk(order[0]) && TagValueOk(tags[order[0]]);
    hide TagAt, TagNameOk, TagValueOk, PlainTag, At, PlainMoreTags, TagsOk, Run;
    PlainTagStart(b, i, order, tags);
    t, g := ReadOrStop(b, i + 1, order[0], tags[order[0]], f);
  }

  lemma ReadOrStop(b: string, i: nat, name: string, value: string, f: Fields) returns (t: Match, g: Fields)
    requires At(b, i, PlainTag(name, value)) && TagNameOk(name) && TagValueOk(value)
    ensures t == TagAt(b, i) && (t.Match? <==> '/' !in name)
    ensures t.Match? ==>
              t.pos == i + |PlainTag(name, value)| && g == Run(b, t.toks, f)
              && g == f.(text := value, tag := name, tags := f.tags[name := value])
  {
    hide TagAt, TagNameOk, TagValueOk, PlainTag, At, Run;
    t, g := TagAt(b, i), f;
    if '/' in name {
      SlashStops(b, i, name, value);
    } else {
      ReadPlainTag(b, i, name, value, f);
      g := Run(b, t.toks, f);
    }
  }

  lemma ReadPlainTagsToEnd(b: string, i: nat, order: seq<string>, tags: map<string, string>, f: Fields)
    requires Enumerates(order, tags) && tags != map[] && TagsOk(tags)
    requires At(b, i, PlainMoreTags(order, tags)) && i + |PlainMoreTags(order, tags)| == |b|
    ensures TagsToEnd(b, i).Match? <==> NoSlash(order)
    ensures NoSlash(order) ==>
              TagsToEnd(b, i).pos == |b|
              && var g := Run(b, TagsToEnd(b, i).toks, f); g == f.(text := g.text, tag := g.tag, tags := tags)
  {
    var k :| k in tags;
    assert order != [] && (NoSlash(order) <==> '/' !in order[0] && NoSlash(order[1..]));
    TagsToEndIff(b, i);
    hide TagsToEnd, TagAt, TagStar, PlainMoreTags, Chosen, At, TagsOk, NoSlash;
    var t, g := ReadPlainTagStep(b, i, order, tags, f.(tags := map[]));
    if t.Match? {
      ReadPlainTagStar(b, t.pos, order[1..], tags, g);
      if NoSlash(order) {
        TagsToEndStarts(b, i);
        RunTagsToEnd(b, i, f);
        ChosenStep(order, tags, map[]);
        ChosenAll(order, tags);
      }
    }
  }

  lemma TagsToEndIff(b: string, i: nat)
    ensures TagsToEnd(b, i).Match?
            <==> Is(b, i, ' ') && TagAt(b, i + 1).Match? && TagStar(b, TagAt(b, i + 1).pos).pos == |b|
  {
    hide TagAt, TagStar;
  }

  // ---- histograms -----------------------------------------------------------------------------

  lemma ReadPlainNameAndTags(b: string, i: nat, m: Metric, order: seq<string>, f: Fields)
    requires Enumerates(order, m.tags) && m.tags != map[] && TagsOk(m.tags) && NameOk(m.name)
    requires At(b, i, PlainNameAndTags(m, order)) && i + |PlainNameAndTags(m, order)| == |b|
    ensures NameAndTags(b, i).Match? <==> NoSlash(order)
    ensures NoSlash(order) ==>
              NameAndTags(b, i).pos == |b|
              && var g := Run(b, NameAndTags(b, i).toks, f);
                 g == f.(text := g.text, tag := g.tag, tags := m.tags, name := m.name)
  {
    hide MetricNameAt, TagsToEnd, NameOk, TagsOk, PlainMoreTags, At, NoSlash;
    AtCat(b, i, " " + m.name, PlainMoreTags(order, m.tags));
    AtCat(b, i, " ", m.name);
    AtChar(b, i, ' ');
    PlainTagsSpace(b, i + 1 + |m.name|, order, m.tags);
    ReadPlainName(b, i + 1, m.name);
    RunMetricName(b, i + 1, f);
    NameAndTagsFrom(b, i);
    var n := MetricNameAt(b, i + 1);
    hide NameAndTags, Run;
    ReadPlainTagsToEnd(b, n.pos, order, m.tags, Run(b, n.toks, f));
    if NoSlash(order) {
      RunCat(b, n.toks, TagsToEnd(b, n.pos).toks, f);
    }
  }

  lemma NameAndTagsFrom(b: string, i: nat)
    requires Is(b, i, ' ') && MetricNameAt(b, i + 1).Match?
    ensures var n := MetricNameAt(b, i + 1);
            var u := TagsToEnd(b, n.pos);
            NameAndTags(b, i) == if u.Match? then Match(u.pos, n.toks + u.toks) else NoMatch
  {
    hide MetricNameAt, TagsToEnd;
  }

  lemma PlainTagsSpace(b: string, i: nat, order: seq<string>, tags: map<string, string>)
    requires Enumerates(order, tags) && tags != map[] && At(b, i, PlainMoreTags(order, tags))
    ensures order != [] && Is(b, i, ' ')
  {
    var k :| k in tags;
    assert k in order;
    PlainTagStart(b, i, order, tags);
  }

  lemma PlainNameStarts(b: string, i: nat, m: Metric, tags: seq<string>)
    requires Enumerates(tags, m.tags) && At(b, i, PlainNameAndTags(m, tags)) && NameOk(m.name)
    ensures Is(b, i, ' ') && !Is(b, i + 1, '#')
  {
    NameStart(m.name);
    hide PlainMoreTags, NameOk;
    AtCat(b, i, " " + m.name, PlainMoreTags(tags, m.tags));
    AtCat(b, i, " ", m.name);
    AtChar(b, i, ' ');
    AtSlice(b, i + 1, m.name, 0, |m.name|);
  }

  lemma ReadPlainBucketsAndRest(b: string, i: nat, m: Metric, tags: seq<string>, buckets: seq<string>, f: Fields)
    requires Enumerates(tags, m.tags) && Enumerates(buckets, m.buckets) && WellFormed(m) && m.buckets != map[]
    requires var s := PrintMoreBuckets(buckets, m.buckets) + PlainNameAndTags(m, tags);
             At(b, i, s) && i + |s| == |b|
    ensures BucketsAndRest(b, i).Match? <==> NoSlash(tags)
    ensures NoSlash(tags) ==>
              BucketsAndRest(b, i).pos == |b|
              && var g := Run(b, BucketsAndRest(b, i).toks, f);
                 g == f.(text := g.text, tag := g.tag, count := g.count, tags := m.tags, name := m.name, buckets := m.buckets)
  {
    hide BucketsAt, NameAndTags, NameOk, TagsOk, BucketsOk, NumberOk, TimestampOk, PrintMoreBuckets, PlainNameAndTags,
      PlainMoreTags, At, Run, NoSlash;
    var j := i + |PrintMoreBuckets(buckets, m.buckets)|;
    AtCat(b, i, PrintMoreBuckets(buckets, m.buckets), PlainNameAndTags(m, tags));
    PlainNameStarts(b, j, m, tags);
    ReadBuckets(b, i, buckets, m.buckets, f);
    var n := BucketsAt(b, i + 1);
    ReadPlainNameAndTags(b, j, m, tags, Run(b, n.toks, f));
    if NoSlash(tags) {
      RunCat(b, n.toks, NameAndTags(b, j).toks, f);
    }
  }

  lemma PlainHistogramParts(m: Metric, granularity: char, tags: seq<string>, buckets: seq<string>)
    requires Enumerates(tags, m.tags) && Enumerates(buckets, m.buckets) && m.buckets != map[]
    ensures var b := PlainPrint(m, granularity, tags, buckets);
            var stamp := PrintStamp(m.timestamp);
            var rest := PrintMoreBuckets(buckets, m.buckets) + PlainNameAndTags(m, tags);
            && |b| == 2 + |stamp| + |rest| && b[0] == '!' && b[1] == granularity
            && At(b, 2, stamp) && At(b, 2 + |stamp|, rest)
            && Is(b, 2 + |stamp|, ' ') && Is(b, 3 + |stamp|, '#')
  {
    hide PrintMoreBuckets, PlainMoreTags, PrintStamp, PlainNameAndTags;
    var b := PlainPrint(m, granularity, tags, buckets);
    var head := "!" + [granularity];
    var stamp := PrintStamp(m.timestamp);
    var more := PrintMoreBuckets(buckets, m.buckets);
    var rest := more + PlainNameAndTags(m, tags);
    assert b == head + (stamp + rest);
    assert At(b, 0, b);
    AtCat(b, 0, head, stamp + rest);
    AtCat(b, 2, stamp, rest);
    AtCat(b, 2 + |stamp|, more, PlainNameAndTags(m, tags));
    BucketsStart(b, 2 + |stamp|, buckets, m.buckets);
    assert b[0] == head[0] && b[1] == head[1];
  }

  lemma ReadPlainHistogramLine(m: Metric, granularity: char, tags: seq<string>, buckets: seq<string>)
    requires granularity == 'M' || granularity == 'H' || granularity == 'D'
    requires Enumerates(tags, m.tags) && Enumerates(buckets, m.buckets) && WellFormed(m) && m.buckets != map[]
    ensures var b := PlainPrint(m, granularity, tags, buckets);
            && (HistogramLine(b).Match? <==> NoSlash(tags)) && PointLine(b).NoMatch?
            && (NoSlash(tags) ==> ToMetric(Run(b, HistogramLine(b).toks, NoFields)) == m)
  {
    PlainHistogramParts(m, granularity, tags, buckets);
    hide TimestampOpt, BucketsAndRest, NameOk, TagsOk, BucketsOk, TimestampOk, PrintMoreBuckets, PlainMoreTags,
      PrintStamp, PlainNameAndTags, PlainPrint, At, NoSlash;
    var b := PlainPrint(m, granularity, tags, buckets);
    NoPointAtBang(b);
    HistogramFrom(b);
    var j := 2 + |PrintStamp(m.timestamp)|;
    RunInterval(b, 0, NoFields);
    var t := IntervalAt(b, 0);
    var f := Run(b, t.toks, NoFields);
    hide IntervalAt, Run, HistogramLine, PointLine;
    ReadStamp(b, 2, m.timestamp, f);
    var u := TimestampOpt(b, 2);
    var g := Run(b, u.toks, f);
    ReadPlainBucketsAndRest(b, j, m, tags, buckets, g);
    if NoSlash(tags) {
      RunThree(b, t.toks, u.toks, BucketsAndRest(b, j).toks, NoFields);
    }
  }

  lemma HistogramFrom(b: string)
    requires IntervalAt(b, 0).Match?
    ensures var t := IntervalAt(b, 0);
            var u := TimestampOpt(b, t.pos);
            var v := BucketsAndRest(b, u.pos);
            t.pos == 2 && HistogramLine(b) == if v.Match? then Match(v.pos, t.toks + u.toks + v.toks) else NoMatch
  {
    hide TimestampOpt, BucketsAndRest;
  }

  lemma NoPointAtBang(b: string)
    requires Is(b, 0, '!')
    ensures PointLine(b).NoMatch?
  {
    hide ValueAndRest;
    assert !InClass(NameChars, '!');
  }

  // ---- points ---------------------------------------------------------------------------------

  /** Ten digits are taken for a timestamp, which ends inside the tag or at its equals sign. */
  lemma DigitsAreTaken(b: string, i: nat, name: string, value: string)
    requires At(b, i, PlainTag(name, value)) && TagNameOk(name) && TenDigits(name)
    ensures TimestampAt(b, i).Match? && !Is(b, TimestampAt(b, i).pos, ' ')
  {
    AtCat(b, i, name + "=", Quote(value));
    AtSlice(b, i, name + "=", 0, |name| + 1);
    TagNameChars(name);
    AtCat(b, i, name, "=");
    AtSlice(b, i, name, 0, 10);
    DigitTimesEnds(b, i, 10);
    assert b[i + |name|] == '=';
    forall k | i <= k <= i + |name|
      ensures b[k] != ' '
    {
      assert k < i + |name| ==> b[k] == name[k - i];
    }
    hide TagNameOk, AllDigits;
    DigitsStop(b, i, i + |name|);
  }

  /** A timestamp does not reach beyond a character that is no digit. */
  lemma DigitsStop(b: string, i: nat, j: nat)
    requires i + 10 <= j < |b| && !IsDigit(b[j]) && DigitTimes(b, i, 10).Match?
    ensures TimestampAt(b, i).Match? && i < TimestampAt(b, i).pos <= j
  {
    DigitsBefore(b, i + 10, 3, j);
    var k := ThreeDigitsOpt(b, i + 10).pos;
    DigitsBefore(b, k, 3, j);
    hide DigitTimes;
  }

  lemma {:induction false} DigitsBefore(b: string, i: nat, n: nat, j: nat)
    requires i <= j < |b| && !IsDigit(b[j])
    ensures DigitTimes(b, i, n).Match? ==> i + n <= j
    decreases n
  {
    if n > 0 && i < j {
      DigitsBefore(b, i + 1, n - 1, j);
    }
  }

  /** Fewer than ten digits are not. */
  lemma FewDigits(b: string, i: nat, name: string, value: string)
    requires At(b, i, PlainTag(name, value)) && TagNameOk(name) && !TenDigits(name)
    ensures TimestampAt(b, i).NoMatch?
  {
    AtCat(b, i, name + "=", Quote(value));
    AtSlice(b, i, name + "=", 0, |name| + 1);
    if DigitTimes(b, i, 10).Match? {
      DigitTimesIsRun(b, i, 10);
      DigitsBefore(b, i, 10, i + |name|);
      AtCat(b, i, name, "=");
      AtSlice(b, i, name, 0, 10);
    }
  }

  /** The optional timestamp before unquoted tags. */
  lemma ReadPlainStamp(b: string, i: nat, timestamp: string, order: seq<string>, tags: map<string, string>, f: Fields)
    requires TimestampOk(timestamp) && f.timestamp == "" && Enumerates(order, tags) && tags != map[] && TagsOk(tags)
    requires At(b, i, PrintStamp(timestamp)) && At(b, i + |PrintStamp(timestamp)|, PlainMoreTags(order, tags))
    ensures order != []
    ensures var u := TimestampOpt(b, i);
            if timestamp == "" && TenDigits(order[0]) then !Is(b, u.pos, ' ')
            else u.pos == i + |PrintStamp(timestamp)|
                 && var g := Run(b, u.toks, f); g == f.(text := g.text, timestamp := timestamp)
  {
    var j := i + |PrintStamp(timestamp)|;
    PlainTagsSpace(b, j, order, tags);
    PlainTagStart(b, j, order, tags);
    assert PrintStamp("") == "";
    assert TagNameOk(order[0]);
    hide *;
    if TenDigits(order[0]) {
      DigitsAreTaken(b, j + 1, order[0], tags[order[0]]);
    } else {
      FewDigits(b, j + 1, order[0], tags[order[0]]);
    }
    ReadStampBefore(b, i, timestamp, f);
  }

  /** A timestamp that is there is read; otherwise it is up to what follows the space. */
  lemma ReadStampBefore(b: string, i: nat, timestamp: string, f: Fields)
    requires TimestampOk(timestamp) && f.timestamp == "" && At(b, i, PrintStamp(timestamp))
    requires Is(b, i + |PrintStamp(timestamp)|, ' ')
    ensures var u := TimestampOpt(b, i);
            if timestamp == "" && TimestampAt(b, i + 1).Match? then u.pos == TimestampAt(b, i + 1).pos
            else u.pos == i + |PrintStamp(timestamp)|
                 && var g := Run(b, u.toks, f); g == f.(text := g.text, timestamp := timestamp)
  {
    hide TimestampAt, TimestampOk;
    if timestamp != "" {
      AtCat(b, i, " ", timestamp);
      AtChar(b, i, ' ');
      ReadTimestamp(b, i + 1, timestamp);
      RunTimestamp(b, i + 1, f);
    }
  }

  lemma ReadPlainValueAndRest(b: string, i: nat, m: Metric, tags: seq<string>, f: Fields)
    requires Enumerates(tags, m.tags) && WellFormed(m) && m.buckets == map[] && f.timestamp == ""
    requires At(b, i, PlainValueAndRest(m, tags)) && i + |PlainValueAndRest(m, tags)| == |b|
    ensures ValueAndRest(b, i).Match? <==> NoSlash(tags) && !LooksStamped(m, tags)
    ensures ValueAndRest(b, i).Match? ==>
              var g := Run(b, ValueAndRest(b, i).toks, f);
              g == f.(text := g.text, tag := g.tag, tags := m.tags, value := m.value, timestamp := m.timestamp)
  {
    hide MetricValueAt, TimestampOpt, TagsToEnd, NameOk, TagsOk, NumberOk, TimestampOk, PlainMoreTags, PrintStamp, At, Run,
      NoSlash, TenDigits;
    var stamp := PrintStamp(m.timestamp);
    var more := PlainMoreTags(tags, m.tags);
    AtCat(b, i, " " + m.value, stamp + more);
    AtCat(b, i, " ", m.value);
    AtChar(b, i, ' ');
    var j := i + 1 + |m.value|;
    AtCat(b, j, stamp, more);
    PlainTagsSpace(b, j + |stamp|, tags, m.tags);
    StampStart(b, j, m.timestamp);
    ReadMetricValue(b, i + 1, m.value, f);
    var t := MetricValueAt(b, i + 1);
    var f1 := Run(b, t.toks, f);
    ReadPlainStamp(b, j, m.timestamp, tags, m.tags, f1);
    var u := TimestampOpt(b, j);
    var f2 := Run(b, u.toks, f1);
    if LooksStamped(m, tags) {
      NoTagsWithoutSpace(b, u.pos);
    } else {
      ReadPlainTagsToEnd(b, j + |stamp|, tags, m.tags, f2);
      if NoSlash(tags) {
        RunThree(b, t.toks, u.toks, TagsToEnd(b, u.pos).toks, f);
      }
    }
  }

  lemma NoTagsWithoutSpace(b: string, i: nat)
    requires !Is(b, i, ' ')
    ensures TagsToEnd(b, i).NoMatch?
  {
  }

  lemma ReadPlainPointLine(m: Metric, granularity: char, tags: seq<string>, buckets: seq<string>)
    requires Enumerates(tags, m.tags) && Enumerates(buckets, m.buckets) && WellFormed(m) && m.buckets == map[]
    ensures var b := PlainPrint(m, granularity, tags, buckets);
            && HistogramLine(b).NoMatch? && (PointLine(b).Match? <==> NoSlash(tags) && !LooksStamped(m, tags))
            && (PointLine(b).Match? ==> ToMetric(Run(b, PointLine(b).toks, NoFields)) == m)
  {
    NameStart(m.name);
    hide MetricNameAt, ValueAndRest, NameOk, TagsOk, NumberOk, TimestampOk, PlainMoreTags, NoSlash, LooksStamped;
    var b := PlainPrint(m, granularity, tags, buckets);
    assert At(b, 0, b);
    AtCat(b, 0, m.name, PlainValueAndRest(m, tags));
    AtSlice(b, 0, m.name, 0, |m.name|);
    ValueSpace(b, |m.name|, m, tags);
    NoInterval(b);
    ReadPlainName(b, 0, m.name);
    RunMetricName(b, 0, NoFields);
    var t := MetricNameAt(b, 0);
    ReadPlainValueAndRest(b, t.pos, m, tags, Run(b, t.toks, NoFields));
    if ValueAndRest(b, t.pos).Match? {
      RunCat(b, t.toks, ValueAndRest(b, t.pos).toks, NoFields);
    }
  }

  lemma ValueSpace(b: string, i: nat, m: Metric, tags: seq<string>)
    requires Enumerates(tags, m.tags) && At(b, i, PlainValueAndRest(m, tags))
    ensures Is(b, i, ' ')
  {
    hide PlainMoreTags, PrintStamp;
    AtCat(b, i, " " + m.value, PrintStamp(m.timestamp) + PlainMoreTags(tags, m.tags));
    AtCat(b, i, " ", m.value);
    AtChar(b, i, ' ');
  }

  /**
   With its names unquoted, a metric is read back if and only if it is well formed, no tag name has a slash,
   and the first tag printed does not start with ten digits where a timestamp could stand.
   */
  lemma UnquotedRoundTrip(m: Metric, granularity: char, tags: seq<string>, buckets: seq<string>)
    requires granularity == 'M' || granularity == 'H' || granularity == 'D'
    requires Enumerates(tags, m.tags) && Enumerates(buckets, m.buckets)
    ensures ParseLine(PlainPrint(m, granularity, tags, buckets)) == Some(m)
            <==> WellFormed(m) && NoSlash(tags) && !LooksStamped(m, tags)
  {
    var b := PlainPrint(m, granularity, tags, buckets);
    if WellFormed(m) {
      hide HistogramLine, PointLine, WellFormed, PlainPrint, NoSlash;
      if m.buckets == map[] {
        ReadPlainPointLine(m, granularity, tags, buckets);
      } else {
        ReadPlainHistogramLine(m, granularity, tags, buckets);
      }
      if HistogramLine(b).Match? || PointLine(b).Match? {
        var l := if HistogramLine(b).Match? then HistogramLine(b) else PointLine(b);
        RunAdd(b, l.toks, Token(MetricGrammarRule, 0, l.pos), NoFields);
      }
    }
    if ParseLine(b) == Some(m) {
      hide Line, WellFormed, PlainPrint;
      ParsedIsWellFormed(b);
    }
  }
}
