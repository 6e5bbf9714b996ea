/**
 What ParseLine means, without tokens: which metrics a line can give, and that printing a metric and
 parsing the line gives the metric back exactly when the metric is well formed.
 */
module MetricRoundTrip {
  import opened MetricGrammar
  import opened MetricParser
  import opened Wrappers

  // ---- well-formed metrics --------------------------------------------------------------------

  predicate AllDigits(s: string) {
    forall c :: c in s ==> IsDigit(c)
  }

  predicate AllInClass(k: CharClass, s: string) {
    forall c :: c in s ==> InClass(k, c)
  }

  predicate Unsigned(s: string) {
    && s != ""
    && (AllDigits(s) || exists k :: 0 < k < |s| - 1 && s[k] == '.' && AllDigits(s[..k]) && AllDigits(s[k + 1..]))
  }

  predicate NumberOk(s: string) {
    Unsigned(Unprefixed(s, '-'))
  }

  function Unprefixed(s: string, c: char): string {
    if s != "" && s[0] == c then s[1..] else s
  }

  /** One delta and one tilde may come first; what is left is not empty. The name "~" alone is not ok. */
  predicate NameOk(s: string) {
    var body := Unprefixed(Unprefixed(s, DELTA), '~');
    body != "" && AllInClass(NameChars, body)
  }

  predicate TagNameOk(s: string) {
    s != "" && AllInClass(QuotedTagChars, s)
  }

  /** Every quote is escaped, and no trailing backslash would escape the closing quote. */
  predicate TagValueOk(s: string) {
    && s != "" && s[0] != '"' && s[|s| - 1] != '\\'
    && forall k :: 0 < k < |s| && s[k] == '"' ==> s[k - 1] == '\\'
  }

  predicate TimestampOk(s: string) {
    s == "" || (AllDigits(s) && (|s| == 10 || |s| == 13 || |s| == 16))
  }

  predicate TagsOk(tags: map<string, string>) {
    forall k :: k in tags ==> TagNameOk(k) && TagValueOk(tags[k])
  }

  predicate BucketsOk(buckets: map<string, string>) {
    forall k :: k in buckets ==> NumberOk(k) && NumberOk(buckets[k])
  }

  predicate WellFormed(m: Metric) {
    && NameOk(m.name)
    && TimestampOk(m.timestamp)
    && m.tags != map[] && TagsOk(m.tags)
    && BucketsOk(m.buckets)
    && (if m.buckets == map[] then NumberOk(m.value) else m.value == "")
  }

  // ---- printing -------------------------------------------------------------------------------

  function Quote(s: string): string {
    "\"" + s + "\""
  }

  function PrintTag(name: string, value: string): string {
    Quote(name) + "=" + Quote(value)
  }

  function PrintMoreTags(order: seq<string>, tags: map<string, string>): string
    requires forall k :: k in order ==> k in tags
  {
    if order == [] then "" else " " + PrintTag(order[0], tags[order[0]]) + PrintMoreTags(order[1..], tags)
  }

  function PrintBucket(count: string, value: string): string {
    "#" + count + " " + value
  }

  function PrintMoreBuckets(order: seq<string>, buckets: map<string, string>): string
    requires forall k :: k in order ==> k in buckets
  {
    if order == [] then "" else " " + PrintBucket(buckets[order[0]], order[0]) + PrintMoreBuckets(order[1..], buckets)
  }

  function PrintStamp(timestamp: string): string {
    if timestamp == "" then "" else " " + timestamp
  }

  /** The order in which a map is printed: every key, nothing else. */
  ghost predicate Enumerates(order: seq<string>, m: map<string, string>) {
    (forall k :: k in order <==> k in m)
  }

  /** The name and the tags of a histogram line. */
  ghost function PrintNameAndTags(m: Metric, tags: seq<string>): string
    requires Enumerates(tags, m.tags)
  {
    " " + Quote(m.name) + PrintMoreTags(tags, m.tags)
  }

  /** A metric as a line, with quoted names; the leading space of each list of pairs is its separator. */
  ghost function Print(m: Metric, granularity: char, tags: seq<string>, buckets: seq<string>): string
    requires Enumerates(tags, m.tags) && Enumerates(buckets, m.buckets)
  {
    if m.buckets == map[] then
      Quote(m.name) + (" " + m.value + (PrintStamp(m.timestamp) + PrintMoreTags(tags, m.tags)))
    else
      "!" + [granularity]
      + (PrintStamp(m.timestamp)
         + (PrintMoreBuckets(buckets, m.buckets) + PrintNameAndTags(m, tags)))
  }

  // ---- running tokens -------------------------------------------------------------------------

  lemma {:induction false} RunCat(b: string, s: seq<Token>, t: seq<Token>, f: Fields)
    requires TokensWithin(s, |b|) && TokensWithin(t, |b|)
    ensures Run(b, s + t, f) == Run(b, t, Run(b, s, f))
    decreases |t|
  {
    if t == [] {
      assert s + t == s;
    } else {
      assert (s + t)[..|s + t| - 1] == s + t[..|t| - 1];
      RunCat(b, s, t[..|t| - 1], f);
    }
  }

  lemma RunAdd(b: string, s: seq<Token>, x: Token, f: Fields)
    requires TokensWithin(s, |b|) && x.begin <= x.end <= |b|
    ensures TokensWithin(s + [x], |b|)
    ensures Run(b, s + [x], f) == Act(b, x, Run(b, s, f))
  {
    assert (s + [x])[..|s|] == s;
  }

  ghost predicate Quiet(toks: seq<Token>) {
    forall t :: t in toks ==> t.rule.Digit? || t.rule.Alnum?
  }

  lemma {:induction false} RunQuiet(b: string, s: seq<Token>, f: Fields)
    requires TokensWithin(s, |b|) && Quiet(s)
    ensures Run(b, s, f) == f
    decreases |s|
  {
    if s != [] {
      RunQuiet(b, s[..|s| - 1], f);
    }
  }

  lemma {:induction false} DigitStarQuiet(b: string, i: nat)
    requires i <= |b|
    ensures Quiet(DigitStar(b, i).toks)
    decreases |b| - i
  {
    if i < |b| && IsDigit(b[i]) {
      DigitStarQuiet(b, i + 1);
    }
  }

  lemma {:induction false} DigitTimesQuiet(b: string, i: nat, n: nat)
    ensures DigitTimes(b, i, n).Match? ==> Quiet(DigitTimes(b, i, n).toks)
    decreases n
  {
    if n > 0 && DigitAt(b, i).Match? {
      DigitTimesQuiet(b, i + 1, n - 1);
    }
  }

  lemma {:induction false} ClassStarQuiet(b: string, i: nat, k: CharClass)
    requires i <= |b|
    ensures Quiet(ClassStar(b, i, k).toks)
    decreases |b| - i
  {
    if i < |b| && InClass(k, b[i]) {
      ClassStarQuiet(b, i + 1, k);
    }
  }

  lemma DigitPlusQuiet(b: string, i: nat)
    ensures DigitPlus(b, i).Match? ==> Quiet(DigitPlus(b, i).toks)
  {
    if DigitAt(b, i).Match? {
      DigitStarQuiet(b, i + 1);
    }
  }

  /** A number leaves its text, and nothing else, behind. */
  lemma RunNumberText(b: string, i: nat, f: Fields)
    requires NumberText(b, i).Match?
    ensures Run(b, NumberText(b, i).toks, f) == f.(text := b[i..NumberText(b, i).pos])
  {
    hide DigitPlus;
    var d := DigitPlus(b, Skip(b, i, '-'));
    var u := FractionOpt(b, d.pos);
    DigitPlusQuiet(b, Skip(b, i, '-'));
    DigitPlusQuiet(b, d.pos + 1);
    RunQuiet(b, d.toks + u.toks, f);
    RunAdd(b, d.toks + u.toks, Token(PegText, i, u.pos), f);
  }

  lemma RunTimestamp(b: string, i: nat, f: Fields)
    requires TimestampAt(b, i).Match?
    ensures Run(b, TimestampAt(b, i).toks, f)
            == f.(text := b[i..TimestampAt(b, i).pos], timestamp := b[i..TimestampAt(b, i).pos])
  {
    TimestampDigitsQuiet(b, i);
    hide TimestampDigits, Run, Quiet;
    var d := TimestampDigits(b, i);
    var j := d.pos;
    RunQuiet(b, d.toks, f);
    RunAdd(b, d.toks, Token(PegText, i, j), f);
    RunClose(b, d.toks + [Token(PegText, i, j)], Token(Action7, j, j), Token(Timestamp, i, j), f);
  }

  lemma TimestampDigitsQuiet(b: string, i: nat)
    ensures TimestampDigits(b, i).Match? ==> Quiet(TimestampDigits(b, i).toks)
  {
    var m := TimestampDigits(b, i);
    if m.Match? {
      var d := DigitTimes(b, i, 10);
      var u := ThreeDigitsOpt(b, d.pos);
      DigitTimesQuiet(b, i, 10);
      DigitTimesQuiet(b, d.pos, 3);
      DigitTimesQuiet(b, u.pos, 3);
    }
  }

  /** Two closing tokens, an action and a rule, after any tokens. */
  lemma RunClose(b: string, s: seq<Token>, x: Token, y: Token, f: Fields)
    requires TokensWithin(s, |b|) && x.begin <= x.end <= |b| && y.begin <= y.end <= |b|
    ensures TokensWithin(s + [x] + [y], |b|)
    ensures Run(b, s + [x] + [y], f) == Act(b, y, Act(b, x, Run(b, s, f)))
  {
    RunAdd(b, s, x, f);
    RunAdd(b, s + [x], y, f);
  }

  // ---- the texts of names and tags ------------------------------------------------------------

  function MetricNameText(b: string, i: nat): string
    requires MetricNameAt(b, i).Match?
  {
    var m := MetricNameAt(b, i);
    if QuotedNameText(b, i).Match? then b[i + 1..m.pos - 1] else b[i..m.pos]
  }

  function TagNameText(b: string, i: nat): string
    requires TagNameAt(b, i).Match?
  {
    var m := TagNameAt(b, i);
    if QuotedTagText(b, i).Match? then b[i + 1..m.pos - 1] else b[i..m.pos]
  }

  function TagValueText(b: string, i: nat): string
    requires TagValueAt(b, i).Match?
  {
    b[i + 1..TagValueAt(b, i).pos - 1]
  }

  lemma RunClassPlus(b: string, i: nat, k: CharClass, start: nat, f: Fields)
    requires ClassPlus(b, i, k).Match? && start <= i
    ensures Run(b, ClassPlus(b, i, k).toks + [Token(PegText, start, ClassPlus(b, i, k).pos)], f)
            == f.(text := b[start..ClassPlus(b, i, k).pos])
  {
    ClassStarQuiet(b, i, k);
    RunQuiet(b, ClassPlus(b, i, k).toks, f);
    RunAdd(b, ClassPlus(b, i, k).toks, Token(PegText, start, ClassPlus(b, i, k).pos), f);
  }

  lemma RunName(b: string, i: nat, f: Fields)
    requires NameText(b, i).Match?
    ensures Run(b, NameText(b, i).toks, f) == f.(text := b[i..NameText(b, i).pos])
  {
    hide ClassPlus;
    RunClassPlus(b, Skip(b, Skip(b, i, DELTA), '~'), NameChars, i, f);
  }

  lemma RunQuotedName(b: string, i: nat, f: Fields)
    requires QuotedNameText(b, i).Match?
    ensures Run(b, QuotedNameText(b, i).toks, f) == f.(text := b[i + 1..QuotedNameText(b, i).pos - 1])
  {
    hide NameText;
    RunName(b, i + 1, f);
  }

  lemma RunMetricName(b: string, i: nat, f: Fields)
    requires MetricNameAt(b, i).Match?
    ensures Run(b, MetricNameAt(b, i).toks, f) == f.(text := MetricNameText(b, i), name := MetricNameText(b, i))
  {
    hide QuotedNameText, NameText;
    var m := if QuotedNameText(b, i).Match? then QuotedNameText(b, i) else NameText(b, i);
    if QuotedNameText(b, i).Match? {
      RunQuotedName(b, i, f);
    } else {
      RunName(b, i, f);
    }
    RunClose(b, m.toks, Token(Action9, m.pos, m.pos), Token(MetricName, i, m.pos), f);
  }

  lemma RunClassText(b: string, i: nat, k: CharClass, f: Fields)
    requires ClassText(b, i, k).Match?
    ensures Run(b, ClassText(b, i, k).toks, f) == f.(text := b[i..ClassText(b, i, k).pos])
  {
    hide ClassPlus;
    RunClassPlus(b, i, k, i, f);
  }

  lemma RunQuotedTag(b: string, i: nat, f: Fields)
    requires QuotedTagText(b, i).Match?
    ensures Run(b, QuotedTagText(b, i).toks, f) == f.(text := b[i + 1..QuotedTagText(b, i).pos - 1])
  {
    hide ClassText;
    RunClassText(b, i + 1, QuotedTagChars, f);
  }

  lemma RunTagName(b: string, i: nat, f: Fields)
    requires TagNameAt(b, i).Match?
    ensures Run(b, TagNameAt(b, i).toks, f) == f.(text := TagNameText(b, i), tag := TagNameText(b, i))
  {
    hide QuotedTagText, ClassText;
    var m := if QuotedTagText(b, i).Match? then QuotedTagText(b, i) else ClassText(b, i, TagChars);
    if QuotedTagText(b, i).Match? {
      RunQuotedTag(b, i, f);
    } else {
      RunClassText(b, i, TagChars, f);
    }
    RunClose(b, m.toks, Token(Action5, m.pos, m.pos), Token(TagName, i, m.pos), f);
  }

  lemma TagValueTokens(b: string, i: nat)
    requires TagValueAt(b, i).Match?
    ensures var j := TagValueAt(b, i).pos;
            && i + 1 < j <= |b|
            && TagValueAt(b, i).toks == [Token(PegText, i + 1, j - 1)] + [Token(Action6, j, j)] + [Token(TagValue, i, j)]
  {
  }

  lemma RunTagValue(b: string, i: nat, f: Fields)
    requires TagValueAt(b, i).Match?
    ensures Run(b, TagValueAt(b, i).toks, f)
            == f.(text := TagValueText(b, i), tags := f.tags[f.tag := TagValueText(b, i)])
  {
    var j := TagValueAt(b, i).pos;
    var x := Token(PegText, i + 1, j - 1);
    TagValueTokens(b, i);
    hide TagValueAt;
    RunAdd(b, [], x, f);
    assert [] + [x] == [x];
    RunClose(b, [x], Token(Action6, j, j), Token(TagValue, i, j), f);
  }

  lemma RunTag(b: string, i: nat, f: Fields)
    requires TagAt(b, i).Match?
    ensures var name, value := TagNameText(b, i), TagValueText(b, TagNameAt(b, i).pos + 1);
            Run(b, TagAt(b, i).toks, f) == f.(text := value, tag := name, tags := f.tags[name := value])
  {
    hide TagNameAt, TagValueAt, TagNameText, TagValueText;
    var n := TagNameAt(b, i);
    var v := TagValueAt(b, n.pos + 1);
    RunTagName(b, i, f);
    RunTagValue(b, n.pos + 1, Run(b, n.toks, f));
    RunCat(b, n.toks, v.toks, f);
    RunAdd(b, n.toks + v.toks, Token(Tag, i, v.pos), f);
  }

  lemma RunCount(b: string, i: nat, f: Fields)
    requires HistogramCountAt(b, i).Match?
    ensures var c := HistogramCountAt(b, i);
            Run(b, c.toks, f) == f.(text := b[i + 1..c.pos], count := b[i + 1..c.pos])
  {
    hide NumberText;
    var n := NumberText(b, i + 1);
    RunNumberText(b, i + 1, f);
    RunClose(b, n.toks, Token(Action2, n.pos, n.pos), Token(HistogramCount, i, n.pos), f);
  }

  lemma RunValue(b: string, i: nat, f: Fields)
    requires HistogramValueAt(b, i).Match?
    ensures var v := HistogramValueAt(b, i);
            Run(b, v.toks, f) == f.(text := b[i..v.pos], buckets := f.buckets[b[i..v.pos] := f.count])
  {
    hide NumberText;
    var n := NumberText(b, i);
    RunNumberText(b, i, f);
    RunClose(b, n.toks, Token(Action3, n.pos, n.pos), Token(HistogramValue, i, n.pos), f);
  }

  lemma RunBucket(b: string, i: nat, f: Fields)
    requires BucketAt(b, i).Match?
    ensures var c, v := HistogramCountAt(b, i), BucketAt(b, i);
            var count, value := b[i + 1..c.pos], b[c.pos + 1..v.pos];
            Run(b, v.toks, f) == f.(text := value, count := count, buckets := f.buckets[value := count])
  {
    hide HistogramCountAt, HistogramValueAt;
    var c := HistogramCountAt(b, i);
    var v := HistogramValueAt(b, c.pos + 1);
    RunCount(b, i, f);
    RunValue(b, c.pos + 1, Run(b, c.toks, f));
    RunCat(b, c.toks, v.toks, f);
    RunAdd(b, c.toks + v.toks, Token(HistogramBucket, i, v.pos), f);
  }

  lemma RunMetricValue(b: string, i: nat, f: Fields)
    requires MetricValueAt(b, i).Match?
    ensures var v := MetricValueAt(b, i);
            Run(b, v.toks, f) == f.(text := b[i..v.pos], value := b[i..v.pos])
  {
    hide NumberText;
    var n := NumberText(b, i);
    RunNumberText(b, i, f);
    RunClose(b, n.toks, Token(Action8, n.pos, n.pos), Token(MetricValue, i, n.pos), f);
  }

  lemma RunInterval(b: string, i: nat, f: Fields)
    requires IntervalAt(b, i).Match?
    ensures Run(b, IntervalAt(b, i).toks, f) == f.(histogram := true)
  {
    var x := Token(Action0, i + 2, i + 2);
    RunClose(b, [], x, Token(AggregationInterval, i, i + 2), f);
    assert [] + [x] == [x];
  }

  // ---- every accepted line gives a well-formed metric -----------------------------------------

  lemma {:induction false} DigitStarIsRun(b: string, i: nat)
    requires i <= |b|
    ensures var j := DigitStar(b, i).pos;
            AllDigits(b[i..j]) && (j < |b| ==> !IsDigit(b[j]))
    decreases |b| - i
  {
    if i < |b| && IsDigit(b[i]) {
      DigitStarIsRun(b, i + 1);
      assert b[i..DigitStar(b, i).pos] == [b[i]] + b[i + 1..DigitStar(b, i).pos];
    }
  }

  lemma {:induction false} DigitTimesIsRun(b: string, i: nat, n: nat)
    requires DigitTimes(b, i, n).Match?
    ensures AllDigits(b[i..i + n])
    decreases n
  {
    if n > 0 {
      DigitTimesIsRun(b, i + 1, n - 1);
      assert b[i..i + n] == [b[i]] + b[i + 1..i + 1 + (n - 1)];
    }
  }

  lemma {:induction false} ClassStarIsRun(b: string, i: nat, k: CharClass)
    requires i <= |b|
    ensures AllInClass(k, b[i..ClassStar(b, i, k).pos])
    decreases |b| - i
  {
    if i < |b| && InClass(k, b[i]) {
      ClassStarIsRun(b, i + 1, k);
      assert b[i..ClassStar(b, i, k).pos] == [b[i]] + b[i + 1..ClassStar(b, i, k).pos];
    }
  }

  lemma {:induction false} ValueStarIsValue(b: string, i: nat)
    requires i <= |b|
    ensures var j := ValueStar(b, i);
            && (i < j ==> b[i] != '"')
            && (forall k :: i < k < j && b[k] == '"' ==> b[k - 1] == '\\')
            && (i < j && Is(b, j, '"') ==> b[j - 1] != '\\')
    decreases |b| - i
  {
    if Is(b, i, '\\') && Is(b, i + 1, '"') {
      ValueStarIsValue(b, i + 2);
    } else if i < |b| && b[i] != '"' {
      ValueStarIsValue(b, i + 1);
    }
  }

  lemma DigitPlusIsRun(b: string, i: nat)
    requires DigitPlus(b, i).Match?
    ensures AllDigits(b[i..DigitPlus(b, i).pos])
  {
    DigitStarIsRun(b, i + 1);
    assert b[i..DigitPlus(b, i).pos] == [b[i]] + b[i + 1..DigitPlus(b, i).pos];
  }

  lemma NumberTextOk(b: string, i: nat)
    requires NumberText(b, i).Match?
    ensures NumberOk(b[i..NumberText(b, i).pos])
  {
    hide DigitPlus, AllDigits;
    var s := Skip(b, i, '-');
    var d := DigitPlus(b, s).pos;
    var j := NumberText(b, i).pos;
    DigitPlusIsRun(b, s);
    assert Unprefixed(b[i..j], '-') == b[s..j];
    if d < j {
      DigitPlusIsRun(b, d + 1);
      var u, k := b[s..j], d - s;
      assert u[..k] == b[s..d];
      assert u[k + 1..] == b[d + 1..j];
      assert u[k] == '.' && AllDigits(u[..k]) && AllDigits(u[k + 1..]);
    }
  }

  lemma MetricNameTextOk(b: string, i: nat)
    requires MetricNameAt(b, i).Match?
    ensures NameOk(MetricNameText(b, i))
  {
    var start := if QuotedNameText(b, i).Match? then i + 1 else i;
    var s := Skip(b, start, DELTA);
    var t := Skip(b, s, '~');
    var j := NameText(b, start).pos;
    ClassStarIsRun(b, t, NameChars);
    assert MetricNameText(b, i) == b[start..j];
    assert Unprefixed(b[start..j], DELTA) == b[s..j];
    assert Unprefixed(b[s..j], '~') == b[t..j];
  }

  lemma TagNameTextOk(b: string, i: nat)
    requires TagNameAt(b, i).Match?
    ensures TagNameOk(TagNameText(b, i))
  {
    ClassStarIsRun(b, i + 1, QuotedTagChars);
    ClassStarIsRun(b, i, TagChars);
  }

  lemma TagValueTextOk(b: string, i: nat)
    requires TagValueAt(b, i).Match?
    ensures TagValueOk(TagValueText(b, i))
  {
    ValueStarIsValue(b, i + 1);
  }

  lemma TimestampTextOk(b: string, i: nat)
    requires TimestampAt(b, i).Match?
    ensures TimestampOk(b[i..TimestampAt(b, i).pos])
  {
    var j := TimestampAt(b, i).pos;
    TimestampEnds(b, i);
    hide TimestampAt, DigitTimes, AllDigits;
    DigitTimesIsRun(b, i, 10);
    if i + 10 < j {
      DigitTimesIsRun(b, i + 10, 3);
      JoinDigits(b, i, i + 10, i + 13);
    }
    if i + 13 < j {
      DigitTimesIsRun(b, i + 13, 3);
      JoinDigits(b, i, i + 13, i + 16);
    }
  }

  lemma TimestampEnds(b: string, i: nat)
    requires TimestampAt(b, i).Match?
    ensures var j := TimestampAt(b, i).pos;
            && i + 10 <= j <= |b| && DigitTimes(b, i, 10).Match?
            && (i + 10 < j ==> i + 13 <= j && DigitTimes(b, i + 10, 3).Match?)
            && (i + 13 < j ==> i + 16 == j && DigitTimes(b, i + 13, 3).Match?)
  {
    hide DigitTimes;
  }

  lemma JoinDigits(b: string, i: nat, j: nat, k: nat)
    requires i <= j <= k <= |b| && AllDigits(b[i..j]) && AllDigits(b[j..k])
    ensures AllDigits(b[i..k])
  {
    assert b[i..k] == b[i..j] + b[j..k];
  }

  lemma {:induction false} TagStarOk(b: string, i: nat, f: Fields)
    requires i <= |b| && TagsOk(f.tags)
    ensures var g := Run(b, TagStar(b, i).toks, f);
            g == f.(text := g.text, tag := g.tag, tags := g.tags) && TagsOk(g.tags) && f.tags.Keys <= g.tags.Keys
    decreases |b| - i
  {
    hide TagAt;
    if Is(b, i, ' ') && TagAt(b, i + 1).Match? {
      TagOk(b, i + 1, f);
      var g := Run(b, TagAt(b, i + 1).toks, f);
      TagStarOk(b, TagAt(b, i + 1).pos, g);
      RunCat(b, TagAt(b, i + 1).toks, TagStar(b, TagAt(b, i + 1).pos).toks, f);
    }
  }

  lemma TagOk(b: string, i: nat, f: Fields)
    requires TagAt(b, i).Match? && TagsOk(f.tags)
    ensures var g := Run(b, TagAt(b, i).toks, f);
            && g == f.(text := g.text, tag := g.tag, tags := g.tags)
            && TagsOk(g.tags) && g.tag in g.tags && f.tags.Keys <= g.tags.Keys
  {
    RunTag(b, i, f);
    hide TagNameAt, TagValueAt;
    TagNameTextOk(b, i);
    TagValueTextOk(b, TagNameAt(b, i).pos + 1);
  }

  lemma RunTags(b: string, x: Token, t: seq<Token>, u: seq<Token>, y: Token, f: Fields)
    requires TokensWithin(t, |b|) && TokensWithin(u, |b|) && x.begin <= x.end <= |b| && y.begin <= y.end <= |b|
    ensures TokensWithin([x] + t + u + [y], |b|)
    ensures Run(b, [x] + t + u + [y], f) == Act(b, y, Run(b, u, Run(b, t, Act(b, x, f))))
  {
    RunAdd(b, [], x, f);
    assert [] + [x] == [x];
    RunCat(b, [x], t, f);
    RunCat(b, [x] + t, u, f);
    RunAdd(b, [x] + t + u, y, f);
  }

  lemma RunTagsToEnd(b: string, i: nat, f: Fields)
    requires TagsToEnd(b, i).Match?
    ensures Is(b, i, ' ') && TagAt(b, i + 1).Match?
    ensures var t := TagAt(b, i + 1);
            Run(b, TagsToEnd(b, i).toks, f) == Run(b, TagStar(b, t.pos).toks, Run(b, t.toks, f.(tags := map[])))
  {
    hide TagAt, TagStar;
    var t := TagAt(b, i + 1);
    var u := TagStar(b, t.pos);
    RunTags(b, Token(Action4, i + 1, i + 1), t.toks, u.toks, Token(Tags, i + 1, u.pos), f);
  }

  lemma TagsToEndStarts(b: string, i: nat)
    requires Is(b, i, ' ') && TagAt(b, i + 1).Match? && TagStar(b, TagAt(b, i + 1).pos).pos == |b|
    ensures TagsToEnd(b, i).Match? && TagsToEnd(b, i).pos == |b|
  {
    hide TagAt, TagStar;
  }

  lemma TagsToEndOk(b: string, i: nat, f: Fields)
    requires TagsToEnd(b, i).Match?
    ensures var g := Run(b, TagsToEnd(b, i).toks, f);
            g == f.(text := g.text, tag := g.tag, tags := g.tags) && TagsOk(g.tags) && g.tags != map[]
  {
    hide TagsToEnd, TagAt, TagStar;
    RunTagsToEnd(b, i, f);
    var t := TagAt(b, i + 1);
    var g := f.(tags := map[]);
    TagOk(b, i + 1, g);
    TagStarOk(b, t.pos, Run(b, t.toks, g));
  }

  lemma {:induction false} BucketStarOk(b: string, i: nat, f: Fields)
    requires i <= |b| && BucketsOk(f.buckets)
    ensures var g := Run(b, BucketStar(b, i).toks, f);
            && g == f.(text := g.text, count := g.count, buckets := g.buckets)
            && BucketsOk(g.buckets) && f.buckets.Keys <= g.buckets.Keys
    decreases |b| - i
  {
    hide BucketAt;
    if Is(b, i, ' ') && BucketAt(b, i + 1).Match? {
      BucketOk(b, i + 1, f);
      var g := Run(b, BucketAt(b, i + 1).toks, f);
      BucketStarOk(b, BucketAt(b, i + 1).pos, g);
      RunCat(b, BucketAt(b, i + 1).toks, BucketStar(b, BucketAt(b, i + 1).pos).toks, f);
    }
  }

  lemma BucketOk(b: string, i: nat, f: Fields)
    requires BucketAt(b, i).Match? && BucketsOk(f.buckets)
    ensures var g := Run(b, BucketAt(b, i).toks, f);
            && g == f.(text := g.text, count := g.count, buckets := g.buckets)
            && BucketsOk(g.buckets) && g.text in g.buckets && f.buckets.Keys <= g.buckets.Keys
  {
    hide BucketAt, HistogramCountAt, NumberOk;
    RunBucket(b, i, f);
    BucketTextsOk(b, i);
  }

  lemma BucketTextsOk(b: string, i: nat)
    requires BucketAt(b, i).Match?
    ensures var c, v := HistogramCountAt(b, i), BucketAt(b, i);
            NumberOk(b[i + 1..c.pos]) && NumberOk(b[c.pos + 1..v.pos])
  {
    hide NumberText, NumberOk;
    NumberTextOk(b, i + 1);
    NumberTextOk(b, HistogramCountAt(b, i).pos + 1);
  }

  lemma RunBuckets(b: string, i: nat, f: Fields)
    requires i <= |b| && BucketsAt(b, i).Match?
    ensures var t := BucketAt(b, i);
            Run(b, BucketsAt(b, i).toks, f)
            == Run(b, BucketStar(b, t.pos).toks, Run(b, t.toks, f.(buckets := map[])))
  {
    hide BucketAt, BucketStar;
    var t := BucketAt(b, i);
    var u := BucketStar(b, t.pos);
    RunTags(b, Token(Action1, i, i), t.toks, u.toks, Token(HistogramValues, i, u.pos), f);
  }

  lemma BucketsAtStarts(b: string, i: nat)
    requires i <= |b|
    ensures BucketsAt(b, i).Match? <==> BucketAt(b, i).Match?
    ensures BucketsAt(b, i).Match? ==> BucketsAt(b, i).pos == BucketStar(b, BucketAt(b, i).pos).pos
  {
    hide BucketAt, BucketStar;
  }

  lemma BucketsAtOk(b: string, i: nat, f: Fields)
    requires i <= |b| && BucketsAt(b, i).Match?
    ensures var g := Run(b, BucketsAt(b, i).toks, f);
            && g == f.(text := g.text, count := g.count, buckets := g.buckets)
            && BucketsOk(g.buckets) && g.buckets != map[]
  {
    BucketsAtStarts(b, i);
    RunBuckets(b, i, f);
    hide BucketsAt, BucketAt, BucketStar;
    var t := BucketAt(b, i);
    var g := f.(buckets := map[]);
    BucketOk(b, i, g);
    BucketStarOk(b, t.pos, Run(b, t.toks, g));
  }

  lemma TimestampOptOk(b: string, i: nat, f: Fields)
    requires i <= |b| && TimestampOk(f.timestamp)
    ensures var g := Run(b, TimestampOpt(b, i).toks, f);
            g == f.(text := g.text, timestamp := g.timestamp) && TimestampOk(g.timestamp)
  {
    hide TimestampAt;
    if Is(b, i, ' ') && TimestampAt(b, i + 1).Match? {
      RunTimestamp(b, i + 1, f);
      TimestampTextOk(b, i + 1);
    }
  }

  lemma HistogramLineOk(b: string)
    requires HistogramLine(b).Match?
    ensures var g := Run(b, HistogramLine(b).toks, NoFields);
            g.histogram && WellFormed(ToMetric(g))
  {
    hide IntervalAt, TimestampOpt, BucketsAt, MetricNameAt, TagsToEnd, NameOk, TagsOk, BucketsOk, TimestampOk;
    var t := IntervalAt(b, 0);
    var u := TimestampOpt(b, t.pos);
    var v := BucketsAt(b, u.pos + 1);
    var w := MetricNameAt(b, v.pos + 1);
    var x := TagsToEnd(b, w.pos);
    RunInterval(b, 0, NoFields);
    var f1 := NoFields.(histogram := true);
    TimestampOptStart(b, t.pos, f1);
    var f2 := Run(b, u.toks, f1);
    BucketsAtOk(b, u.pos + 1, f2);
    var f3 := Run(b, v.toks, f2);
    RunMetricName(b, v.pos + 1, f3);
    MetricNameTextOk(b, v.pos + 1);
    var f4 := Run(b, w.toks, f3);
    TagsToEndOk(b, w.pos, f4);
    RunCat(b, w.toks, x.toks, f3);
    RunCat(b, v.toks, w.toks + x.toks, f2);
    RunCat(b, t.toks, u.toks, NoFields);
    RunCat(b, t.toks + u.toks, v.toks + (w.toks + x.toks), NoFields);
  }

  lemma TimestampOptStart(b: string, i: nat, f: Fields)
    requires i <= |b| && f.timestamp == ""
    ensures var g := Run(b, TimestampOpt(b, i).toks, f);
            g == f.(text := g.text, timestamp := g.timestamp) && TimestampOk(g.timestamp)
  {
    TimestampOptOk(b, i, f);
  }

  lemma PointLineOk(b: string)
    requires PointLine(b).Match?
    ensures var g := Run(b, PointLine(b).toks, NoFields);
            !g.histogram && WellFormed(ToMetric(g))
  {
    hide MetricNameAt, MetricValueAt, TimestampOpt, TagsToEnd, NameOk, TagsOk, TimestampOk, NumberOk;
    var t := MetricNameAt(b, 0);
    var u := MetricValueAt(b, t.pos + 1);
    var v := TimestampOpt(b, u.pos);
    var w := TagsToEnd(b, v.pos);
    RunMetricName(b, 0, NoFields);
    MetricNameTextOk(b, 0);
    var f1 := Run(b, t.toks, NoFields);
    RunMetricValue(b, t.pos + 1, f1);
    MetricValueOk(b, t.pos + 1);
    var f2 := Run(b, u.toks, f1);
    TimestampOptStart(b, u.pos, f2);
    var f3 := Run(b, v.toks, f2);
    TagsToEndOk(b, v.pos, f3);
    RunCat(b, u.toks, v.toks, f1);
    RunCat(b, u.toks + v.toks, w.toks, f1);
    RunCat(b, t.toks, u.toks + v.toks + w.toks, NoFields);
    assert BucketsOk(map[]);
  }

  lemma MetricValueOk(b: string, i: nat)
    requires MetricValueAt(b, i).Match?
    ensures NumberOk(b[i..MetricValueAt(b, i).pos])
  {
    NumberTextOk(b, i);
  }

  /** Whatever the line, a metric that Parse gives is well formed. */
  lemma ParsedIsWellFormed(line: string)
    requires ParseLine(line).Some?
    ensures WellFormed(ParseLine(line).value)
  {
    hide HistogramLine, PointLine, WellFormed;
    var m := if HistogramLine(line).Match? then HistogramLine(line) else PointLine(line);
    if HistogramLine(line).Match? {
      HistogramLineOk(line);
    } else {
      PointLineOk(line);
    }
    RunAdd(line, m.toks, Token(MetricGrammarRule, 0, m.pos), NoFields);
  }

  // ---- a printed metric is read back ----------------------------------------------------------

  ghost predicate At(b: string, i: nat, s: string) {
    i + |s| <= |b| && b[i..i + |s|] == s
  }

  lemma AtCat(b: string, i: nat, s: string, t: string)
    ensures At(b, i, s + t) <==> At(b, i, s) && At(b, i + |s|, t)
  {
    if i + |s| + |t| <= |b| {
      var w := b[i..i + |s| + |t|];
      assert w[..|s|] == b[i..i + |s|] && w[|s|..] == b[i + |s|..i + |s| + |t|];
      assert (s + t)[..|s|] == s && (s + t)[|s|..] == t;
      assert w == w[..|s|] + w[|s|..];
    }
  }

  lemma AtChar(b: string, i: nat, c: char)
    ensures At(b, i, [c]) <==> Is(b, i, c)
  {
  }

  lemma AtQuote(b: string, i: nat, s: string)
    requires At(b, i, Quote(s))
    ensures Is(b, i, '"') && At(b, i + 1, s) && Is(b, i + 1 + |s|, '"')
  {
    AtCat(b, i, "\"" + s, "\"");
    AtCat(b, i, "\"", s);
  }

  lemma {:induction false} DigitStarEnds(b: string, i: nat, j: nat)
    requires i <= j <= |b| && AllDigits(b[i..j]) && (j < |b| ==> !IsDigit(b[j]))
    ensures DigitStar(b, i).pos == j
    decreases j - i
  {
    if i < j {
      assert b[i..j] == [b[i]] + b[i + 1..j];
      DigitStarEnds(b, i + 1, j);
    }
  }

  lemma DigitPlusEnds(b: string, i: nat, j: nat)
    requires i < j <= |b| && AllDigits(b[i..j]) && (j < |b| ==> !IsDigit(b[j]))
    ensures DigitPlus(b, i).Match? && DigitPlus(b, i).pos == j
  {
    assert b[i..j] == [b[i]] + b[i + 1..j];
    DigitStarEnds(b, i + 1, j);
  }

  lemma {:induction false} DigitTimesEnds(b: string, i: nat, n: nat)
    requires i + n <= |b| && AllDigits(b[i..i + n])
    ensures DigitTimes(b, i, n).Match?
    decreases n
  {
    if n > 0 {
      assert b[i..i + n] == [b[i]] + b[i + 1..i + 1 + (n - 1)];
      DigitTimesEnds(b, i + 1, n - 1);
    }
  }

  lemma {:induction false} ClassStarEnds(b: string, i: nat, j: nat, k: CharClass)
    requires i <= j <= |b| && AllInClass(k, b[i..j]) && (j < |b| ==> !InClass(k, b[j]))
    ensures ClassStar(b, i, k).pos == j
    decreases j - i
  {
    if i < j {
      assert b[i..j] == [b[i]] + b[i + 1..j];
      ClassStarEnds(b, i + 1, j, k);
    }
  }

  lemma ClassPlusEnds(b: string, i: nat, j: nat, k: CharClass)
    requires i < j <= |b| && AllInClass(k, b[i..j]) && (j < |b| ==> !InClass(k, b[j]))
    ensures ClassPlus(b, i, k).Match? && ClassPlus(b, i, k).pos == j
  {
    assert b[i] in b[i..j];
    ClassStarEnds(b, i, j, k);
  }

  lemma {:induction false} ValueStarEnds(b: string, i: nat, j: nat)
    requires i <= j < |b| && b[j] == '"'
    requires i < j ==> b[i] != '"' && b[j - 1] != '\\'
    requires forall k :: i < k < j && b[k] == '"' ==> b[k - 1] == '\\'
    ensures ValueStar(b, i) == j
    decreases j - i
  {
    if i < j {
      if b[i] == '\\' && b[i + 1] == '"' {
        ValueStarEnds(b, i + 2, j);
      } else {
        ValueStarEnds(b, i + 1, j);
      }
    }
  }

  lemma AtSlice(b: string, i: nat, s: string, lo: nat, hi: nat)
    requires At(b, i, s) && lo <= hi <= |s|
    ensures b[i + lo..i + hi] == s[lo..hi]
    ensures forall k :: 0 <= k < |s| ==> b[i + k] == s[k]
  {
    forall k | 0 <= k < hi - lo
      ensures b[i + lo..i + hi][k] == s[lo..hi][k]
    {
      assert b[i..i + |s|][lo + k] == b[i + (lo + k)];
    }
  }

  lemma ReadDecimal(b: string, i: nat, s: string, k: nat)
    requires At(b, i, s) && 0 < k < |s| - 1 && s[k] == '.' && AllDigits(s[..k]) && AllDigits(s[k + 1..])
    requires i + |s| < |b| ==> !IsDigit(b[i + |s|])
    ensures DigitPlus(b, i).Match? && FractionOpt(b, DigitPlus(b, i).pos).pos == i + |s|
  {
    hide DigitPlus, AllDigits;
    AtSlice(b, i, s, 0, k);
    AtSlice(b, i, s, k + 1, |s|);
    DigitPlusEnds(b, i, i + k);
    DigitPlusEnds(b, i + k + 1, i + |s|);
  }

  lemma ReadUnsigned(b: string, i: nat, s: string)
    requires At(b, i, s) && Unsigned(s)
    requires i + |s| < |b| ==> !IsDigit(b[i + |s|]) && b[i + |s|] != '.'
    ensures DigitPlus(b, i).Match? && FractionOpt(b, DigitPlus(b, i).pos).pos == i + |s|
  {
    hide DigitPlus;
    if AllDigits(s) {
      DigitPlusEnds(b, i, i + |s|);
    } else {
      var k :| 0 < k < |s| - 1 && s[k] == '.' && AllDigits(s[..k]) && AllDigits(s[k + 1..]);
      ReadDecimal(b, i, s, k);
    }
  }

  lemma ReadNumber(b: string, i: nat, s: string)
    requires At(b, i, s) && NumberOk(s)
    requires i + |s| < |b| ==> !IsDigit(b[i + |s|]) && b[i + |s|] != '.'
    ensures NumberText(b, i).Match? && NumberText(b, i).pos == i + |s|
  {
    hide DigitPlus, FractionOpt, Unsigned;
    var u := Unprefixed(s, '-');
    var t := i + |s| - |u|;
    assert s != "" by {
      UnsignedNotEmpty(u);
    }
    assert b[i] == s[0];
    assert b[t..i + |s|] == u;
    assert Skip(b, i, '-') == t;
    ReadUnsigned(b, t, u);
  }

  lemma UnsignedNotEmpty(s: string)
    requires Unsigned(s)
    ensures s != ""
  {
  }

  lemma ReadTimestamp(b: string, i: nat, s: string)
    requires At(b, i, s) && TimestampOk(s) && s != ""
    requires i + |s| < |b| && !IsDigit(b[i + |s|])
    ensures TimestampAt(b, i).Match? && TimestampAt(b, i).pos == i + |s| && b[i..i + |s|] == s
  {
    DigitsOf(b, i, s, 0, 10);
    if |s| > 10 {
      DigitsOf(b, i, s, 10, 3);
    } else {
      NoDigits(b, i + 10);
    }
    if |s| > 13 {
      DigitsOf(b, i, s, 13, 3);
    } else {
      NoDigits(b, i + |s|);
    }
  }

  lemma DigitsOf(b: string, i: nat, s: string, k: nat, n: nat)
    requires At(b, i, s) && AllDigits(s) && k + n <= |s|
    ensures DigitTimes(b, i + k, n).Match?
  {
    forall c | c in b[i + k..i + k + n]
      ensures c in s
    {
    }
    DigitTimesEnds(b, i + k, n);
  }

  lemma NoDigits(b: string, i: nat)
    requires i < |b| && !IsDigit(b[i])
    ensures DigitTimes(b, i, 3).NoMatch? && DigitTimes(b, i, 10).NoMatch?
  {
  }

  lemma ReadName(b: string, i: nat, s: string)
    requires At(b, i, Quote(s)) && NameOk(s)
    ensures MetricNameAt(b, i).Match? && MetricNameAt(b, i).pos == i + |Quote(s)| && MetricNameText(b, i) == s
  {
    AtQuote(b, i, s);
    ReadNameText(b, i + 1, s);
    hide NameText, NameOk;
  }

  lemma ReadNameText(b: string, i: nat, s: string)
    requires At(b, i, s) && NameOk(s) && i + |s| < |b| && !InClass(NameChars, b[i + |s|])
    ensures NameText(b, i).Match? && NameText(b, i).pos == i + |s| && b[i..i + |s|] == s
  {
    var j := i + |s|;
    var v := Unprefixed(Unprefixed(s, DELTA), '~');
    NamePrefixes(b, i, s);
    hide ClassPlus, AllInClass, At, Unprefixed, Skip;
    AtSlice(b, i, s, 0, |s|);
    AtSlice(b, i, s, |s| - |v|, |s|);
    ClassPlusEnds(b, j - |v|, j, NameChars);
  }

  /** The prefixes that the grammar skips are those of the name. */
  lemma NamePrefixes(b: string, i: nat, s: string)
    requires At(b, i, s) && NameOk(s) && i + |s| < |b| && !InClass(NameChars, b[i + |s|])
    ensures var v := Unprefixed(Unprefixed(s, DELTA), '~');
            |v| <= |s| && s[|s| - |v|..|s|] == v && Skip(b, Skip(b, i, DELTA), '~') == i + |s| - |v|
  {
    hide AllInClass, At;
    AtSlice(b, i, s, 0, |s|);
  }

  lemma ReadTagName(b: string, i: nat, s: string)
    requires At(b, i, Quote(s)) && TagNameOk(s)
    ensures TagNameAt(b, i).Match? && TagNameAt(b, i).pos == i + |Quote(s)| && TagNameText(b, i) == s
  {
    AtQuote(b, i, s);
    ClassPlusEnds(b, i + 1, i + 1 + |s|, QuotedTagChars);
  }

  lemma ReadTagValue(b: string, i: nat, s: string)
    requires At(b, i, Quote(s)) && TagValueOk(s)
    ensures TagValueAt(b, i).Match? && TagValueAt(b, i).pos == i + |Quote(s)| && TagValueText(b, i) == s
  {
    AtQuote(b, i, s);
    var j := i + 1 + |s|;
    assert b[i + 1..j] == s;
    forall k | i + 1 < k < j && b[k] == '"'
      ensures b[k - 1] == '\\'
    {
      assert s[k - i - 1] == '"';
      assert s[k - i - 2] == b[k - 1];
    }
    assert s[0] == b[i + 1] && s[|s| - 1] == b[j - 1];
    ValueStarEnds(b, i + 1, j);
  }

  lemma ReadTag(b: string, i: nat, name: string, value: string, f: Fields)
    requires At(b, i, PrintTag(name, value)) && TagNameOk(name) && TagValueOk(value)
    ensures TagAt(b, i).Match? && TagAt(b, i).pos == i + |PrintTag(name, value)|
    ensures Run(b, TagAt(b, i).toks, f) == f.(text := value, tag := name, tags := f.tags[name := value])
  {
    hide TagNameAt, TagValueAt, TagNameOk, TagValueOk, At;
    AtCat(b, i, Quote(name) + "=", Quote(value));
    AtCat(b, i, Quote(name), "=");
    AtChar(b, i + |Quote(name)|, '=');
    ReadTagName(b, i, name);
    ReadTagValue(b, i + |Quote(name)| + 1, value);
    RunTag(b, i, f);
  }

  ghost function Chosen(order: seq<string>, m: map<string, string>): map<string, string>
    requires forall k :: k in order ==> k in m
  {
    map k | k in order :: m[k]
  }

  lemma ChosenStep(order: seq<string>, m: map<string, string>, f: map<string, string>)
    requires order != [] && forall k :: k in order ==> k in m
    ensures f[order[0] := m[order[0]]] + Chosen(order[1..], m) == f + Chosen(order, m)
  {
    assert forall k :: k in order <==> k == order[0] || k in order[1..];
  }

  lemma ChosenAll(order: seq<string>, m: map<string, string>)
    requires Enumerates(order, m)
    ensures map[] + Chosen(order, m) == m
  {
  }

  /** Read the first of the tags still to come: what it matches and the fields it leaves. */
  lemma ReadTagStep(b: string, i: nat, order: seq<string>, tags: map<string, string>, f: Fields)
    returns (t: Match, g: Fields)
    requires forall k :: k in order ==> k in tags
    requires order != [] && At(b, i, PrintMoreTags(order, tags)) && TagsOk(tags)
    ensures Is(b, i, ' ') && t == TagAt(b, i + 1) && t.Match? && g == Run(b, t.toks, f)
    ensures t.pos + |PrintMoreTags(order[1..], tags)| == i + |PrintMoreTags(order, tags)|
    ensures At(b, t.pos, PrintMoreTags(order[1..], tags))
    ensures g == f.(text := g.text, tag := g.tag, tags := f.tags[order[0] := tags[order[0]]])
  {
    hide TagAt, TagNameOk, TagValueOk, PrintTag, At;
    var name := order[0];
    var tag := PrintTag(name, tags[name]);
    AtCat(b, i, " " + tag, PrintMoreTags(order[1..], tags));
    AtCat(b, i, " ", tag);
    AtChar(b, i, ' ');
    ReadTag(b, i + 1, name, tags[name], f);
    t := TagAt(b, i + 1);
    g := Run(b, t.toks, f);
  }

  lemma {:induction false} ReadTagStar(b: string, i: nat, order: seq<string>, tags: map<string, string>, f: Fields)
    requires forall k :: k in order ==> k in tags
    requires At(b, i, PrintMoreTags(order, tags)) && i + |PrintMoreTags(order, tags)| == |b| && TagsOk(tags)
    ensures TagStar(b, i).pos == |b|
    ensures var g := Run(b, TagStar(b, i).toks, f);
            g == f.(text := g.text, tag := g.tag, tags := f.tags + Chosen(order, tags))
    decreases |order|
  {
    if order == [] {
      assert f.tags + Chosen(order, tags) == f.tags;
    } else {
      hide TagAt, PrintMoreTags, Chosen;
      var t, g := ReadTagStep(b, i, order, tags, f);
      ReadTagStar(b, t.pos, order[1..], tags, g);
      RunCat(b, t.toks, TagStar(b, t.pos).toks, f);
      ChosenStep(order, tags, f.tags);
    }
  }

  lemma ReadTagsToEnd(b: string, i: nat, order: seq<string>, tags: map<string, string>, f: Fields)
    requires Enumerates(order, tags) && tags != map[] && TagsOk(tags)
    requires At(b, i, PrintMoreTags(order, tags)) && i + |PrintMoreTags(order, tags)| == |b|
    ensures TagsToEnd(b, i).Match? && TagsToEnd(b, i).pos == |b|
    ensures var g := Run(b, TagsToEnd(b, i).toks, f);
            g == f.(text := g.text, tag := g.tag, tags := tags)
  {
    hide TagsToEnd, TagAt, TagStar, PrintMoreTags, Chosen, At, TagNameOk, TagValueOk;
    var k :| k in tags;
    assert order != [];
    var t, g := ReadTagStep(b, i, order, tags, f.(tags := map[]));
    ReadTagStar(b, t.pos, order[1..], tags, g);
    TagsToEndStarts(b, i);
    RunTagsToEnd(b, i, f);
    ChosenStep(order, tags, map[]);
    ChosenAll(order, tags);
  }

  lemma AtBucket(b: string, i: nat, count: string, value: string)
    requires At(b, i, PrintBucket(count, value))
    ensures Is(b, i, '#') && At(b, i + 1, count) && Is(b, i + 1 + |count|, ' ') && At(b, i + 1 + |count| + 1, value)
  {
    AtCat(b, i, "#" + count + " ", value);
    AtCat(b, i, "#" + count, " ");
    AtCat(b, i, "#", count);
  }

  lemma ReadBucket(b: string, i: nat, count: string, value: string, f: Fields)
    requires At(b, i, PrintBucket(count, value)) && NumberOk(count) && NumberOk(value)
    requires Is(b, i + |PrintBucket(count, value)|, ' ')
    ensures BucketAt(b, i).Match? && BucketAt(b, i).pos == i + |PrintBucket(count, value)|
    ensures Run(b, BucketAt(b, i).toks, f) == f.(text := value, count := count, buckets := f.buckets[value := count])
  {
    hide NumberText, NumberOk, At;
    AtBucket(b, i, count, value);
    ReadNumber(b, i + 1, count);
    ReadNumber(b, i + 1 + |count| + 1, value);
    RunBucket(b, i, f);
  }

  lemma NoBucket(b: string, i: nat)
    requires !Is(b, i, '#')
    ensures BucketAt(b, i).NoMatch?
  {
  }

  lemma {:induction false} ReadBucketStar(b: string, i: nat, order: seq<string>, buckets: map<string, string>, f: Fields)
    requires forall k :: k in order ==> k in buckets
    requires At(b, i, PrintMoreBuckets(order, buckets)) && BucketsOk(buckets)
    requires var j := i + |PrintMoreBuckets(order, buckets)|; Is(b, j, ' ') && !Is(b, j + 1, '#')
    ensures BucketStar(b, i).pos == i + |PrintMoreBuckets(order, buckets)|
    ensures var g := Run(b, BucketStar(b, i).toks, f);
            g == f.(text := g.text, count := g.count, buckets := f.buckets + Chosen(order, buckets))
    decreases |order|
  {
    if order == [] {
      hide BucketAt;
      NoBucket(b, i + 1);
      assert f.buckets + Chosen(order, buckets) == f.buckets;
    } else {
      hide BucketAt, PrintMoreBuckets, Chosen;
      var t, g := ReadBucketStep(b, i, order, buckets, f);
      ReadBucketStar(b, t.pos, order[1..], buckets, g);
      RunCat(b, t.toks, BucketStar(b, t.pos).toks, f);
      ChosenStep(order, buckets, f.buckets);
    }
  }

  lemma MoreBucketsStart(b: string, i: nat, order: seq<string>, buckets: map<string, string>)
    requires order != [] && forall k :: k in order ==> k in buckets
    requires At(b, i, PrintMoreBuckets(order, buckets))
    ensures Is(b, i, ' ')
  {
    assert PrintMoreBuckets(order, buckets)[0] == ' ';
  }

  /** Read the first of the buckets still to come: what it matches and the fields it leaves. */
  lemma ReadBucketStep(b: string, i: nat, order: seq<string>, buckets: map<string, string>, f: Fields)
    returns (t: Match, g: Fields)
    requires forall k :: k in order ==> k in buckets
    requires order != [] && At(b, i, PrintMoreBuckets(order, buckets)) && BucketsOk(buckets)
    requires Is(b, i + |PrintMoreBuckets(order, buckets)|, ' ')
    ensures Is(b, i, ' ') && t == BucketAt(b, i + 1) && t.Match? && g == Run(b, t.toks, f)
    ensures t.pos + |PrintMoreBuckets(order[1..], buckets)| == i + |PrintMoreBuckets(order, buckets)|
    ensures At(b, t.pos, PrintMoreBuckets(order[1..], buckets))
    ensures g == f.(text := g.text, count := g.count, buckets := f.buckets[order[0] := buckets[order[0]]])
  {
    hide BucketAt, NumberOk, At;
    var value := order[0];
    var bucket := PrintBucket(buckets[value], value);
    var more := PrintMoreBuckets(order[1..], buckets);
    AtCat(b, i, " " + bucket, more);
    AtCat(b, i, " ", bucket);
    AtChar(b, i, ' ');
    if order[1..] != [] {
      MoreBucketsStart(b, i + 1 + |bucket|, order[1..], buckets);
    }
    ReadBucket(b, i + 1, buckets[value], value, f);
    t := BucketAt(b, i + 1);
    g := Run(b, t.toks, f);
  }

  /** The bucket list of a histogram line, together with the space before it. */
  lemma ReadBuckets(b: string, i: nat, order: seq<string>, buckets: map<string, string>, f: Fields)
    requires Enumerates(order, buckets) && buckets != map[] && BucketsOk(buckets)
    requires At(b, i, PrintMoreBuckets(order, buckets))
    requires var j := i + |PrintMoreBuckets(order, buckets)|; Is(b, j, ' ') && !Is(b, j + 1, '#')
    ensures Is(b, i, ' ') && BucketsAt(b, i + 1).Match?
    ensures BucketsAt(b, i + 1).pos == i + |PrintMoreBuckets(order, buckets)|
    ensures var g := Run(b, BucketsAt(b, i + 1).toks, f);
            g == f.(text := g.text, count := g.count, buckets := buckets)
  {
    hide BucketsAt, BucketAt, BucketStar, PrintMoreBuckets, Chosen, BucketsOk, At;
    var k :| k in buckets;
    assert order != [];
    var t, g := ReadBucketStep(b, i, order, buckets, f.(buckets := map[]));
    BucketsAtStarts(b, i + 1);
    RunBuckets(b, i + 1, f);
    ReadBucketStar(b, t.pos, order[1..], buckets, g);
    ChosenStep(order, buckets, map[]);
    ChosenAll(order, buckets);
  }

  lemma NoTimestamp(b: string, i: nat)
    requires i < |b| && !IsDigit(b[i])
    ensures TimestampAt(b, i).NoMatch?
  {
    NoDigits(b, i);
  }

  /** The optional timestamp, before a space that no digit follows. */
  lemma ReadStamp(b: string, i: nat, timestamp: string, f: Fields)
    requires At(b, i, PrintStamp(timestamp)) && TimestampOk(timestamp) && f.timestamp == ""
    requires var j := i + |PrintStamp(timestamp)|; Is(b, j, ' ') && j + 1 < |b| && !IsDigit(b[j + 1])
    ensures TimestampOpt(b, i).pos == i + |PrintStamp(timestamp)|
    ensures var g := Run(b, TimestampOpt(b, i).toks, f);
            g == f.(text := g.text, timestamp := timestamp)
  {
    hide TimestampAt, TimestampOk, At;
    if timestamp == "" {
      NoTimestamp(b, i + 1);
    } else {
      AtCat(b, i, " ", timestamp);
      AtChar(b, i, ' ');
      ReadTimestamp(b, i + 1, timestamp);
      RunTimestamp(b, i + 1, f);
    }
  }

  /** The name of a metric and what follows it in a histogram line. */
  lemma ReadNameAndTags(b: string, i: nat, m: Metric, order: seq<string>, f: Fields)
    requires Enumerates(order, m.tags) && m.tags != map[] && TagsOk(m.tags) && NameOk(m.name)
    requires At(b, i, PrintNameAndTags(m, order)) && i + |PrintNameAndTags(m, order)| == |b|
    ensures NameAndTags(b, i).Match? && NameAndTags(b, i).pos == |b|
    ensures var g := Run(b, NameAndTags(b, i).toks, f);
            g == f.(text := g.text, tag := g.tag, tags := m.tags, name := m.name)
  {
    hide MetricNameAt, TagsToEnd, NameOk, TagsOk, PrintMoreTags, Quote, At;
    AtCat(b, i, " " + Quote(m.name), PrintMoreTags(order, m.tags));
    AtCat(b, i, " ", Quote(m.name));
    AtChar(b, i, ' ');
    ReadName(b, i + 1, m.name);
    RunMetricName(b, i + 1, f);
    var n := MetricNameAt(b, i + 1);
    ReadTagsToEnd(b, n.pos, order, m.tags, Run(b, n.toks, f));
    RunCat(b, n.toks, TagsToEnd(b, n.pos).toks, f);
  }

  /** A non-empty list of tags starts with a space and a quote. */
  lemma TagsStart(b: string, i: nat, order: seq<string>, m: map<string, string>)
    requires Enumerates(order, m) && m != map[] && At(b, i, PrintMoreTags(order, m))
    ensures Is(b, i, ' ') && Is(b, i + 1, '"')
  {
    var k :| k in m;
    assert k in order;
    var s := PrintMoreTags(order, m);
    assert s[..2] == " \"";
    hide PrintMoreTags;
    AtStart(b, i, s);
  }

  /** A non-empty list of buckets starts with " #". */
  lemma BucketsStart(b: string, i: nat, order: seq<string>, m: map<string, string>)
    requires Enumerates(order, m) && m != map[] && At(b, i, PrintMoreBuckets(order, m))
    ensures Is(b, i, ' ') && Is(b, i + 1, '#')
  {
    var k :| k in m;
    assert k in order;
    var s := PrintMoreBuckets(order, m);
    assert s[..2] == " #";
    hide PrintMoreBuckets;
    AtStart(b, i, s);
  }

  lemma AtStart(b: string, i: nat, s: string)
    requires At(b, i, s) && |s| >= 2
    ensures Is(b, i, s[..2][0]) && Is(b, i + 1, s[..2][1])
  {
    AtSlice(b, i, s, 0, 2);
  }

  lemma ReadBucketsAndRest(b: string, i: nat, m: Metric, tags: seq<string>, buckets: seq<string>, f: Fields)
    requires Enumerates(tags, m.tags) && Enumerates(buckets, m.buckets) && WellFormed(m) && m.buckets != map[]
    requires var s := PrintMoreBuckets(buckets, m.buckets) + PrintNameAndTags(m, tags);
             At(b, i, s) && i + |s| == |b|
    ensures BucketsAndRest(b, i).Match? && BucketsAndRest(b, i).pos == |b|
    ensures var g := Run(b, BucketsAndRest(b, i).toks, f);
            g == f.(text := g.text, tag := g.tag, count := g.count, tags := m.tags, name := m.name, buckets := m.buckets)
  {
    hide BucketsAt, NameAndTags, NameOk, TagsOk, BucketsOk, NumberOk, TimestampOk, PrintMoreBuckets, PrintNameAndTags,
      PrintMoreTags, At, Run;
    var j := i + |PrintMoreBuckets(buckets, m.buckets)|;
    AtCat(b, i, PrintMoreBuckets(buckets, m.buckets), PrintNameAndTags(m, tags));
    NameAndTagsStart(b, j, m, tags);
    ReadBuckets(b, i, buckets, m.buckets, f);
    var n := BucketsAt(b, i + 1);
    ReadNameAndTags(b, j, m, tags, Run(b, n.toks, f));
    RunCat(b, n.toks, NameAndTags(b, j).toks, f);
  }

  lemma NameAndTagsStart(b: string, i: nat, m: Metric, tags: seq<string>)
    requires Enumerates(tags, m.tags) && At(b, i, PrintNameAndTags(m, tags))
    ensures Is(b, i, ' ') && Is(b, i + 1, '"')
  {
    AtCat(b, i, " " + Quote(m.name), PrintMoreTags(tags, m.tags));
    AtCat(b, i, " ", Quote(m.name));
    AtChar(b, i, ' ');
    AtQuoteStart(b, i + 1, m.name);
  }

  lemma AtQuoteStart(b: string, i: nat, s: string)
    requires At(b, i, Quote(s))
    ensures Is(b, i, '"')
  {
    AtQuote(b, i, s);
  }

  /** The printed line is a head of two characters, the timestamp, and what follows it. */
  lemma HistogramLineParts(m: Metric, granularity: char, tags: seq<string>, buckets: seq<string>)
    requires Enumerates(tags, m.tags) && Enumerates(buckets, m.buckets) && m.buckets != map[]
    ensures var b := Print(m, granularity, tags, buckets);
            var stamp := PrintStamp(m.timestamp);
            var rest := PrintMoreBuckets(buckets, m.buckets) + PrintNameAndTags(m, tags);
            && |b| == 2 + |stamp| + |rest| && b[0] == '!' && b[1] == granularity
            && At(b, 2, stamp) && At(b, 2 + |stamp|, rest)
            && Is(b, 2 + |stamp|, ' ') && Is(b, 3 + |stamp|, '#')
  {
    hide PrintMoreBuckets, PrintMoreTags, PrintStamp, PrintNameAndTags;
    var b := Print(m, granularity, tags, buckets);
    var head := "!" + [granularity];
    var stamp := PrintStamp(m.timestamp);
    var more := PrintMoreBuckets(buckets, m.buckets);
    var rest := more + PrintNameAndTags(m, tags);
    assert b == head + (stamp + rest);
    assert At(b, 0, b);
    AtCat(b, 0, head, stamp + rest);
    AtCat(b, 2, stamp, rest);
    AtCat(b, 2 + |stamp|, more, PrintNameAndTags(m, tags));
    BucketsStart(b, 2 + |stamp|, buckets, m.buckets);
    assert b[0] == head[0] && b[1] == head[1];
  }

  lemma ReadHistogramLine(m: Metric, granularity: char, tags: seq<string>, buckets: seq<string>)
    requires granularity == 'M' || granularity == 'H' || granularity == 'D'
    requires Enumerates(tags, m.tags) && Enumerates(buckets, m.buckets) && WellFormed(m) && m.buckets != map[]
    ensures var b := Print(m, granularity, tags, buckets);
            && HistogramLine(b).Match?
            && ToMetric(Run(b, HistogramLine(b).toks, NoFields)) == m
  {
    HistogramLineParts(m, granularity, tags, buckets);
    hide TimestampOpt, BucketsAndRest, NameOk, TagsOk, BucketsOk, TimestampOk, PrintMoreBuckets, PrintMoreTags,
      PrintStamp, PrintNameAndTags, Print, At;
    var b := Print(m, granularity, tags, buckets);
    var j := 2 + |PrintStamp(m.timestamp)|;
    RunInterval(b, 0, NoFields);
    var t := IntervalAt(b, 0);
    var f := Run(b, t.toks, NoFields);
    hide IntervalAt, Run;
    ReadStamp(b, 2, m.timestamp, f);
    var u := TimestampOpt(b, 2);
    var g := Run(b, u.toks, f);
    ReadBucketsAndRest(b, j, m, tags, buckets, g);
    RunThree(b, t.toks, u.toks, BucketsAndRest(b, j).toks, NoFields);
  }

  lemma RunThree(b: string, s: seq<Token>, t: seq<Token>, u: seq<Token>, f: Fields)
    requires TokensWithin(s, |b|) && TokensWithin(t, |b|) && TokensWithin(u, |b|)
    ensures TokensWithin(s + t + u, |b|)
    ensures Run(b, s + t + u, f) == Run(b, u, Run(b, t, Run(b, s, f)))
  {
    hide Run;
    RunCat(b, s, t, f);
    RunCat(b, s + t, u, f);
  }

  ghost function PrintValueAndRest(m: Metric, tags: seq<string>): string
    requires Enumerates(tags, m.tags)
  {
    " " + m.value + (PrintStamp(m.timestamp) + PrintMoreTags(tags, m.tags))
  }

  lemma ReadMetricValue(b: string, i: nat, s: string, f: Fields)
    requires At(b, i, s) && NumberOk(s) && Is(b, i + |s|, ' ')
    ensures MetricValueAt(b, i).Match? && MetricValueAt(b, i).pos == i + |s|
    ensures Run(b, MetricValueAt(b, i).toks, f) == f.(text := s, value := s)
  {
    hide NumberText, NumberOk;
    ReadNumber(b, i, s);
    RunMetricValue(b, i, f);
  }

  lemma StampStart(b: string, i: nat, timestamp: string)
    requires At(b, i, PrintStamp(timestamp)) && Is(b, i + |PrintStamp(timestamp)|, ' ')
    ensures Is(b, i, ' ')
  {
    if timestamp != "" {
      AtCat(b, i, " ", timestamp);
    }
  }

  lemma ReadValueAndRest(b: string, i: nat, m: Metric, tags: seq<string>, f: Fields)
    requires Enumerates(tags, m.tags) && WellFormed(m) && m.buckets == map[] && f.timestamp == ""
    requires At(b, i, PrintValueAndRest(m, tags)) && i + |PrintValueAndRest(m, tags)| == |b|
    ensures ValueAndRest(b, i).Match? && ValueAndRest(b, i).pos == |b|
    ensures var g := Run(b, ValueAndRest(b, i).toks, f);
            g == f.(text := g.text, tag := g.tag, tags := m.tags, value := m.value, timestamp := m.timestamp)
  {
    hide MetricValueAt, TimestampOpt, TagsToEnd, NameOk, TagsOk, NumberOk, TimestampOk, PrintMoreTags, PrintStamp, At, Run;
    var stamp := PrintStamp(m.timestamp);
    var more := PrintMoreTags(tags, m.tags);
    AtCat(b, i, " " + m.value, stamp + more);
    AtCat(b, i, " ", m.value);
    AtChar(b, i, ' ');
    var j := i + 1 + |m.value|;
    AtCat(b, j, stamp, more);
    TagsStart(b, j + |stamp|, tags, m.tags);
    StampStart(b, j, m.timestamp);
    ReadMetricValue(b, i + 1, m.value, f);
    var t := MetricValueAt(b, i + 1);
    var f1 := Run(b, t.toks, f);
    ReadStamp(b, j, m.timestamp, f1);
    var u := TimestampOpt(b, j);
    var f2 := Run(b, u.toks, f1);
    ReadTagsToEnd(b, j + |stamp|, tags, m.tags, f2);
    RunThree(b, t.toks, u.toks, TagsToEnd(b, u.pos).toks, f);
  }

  lemma ReadPointLine(m: Metric, granularity: char, tags: seq<string>, buckets: seq<string>)
    requires Enumerates(tags, m.tags) && Enumerates(buckets, m.buckets) && WellFormed(m) && m.buckets == map[]
    ensures var b := Print(m, granularity, tags, buckets);
            && HistogramLine(b).NoMatch? && PointLine(b).Match?
            && ToMetric(Run(b, PointLine(b).toks, NoFields)) == m
  {
    hide MetricNameAt, ValueAndRest, NameOk, TagsOk, NumberOk, TimestampOk, PrintMoreTags;
    var b := Print(m, granularity, tags, buckets);
    assert b == Quote(m.name) + PrintValueAndRest(m, tags);
    assert At(b, 0, b);
    AtCat(b, 0, Quote(m.name), PrintValueAndRest(m, tags));
    AtQuoteStart(b, 0, m.name);
    NoInterval(b);
    ReadName(b, 0, m.name);
    RunMetricName(b, 0, NoFields);
    var t := MetricNameAt(b, 0);
    ReadValueAndRest(b, t.pos, m, tags, Run(b, t.toks, NoFields));
    RunCat(b, t.toks, ValueAndRest(b, t.pos).toks, NoFields);
  }

  lemma NoInterval(b: string)
    requires !Is(b, 0, '!')
    ensures HistogramLine(b).NoMatch?
  {
  }

  /** Printing a metric and parsing the line gives the metric back exactly when it is well formed. */
  lemma RoundTrip(m: Metric, granularity: char, tags: seq<string>, buckets: seq<string>)
    requires granularity == 'M' || granularity == 'H' || granularity == 'D'
    requires Enumerates(tags, m.tags) && Enumerates(buckets, m.buckets)
    ensures ParseLine(Print(m, granularity, tags, buckets)) == Some(m) <==> WellFormed(m)
  {
    var b := Print(m, granularity, tags, buckets);
    if WellFormed(m) {
      hide HistogramLine, PointLine, WellFormed, Print;
      if m.buckets == map[] {
        ReadPointLine(m, granularity, tags, buckets);
      } else {
        ReadHistogramLine(m, granularity, tags, buckets);
      }
      var l := if HistogramLine(b).Match? then HistogramLine(b) else PointLine(b);
      RunAdd(b, l.toks, Token(MetricGrammarRule, 0, l.pos), NoFields);
    }
    if ParseLine(b) == Some(m) {
      hide Line, WellFormed, Print;
      ParsedIsWellFormed(b);
    }
  }

  /** Parsing is onto its prints: reprinting what a line gave, in any order, gives it again. */
  lemma ReprintIsStable(line: string, granularity: char, tags: seq<string>, buckets: seq<string>)
    requires ParseLine(line).Some?
    requires granularity == 'M' || granularity == 'H' || granularity == 'D'
    requires Enumerates(tags, ParseLine(line).value.tags) && Enumerates(buckets, ParseLine(line).value.buckets)
    ensures ParseLine(Print(ParseLine(line).value, granularity, tags, buckets)) == ParseLine(line)
  {
    ParsedIsWellFormed(line);
    hide ParseLine, WellFormed, Print;
    RoundTrip(ParseLine(line).value, granularity, tags, buckets);
  }
}
