/**
 The generated parser (metric_grammar.peg.go) and its entry point (parse.go).

 One object holds the rune buffer, the cursor and the token table that the rule closures share. A rule
 that fails puts the cursor and the token index back; the tokens it had added stay in the table behind
 the index, where a later rule overwrites them or the final trim drops them. Every rule is proved to
 take exactly the match that MetricGrammar gives for its starting position.
 */
module MetricParser {
  import opened MetricGrammar
  import opened Wrappers

  datatype Metric = Metric(
    name: string, value: string, timestamp: string, tags: map<string, string>,
    buckets: map<string, string>)

  /** The metric that parse.go builds from the fields the semantic actions have set. */
  function ToMetric(f: Fields): Metric {
    Metric(f.name, if f.histogram then "" else f.value, f.timestamp, f.tags,
           if f.histogram then f.buckets else map[])
  }

  /** What parsing a line means: match the start rule, then run the actions of its tokens. */
  function ParseLine(line: string): Option<Metric> {
    var m := Line(line);
    if m.Match? then Some(ToMetric(Run(line, m.toks, NoFields))) else None
  }

  lemma Cat3<T>(l: seq<T>, a: seq<T>, b: seq<T>)
    ensures (l + a) + b == l + (a + b)
  {
  }

  lemma DigitTimesNext(b: string, i: nat, n: nat)
    requires n > 0
    ensures var d, u := DigitAt(b, i), DigitTimes(b, i + 1, n - 1);
            && (d.Match? ==> d.pos == i + 1)
            && DigitTimes(b, i, n) == if d.Match? && u.Match? then Match(u.pos, d.toks + u.toks) else NoMatch
  {
  }

  lemma Cat4<T>(l: seq<T>, a: seq<T>, b: seq<T>, c: seq<T>)
    ensures l + a + b + c == l + (a + b + c)
  {
    Cat3(l, a, b);
    Cat3(l, a + b, c);
  }

  lemma Cat5<T>(l: seq<T>, a: seq<T>, b: seq<T>, c: seq<T>, d: seq<T>)
    ensures l + a + b + c + d == l + (a + b + c + d)
  {
    Cat4(l, a, b, c);
    Cat3(l, a + b + c, d);
  }

  lemma ClassStarStep(b: string, i: nat, k: CharClass)
    requires i < |b| && InClass(k, b[i])
    ensures ClassStar(b, i, k).pos == ClassStar(b, i + 1, k).pos
    ensures ClassStar(b, i, k).toks
            == (if IsAlnum(b[i]) then [Token(Alnum, i, i + 1)] else []) + ClassStar(b, i + 1, k).toks
  {
  }

  class Grammar {
    const buffer: string
    var position: nat
    var tokenIndex: nat
    var tree: seq<Token>
    var fields: Fields

    ghost predicate Valid()
      reads `position, `tokenIndex, `tree
    {
      position <= |buffer| && tokenIndex <= |tree|
    }

    /** The tokens that count: those below the token index. */
    ghost function Live(): seq<Token>
      requires Valid()
      reads `position, `tokenIndex, `tree
    {
      tree[..tokenIndex]
    }

    /** From cursor p and live tokens l, a rule took match m, or left both alone when m is no match. */
    ghost predicate Took(ok: bool, p: nat, l: seq<Token>, m: Match)
      reads `position, `tokenIndex, `tree
    {
      && Valid()
      && ok == m.Match?
      && position == (if ok then m.pos else p)
      && Live() == (if ok then l + m.toks else l)
    }

    constructor Init(line: string)
      ensures buffer == line && Valid() && position == 0 && Live() == [] && fields == NoFields
    {
      buffer := line;
      position, tokenIndex := 0, 0;
      tree := [];
      fields := NoFields;
    }

    /** tokens32.Add behind the add closure: overwrite the slot at the token index or grow the table. */
    method Add(rule: Rule, begin: nat)
      requires Valid()
      modifies `tokenIndex, `tree
      ensures Valid() && Live() == old(Live()) + [Token(rule, begin, position)]
    {
      var token := Token(rule, begin, position);
      if tokenIndex >= |tree| {
        tree := tree + [token];
      } else {
        tree := tree[tokenIndex := token];
      }
      tokenIndex := tokenIndex + 1;
    }

    /** The backtracking assignment that ends every failing alternative. */
    method Restore(p: nat, t: nat, ghost l: seq<Token>)
      requires Valid() && p <= |buffer| && l <= Live() && t == |l|
      modifies `position, `tokenIndex
      ensures Valid() && position == p && Live() == l
    {
      position, tokenIndex := p, t;
    }

    method Expect(c: char) returns (ok: bool)
      requires Valid()
      modifies `position
      ensures Valid() && ok == Is(buffer, old(position), c)
      ensures position == Skip(buffer, old(position), c)
    {
      ok := position < |buffer| && buffer[position] == c;
      if ok {
        position := position + 1;
      }
    }

    method MatchDigit() returns (ok: bool)
      requires Valid()
      modifies `position, `tokenIndex, `tree
      ensures Took(ok, old(position), old(Live()), DigitAt(buffer, old(position)))
    {
      var position0 := position;
      if !(position < |buffer| && IsDigit(buffer[position])) {
        return false;
      }
      position := position + 1;
      Add(Digit, position0);
      return true;
    }

    method MatchAlnum() returns (ok: bool)
      requires Valid()
      modifies `position, `tokenIndex, `tree
      ensures Valid() && ok == (old(position) < |buffer| && IsAlnum(buffer[old(position)]))
      ensures position == old(position) + (if ok then 1 else 0)
      ensures Live() == old(Live()) + (if ok then [Token(Alnum, old(position), old(position) + 1)] else [])
    {
      var position0 := position;
      if !(position < |buffer| && IsAlnum(buffer[position])) {
        return false;
      }
      position := position + 1;
      Add(Alnum, position0);
      return true;
    }

    method MatchDigitStar()
      requires Valid()
      modifies `position, `tokenIndex, `tree
      ensures Took(true, old(position), old(Live()), DigitStar(buffer, old(position)))
    {
      ghost var whole := old(Live()) + DigitStar(buffer, position).toks;
      ghost var end := DigitStar(buffer, position).pos;
      while true
        invariant Valid() && end == DigitStar(buffer, position).pos
        invariant Live() + DigitStar(buffer, position).toks == whole
        decreases |buffer| - position
      {
        ghost var l, p := Live(), position;
        var ok := MatchDigit();
        if !ok {
          return;
        }
        Cat3(l, [Token(Digit, p, p + 1)], DigitStar(buffer, position).toks);
      }
    }

    method MatchDigitPlus() returns (ok: bool)
      requires Valid()
      modifies `position, `tokenIndex, `tree
      ensures Took(ok, old(position), old(Live()), DigitPlus(buffer, old(position)))
    {
      hide DigitStar;
      ghost var l, p := Live(), position;
      ok := MatchDigit();
      if ok {
        MatchDigitStar();
        Cat3(l, DigitAt(buffer, p).toks, DigitStar(buffer, p + 1).toks);
      }
    }

    method MatchDigitTimes(n: nat) returns (ok: bool)
      requires Valid()
      modifies `position, `tokenIndex, `tree
      ensures Took(ok, old(position), old(Live()), DigitTimes(buffer, old(position), n))
      decreases n
    {
      var position0, tokenIndex0 := position, tokenIndex;
      ghost var l := Live();
      if n == 0 {
        return true;
      }
      DigitTimesNext(buffer, position0, n);
      hide DigitTimes, DigitAt;
      ok := MatchDigit();
      if !ok {
        return;
      }
      ghost var m, k := Live(), DigitTimes(buffer, position0 + 1, n - 1);
      ok := MatchDigitTimes(n - 1);
      if !ok {
        Restore(position0, tokenIndex0, l);
        return;
      }
      assert Live() == m + k.toks;
      Cat3(l, DigitAt(buffer, position0).toks, k.toks);
    }

    /** One character of a class: an alphanumeric one through its rule, any other one directly. */
    method MatchClass(k: CharClass) returns (ok: bool)
      requires Valid()
      modifies `position, `tokenIndex, `tree
      ensures Valid() && ok == (old(position) < |buffer| && InClass(k, buffer[old(position)]))
      ensures position == old(position) + (if ok then 1 else 0)
      ensures Live() == old(Live())
                        + if ok && IsAlnum(buffer[old(position)])
                          then [Token(Alnum, old(position), old(position) + 1)] else []
    {
      ok := MatchAlnum();
      if ok {
        return;
      }
      if position < |buffer| && IsExtra(k, buffer[position]) {
        position := position + 1;
        ok := true;
      }
    }

    method MatchClassStar(k: CharClass)
      requires Valid()
      modifies `position, `tokenIndex, `tree
      ensures Took(true, old(position), old(Live()), ClassStar(buffer, old(position), k))
    {
      ghost var whole := old(Live()) + ClassStar(buffer, position, k).toks;
      ghost var end := ClassStar(buffer, position, k).pos;
      while true
        invariant Valid() && end == ClassStar(buffer, position, k).pos
        invariant Live() + ClassStar(buffer, position, k).toks == whole
        decreases |buffer| - position
      {
        ghost var l, p := Live(), position;
        var ok := MatchClass(k);
        if !ok {
          return;
        }
        Cat3(l, if IsAlnum(buffer[p]) then [Token(Alnum, p, p + 1)] else [], ClassStar(buffer, position, k).toks);
      }
    }

    method MatchClassPlus(k: CharClass) returns (ok: bool)
      requires Valid()
      modifies `position, `tokenIndex, `tree
      ensures Took(ok, old(position), old(Live()), ClassPlus(buffer, old(position), k))
    {
      hide ClassStar;
      ghost var l, p := Live(), position;
      ok := MatchClass(k);
      if ok {
        MatchClassStar(k);
        ClassStarStep(buffer, p, k);
        Cat3(l, if IsAlnum(buffer[p]) then [Token(Alnum, p, p + 1)] else [], ClassStar(buffer, p + 1, k).toks);
      }
    }

    method MatchFractionOpt()
      requires Valid()
      modifies `position, `tokenIndex, `tree
      ensures Took(true, old(position), old(Live()), FractionOpt(buffer, old(position)))
    {
      var position0, tokenIndex0 := position, tokenIndex;
      ghost var l := Live();
      var ok := Expect('.');
      if ok {
        ok := MatchDigitPlus();
        if !ok {
          Restore(position0, tokenIndex0, l);
        }
      }
    }

    method MatchNumberText() returns (ok: bool)
      requires Valid()
      modifies `position, `tokenIndex, `tree
      ensures Took(ok, old(position), old(Live()), NumberText(buffer, old(position)))
    {
      hide DigitPlus, FractionOpt;
      var position0, tokenIndex0 := position, tokenIndex;
      ghost var l := Live();
      var _ := Expect('-');
      ghost var digits := DigitPlus(buffer, position);
      ok := MatchDigitPlus();
      if !ok {
        Restore(position0, tokenIndex0, l);
        return;
      }
      ghost var fraction := FractionOpt(buffer, position);
      MatchFractionOpt();
      Add(PegText, position0);
      Cat4(l, digits.toks, fraction.toks, [Token(PegText, position0, position)]);
    }

    method MatchMetricValue() returns (ok: bool)
      requires Valid()
      modifies `position, `tokenIndex, `tree
      ensures Took(ok, old(position), old(Live()), MetricValueAt(buffer, old(position)))
    {
      hide NumberText;
      var position0 := position;
      ghost var l := Live();
      ok := MatchNumberText();
      if ok {
        Add(Action8, position);
        Add(MetricValue, position0);
        Cat4(l, NumberText(buffer, position0).toks, [Token(Action8, position, position)], [Token(MetricValue, position0, position)]);
      }
    }

    method MatchTimestampDigits() returns (ok: bool)
      requires Valid()
      modifies `position, `tokenIndex, `tree
      ensures Took(ok, old(position), old(Live()), TimestampDigits(buffer, old(position)))
    {
      hide DigitTimes;
      ghost var l, first := Live(), DigitTimes(buffer, position, 10);
      ok := MatchDigitTimes(10);
      if ok {
        ghost var millis := ThreeDigitsOpt(buffer, position);
        var _ := MatchDigitTimes(3);
        ghost var micros := ThreeDigitsOpt(buffer, position);
        var _ := MatchDigitTimes(3);
        Cat4(l, first.toks, millis.toks, micros.toks);
      }
    }

    method MatchTimestamp() returns (ok: bool)
      requires Valid()
      modifies `position, `tokenIndex, `tree
      ensures Took(ok, old(position), old(Live()), TimestampAt(buffer, old(position)))
    {
      hide TimestampDigits;
      var position0 := position;
      ghost var l := Live();
      ok := MatchTimestampDigits();
      if ok {
        Add(PegText, position0);
        Add(Action7, position);
        Add(Timestamp, position0);
        Cat5(l, TimestampDigits(buffer, position0).toks, [Token(PegText, position0, position)],
             [Token(Action7, position, position)], [Token(Timestamp, position0, position)]);
      }
    }

    method MatchTimestampOpt()
      requires Valid()
      modifies `position, `tokenIndex, `tree
      ensures Took(true, old(position), old(Live()), TimestampOpt(buffer, old(position)))
    {
      var position0, tokenIndex0 := position, tokenIndex;
      ghost var l := Live();
      var ok := Expect(' ');
      if ok {
        ok := MatchTimestamp();
        if !ok {
          Restore(position0, tokenIndex0, l);
        }
      }
    }

    method MatchNameText() returns (ok: bool)
      requires Valid()
      modifies `position, `tokenIndex, `tree
      ensures Took(ok, old(position), old(Live()), NameText(buffer, old(position)))
    {
      hide ClassPlus;
      var position0, tokenIndex0 := position, tokenIndex;
      ghost var l := Live();
      var _ := Expect(DELTA);
      var _ := Expect('~');
      ghost var chars := ClassPlus(buffer, position, NameChars);
      ok := MatchClassPlus(NameChars);
      if !ok {
        Restore(position0, tokenIndex0, l);
        return;
      }
      Add(PegText, position0);
      Cat3(l, chars.toks, [Token(PegText, position0, position)]);
    }

    method MatchQuotedNameText() returns (ok: bool)
      requires Valid()
      modifies `position, `tokenIndex, `tree
      ensures Took(ok, old(position), old(Live()), QuotedNameText(buffer, old(position)))
    {
      hide NameText;
      var position0, tokenIndex0 := position, tokenIndex;
      ghost var l := Live();
      ok := Expect('"');
      if ok {
        ok := MatchNameText();
        if ok {
          ok := Expect('"');
        }
        if !ok {
          Restore(position0, tokenIndex0, l);
        }
      }
    }

    method MatchMetricName() returns (ok: bool)
      requires Valid()
      modifies `position, `tokenIndex, `tree
      ensures Took(ok, old(position), old(Live()), MetricNameAt(buffer, old(position)))
    {
      hide QuotedNameText, NameText;
      var position0 := position;
      ghost var l := Live();
      ok := MatchQuotedNameText();
      if !ok {
        ok := MatchNameText();
      }
      if ok {
        ghost var text := if QuotedNameText(buffer, position0).Match? then QuotedNameText(buffer, position0) else NameText(buffer, position0);
        Add(Action9, position);
        Add(MetricName, position0);
        Cat4(l, text.toks, [Token(Action9, position, position)], [Token(MetricName, position0, position)]);
      }
    }

    method MatchClassText(k: CharClass) returns (ok: bool)
      requires Valid()
      modifies `position, `tokenIndex, `tree
      ensures Took(ok, old(position), old(Live()), ClassText(buffer, old(position), k))
    {
      hide ClassPlus;
      var position0 := position;
      ghost var l := Live();
      ok := MatchClassPlus(k);
      if ok {
        Add(PegText, position0);
        Cat3(l, ClassPlus(buffer, position0, k).toks, [Token(PegText, position0, position)]);
      }
    }

    method MatchQuotedTagText() returns (ok: bool)
      requires Valid()
      modifies `position, `tokenIndex, `tree
      ensures Took(ok, old(position), old(Live()), QuotedTagText(buffer, old(position)))
    {
      hide ClassText;
      var position0, tokenIndex0 := position, tokenIndex;
      ghost var l := Live();
      ok := Expect('"');
      if ok {
        ok := MatchClassText(QuotedTagChars);
        if ok {
          ok := Expect('"');
        }
        if !ok {
          Restore(position0, tokenIndex0, l);
        }
      }
    }

    method MatchTagName() returns (ok: bool)
      requires Valid()
      modifies `position, `tokenIndex, `tree
      ensures Took(ok, old(position), old(Live()), TagNameAt(buffer, old(position)))
    {
      hide QuotedTagText, ClassText;
      var position0 := position;
      ghost var l := Live();
      ok := MatchQuotedTagText();
      if !ok {
        ok := MatchClassText(TagChars);
      }
      if ok {
        ghost var text := if QuotedTagText(buffer, position0).Match? then QuotedTagText(buffer, position0) else ClassText(buffer, position0, TagChars);
        Add(Action5, position);
        Add(TagName, position0);
        Cat4(l, text.toks, [Token(Action5, position, position)], [Token(TagName, position0, position)]);
      }
    }

    /** An escaped quote, or else any one character other than a quote. */
    method MatchValueUnit() returns (ok: bool)
      requires Valid()
      modifies `position
      ensures Valid()
      ensures ok == (old(position) < |buffer| && buffer[old(position)] != '"')
      ensures ok ==> position > old(position)
                     && ValueStar(buffer, old(position)) == ValueStar(buffer, position)
      ensures !ok ==> position == old(position) == ValueStar(buffer, position)
    {
      var position0 := position;
      ok := Expect('\\');
      if ok {
        ok := Expect('"');
        if ok {
          return;
        }
        position := position0;
      }
      if position < |buffer| && buffer[position] == '"' {
        return false;
      }
      if position < |buffer| {
        position := position + 1;
        ok := true;
      }
    }

    method MatchTagValue() returns (ok: bool)
      requires Valid()
      modifies `position, `tokenIndex, `tree
      ensures Took(ok, old(position), old(Live()), TagValueAt(buffer, old(position)))
    {
      var position0 := position;
      ghost var l := Live();
      ok := Expect('"');
      if !ok {
        return;
      }
      var textStart := position;
      ok := MatchValueUnit();
      if !ok {
        position := position0;
        return;
      }
      while ok
        invariant Valid() && position > textStart && Live() == l && tokenIndex == old(tokenIndex)
        invariant ValueStar(buffer, textStart) == ValueStar(buffer, position)
        invariant !ok ==> position == ValueStar(buffer, position)
        decreases |buffer| - position, ok
      {
        ok := MatchValueUnit();
      }
      var textEnd := position;
      ok := Expect('"');
      if !ok {
        position := position0;
        return;
      }
      position := textEnd;
      Add(PegText, textStart);
      position := textEnd + 1;
      Add(Action6, position);
      Add(TagValue, position0);
      Cat4(l, [Token(PegText, textStart, textEnd)], [Token(Action6, position, position)], [Token(TagValue, position0, position)]);
    }

    method MatchTag() returns (ok: bool)
      requires Valid()
      modifies `position, `tokenIndex, `tree
      ensures Took(ok, old(position), old(Live()), TagAt(buffer, old(position)))
    {
      hide TagNameAt, TagValueAt;
      var position0, tokenIndex0 := position, tokenIndex;
      ghost var l := Live();
      ok := MatchTagName();
      if !ok {
        return;
      }
      ghost var value := TagValueAt(buffer, position + 1);
      ok := Expect('=');
      if ok {
        ok := MatchTagValue();
      }
      if !ok {
        Restore(position0, tokenIndex0, l);
        return;
      }
      Add(Tag, position0);
      Cat4(l, TagNameAt(buffer, position0).toks, value.toks, [Token(Tag, position0, position)]);
    }

    method MatchTagStar()
      requires Valid()
      modifies `position, `tokenIndex, `tree
      ensures Took(true, old(position), old(Live()), TagStar(buffer, old(position)))
    {
      hide TagAt;
      ghost var whole := old(Live()) + TagStar(buffer, position).toks;
      ghost var end := TagStar(buffer, position).pos;
      while true
        invariant Valid() && end == TagStar(buffer, position).pos
        invariant Live() + TagStar(buffer, position).toks == whole
        decreases |buffer| - position
      {
        var position0, tokenIndex0 := position, tokenIndex;
        ghost var l := Live();
        var ok := Expect(' ');
        if ok {
          ok := MatchTag();
        }
        if !ok {
          Restore(position0, tokenIndex0, l);
          return;
        }
        Cat3(l, TagAt(buffer, position0 + 1).toks, TagStar(buffer, position).toks);
      }
    }

    method MatchTags() returns (ok: bool)
      requires Valid()
      modifies `position, `tokenIndex, `tree
      ensures Took(ok, old(position), old(Live()), TagsAt(buffer, old(position)))
    {
      hide TagAt, TagStar;
      var position0, tokenIndex0 := position, tokenIndex;
      ghost var l := Live();
      Add(Action4, position);
      ok := MatchTag();
      if !ok {
        Restore(position0, tokenIndex0, l);
        return;
      }
      ghost var more := TagStar(buffer, position);
      MatchTagStar();
      Add(Tags, position0);
      Cat5(l, [Token(Action4, position0, position0)], TagAt(buffer, position0).toks, more.toks,
           [Token(Tags, position0, position)]);
    }

    method MatchHistogramCount() returns (ok: bool)
      requires Valid()
      modifies `position, `tokenIndex, `tree
      ensures Took(ok, old(position), old(Live()), HistogramCountAt(buffer, old(position)))
    {
      hide NumberText;
      var position0, tokenIndex0 := position, tokenIndex;
      ghost var l := Live();
      ok := Expect('#');
      if !ok {
        return;
      }
      ok := MatchNumberText();
      if !ok {
        Restore(position0, tokenIndex0, l);
        return;
      }
      Add(Action2, position);
      Add(HistogramCount, position0);
      Cat4(l, NumberText(buffer, position0 + 1).toks, [Token(Action2, position, position)],
           [Token(HistogramCount, position0, position)]);
    }

    method MatchHistogramValue() returns (ok: bool)
      requires Valid()
      modifies `position, `tokenIndex, `tree
      ensures Took(ok, old(position), old(Live()), HistogramValueAt(buffer, old(position)))
    {
      hide NumberText;
      var position0 := position;
      ghost var l := Live();
      ok := MatchNumberText();
      if ok {
        Add(Action3, position);
        Add(HistogramValue, position0);
        Cat4(l, NumberText(buffer, position0).toks, [Token(Action3, position, position)], [Token(HistogramValue, position0, position)]);
      }
    }

    method MatchBucket() returns (ok: bool)
      requires Valid()
      modifies `position, `tokenIndex, `tree
      ensures Took(ok, old(position), old(Live()), BucketAt(buffer, old(position)))
    {
      hide HistogramCountAt, HistogramValueAt;
      var position0, tokenIndex0 := position, tokenIndex;
      ghost var l := Live();
      ok := MatchHistogramCount();
      if !ok {
        return;
      }
      ghost var value := HistogramValueAt(buffer, position + 1);
      ok := Expect(' ');
      if ok {
        ok := MatchHistogramValue();
      }
      if !ok {
        Restore(position0, tokenIndex0, l);
        return;
      }
      Add(HistogramBucket, position0);
      Cat4(l, HistogramCountAt(buffer, position0).toks, value.toks, [Token(HistogramBucket, position0, position)]);
    }

    method MatchBucketStar()
      requires Valid()
      modifies `position, `tokenIndex, `tree
      ensures Took(true, old(position), old(Live()), BucketStar(buffer, old(position)))
    {
      hide BucketAt;
      ghost var whole := old(Live()) + BucketStar(buffer, position).toks;
      ghost var end := BucketStar(buffer, position).pos;
      while true
        invariant Valid() && end == BucketStar(buffer, position).pos
        invariant Live() + BucketStar(buffer, position).toks == whole
        decreases |buffer| - position
      {
        var position0, tokenIndex0 := position, tokenIndex;
        ghost var l := Live();
        var ok := Expect(' ');
        if ok {
          ok := MatchBucket();
        }
        if !ok {
          Restore(position0, tokenIndex0, l);
          return;
        }
        Cat3(l, BucketAt(buffer, position0 + 1).toks, BucketStar(buffer, position).toks);
      }
    }

    method MatchBuckets() returns (ok: bool)
      requires Valid()
      modifies `position, `tokenIndex, `tree
      ensures Took(ok, old(position), old(Live()), BucketsAt(buffer, old(position)))
    {
      hide BucketAt, BucketStar;
      var position0, tokenIndex0 := position, tokenIndex;
      ghost var l := Live();
      Add(Action1, position);
      ok := MatchBucket();
      if !ok {
        Restore(position0, tokenIndex0, l);
        return;
      }
      ghost var more := BucketStar(buffer, position);
      MatchBucketStar();
      Add(HistogramValues, position0);
      Cat5(l, [Token(Action1, position0, position0)], BucketAt(buffer, position0).toks, more.toks,
           [Token(HistogramValues, position0, position)]);
    }

    method MatchInterval() returns (ok: bool)
      requires Valid()
      modifies `position, `tokenIndex, `tree
      ensures Took(ok, old(position), old(Live()), IntervalAt(buffer, old(position)))
    {
      var position0 := position;
      ghost var l := Live();
      ok := Expect('!');
      if !ok {
        return;
      }
      if position < |buffer| && (buffer[position] == 'D' || buffer[position] == 'H' || buffer[position] == 'M') {
        position := position + 1;
        Add(Action0, position);
        Add(AggregationInterval, position0);
        Cat3(l, [Token(Action0, position, position)], [Token(AggregationInterval, position0, position)]);
      } else {
        position := position0;
        ok := false;
      }
    }

    /** ' ' tags !. : the look-ahead at the end never moves the cursor. */
    method MatchTagsToEnd() returns (ok: bool)
      requires Valid()
      modifies `position, `tokenIndex, `tree
      ensures Took(ok, old(position), old(Live()), TagsToEnd(buffer, old(position)))
    {
      hide TagsAt;
      var position0, tokenIndex0 := position, tokenIndex;
      ghost var l := Live();
      ok := Expect(' ');
      if ok {
        ok := MatchTags();
        if ok && position < |buffer| {
          ok := false;
        }
      }
      if !ok {
        Restore(position0, tokenIndex0, l);
      }
    }

    method MatchNameAndTags() returns (ok: bool)
      requires Valid()
      modifies `position, `tokenIndex, `tree
      ensures Took(ok, old(position), old(Live()), NameAndTags(buffer, old(position)))
    {
      hide MetricNameAt, TagsToEnd;
      var position0, tokenIndex0 := position, tokenIndex;
      ghost var l := Live();
      ok := Expect(' ');
      if ok {
        ok := MatchMetricName();
      }
      if ok {
        ghost var name, tags := MetricNameAt(buffer, position0 + 1), TagsToEnd(buffer, position);
        ok := MatchTagsToEnd();
        if ok {
          Cat3(l, name.toks, tags.toks);
        }
      }
      if !ok {
        Restore(position0, tokenIndex0, l);
      }
    }

    method MatchBucketsAndRest() returns (ok: bool)
      requires Valid()
      modifies `position, `tokenIndex, `tree
      ensures Took(ok, old(position), old(Live()), BucketsAndRest(buffer, old(position)))
    {
      hide BucketsAt, NameAndTags;
      var position0, tokenIndex0 := position, tokenIndex;
      ghost var l := Live();
      ok := Expect(' ');
      if ok {
        ok := MatchBuckets();
      }
      if ok {
        ghost var buckets, rest := BucketsAt(buffer, position0 + 1), NameAndTags(buffer, position);
        ok := MatchNameAndTags();
        if ok {
          Cat3(l, buckets.toks, rest.toks);
        }
      }
      if !ok {
        Restore(position0, tokenIndex0, l);
      }
    }

    method MatchHistogramLine() returns (ok: bool)
      requires Valid() && position == 0
      modifies `position, `tokenIndex, `tree
      ensures Took(ok, 0, old(Live()), HistogramLine(buffer))
    {
      hide IntervalAt, TimestampOpt, BucketsAndRest;
      var tokenIndex0 := tokenIndex;
      ghost var l := Live();
      ok := MatchInterval();
      if !ok {
        return;
      }
      ghost var stamp := TimestampOpt(buffer, position);
      MatchTimestampOpt();
      ghost var rest := BucketsAndRest(buffer, position);
      ok := MatchBucketsAndRest();
      if ok {
        Cat4(l, IntervalAt(buffer, 0).toks, stamp.toks, rest.toks);
      } else {
        Restore(0, tokenIndex0, l);
      }
    }

    method MatchValueAndRest() returns (ok: bool)
      requires Valid()
      modifies `position, `tokenIndex, `tree
      ensures Took(ok, old(position), old(Live()), ValueAndRest(buffer, old(position)))
    {
      hide MetricValueAt, TimestampOpt, TagsToEnd;
      var position0, tokenIndex0 := position, tokenIndex;
      ghost var l := Live();
      ok := Expect(' ');
      if ok {
        ok := MatchMetricValue();
      }
      if ok {
        ghost var value, stamp := MetricValueAt(buffer, position0 + 1), TimestampOpt(buffer, position);
        MatchTimestampOpt();
        ghost var tags := TagsToEnd(buffer, position);
        ok := MatchTagsToEnd();
        if ok {
          Cat4(l, value.toks, stamp.toks, tags.toks);
        }
      }
      if !ok {
        Restore(position0, tokenIndex0, l);
      }
    }

    method MatchPointLine() returns (ok: bool)
      requires Valid() && position == 0
      modifies `position, `tokenIndex, `tree
      ensures Took(ok, 0, old(Live()), PointLine(buffer))
    {
      hide MetricNameAt, ValueAndRest;
      var tokenIndex0 := tokenIndex;
      ghost var l := Live();
      ok := MatchMetricName();
      if !ok {
        return;
      }
      ghost var rest := ValueAndRest(buffer, position);
      ok := MatchValueAndRest();
      if ok {
        Cat3(l, MetricNameAt(buffer, 0).toks, rest.toks);
      } else {
        Restore(0, tokenIndex0, l);
      }
    }

    /** The start rule, then the trim that cuts the table at the token index. */
    method Parse() returns (ok: bool)
      requires Valid() && position == 0 && Live() == []
      modifies `position, `tokenIndex, `tree
      ensures ok == Line(buffer).Match?
      ensures ok ==> tree == Line(buffer).toks
    {
      hide HistogramLine, PointLine;
      ok := MatchHistogramLine();
      if !ok {
        ok := MatchPointLine();
      }
      if ok {
        Add(MetricGrammarRule, 0);
        tree := tree[..tokenIndex];
      }
    }

    /** Execute: run the semantic actions, remembering the latest text. */
    method Execute()
      requires TokensWithin(tree, |buffer|)
      modifies `fields
      ensures fields == Run(buffer, tree, old(fields))
    {
      var i := 0;
      while i < |tree|
        invariant 0 <= i <= |tree|
        invariant fields == Run(buffer, tree[..i], old(fields))
      {
        assert tree[..i + 1][..i] == tree[..i];
        var token := tree[i];
        match token.rule {
          case PegText => fields := fields.(text := buffer[token.begin..token.end]);
          case Action0 => fields := fields.(histogram := true);
          case Action1 => fields := fields.(buckets := map[]);
          case Action2 => fields := fields.(count := fields.text);
          case Action3 => fields := fields.(buckets := fields.buckets[fields.text := fields.count]);
          case Action4 => fields := fields.(tags := map[]);
          case Action5 => fields := fields.(tag := fields.text);
          case Action6 => fields := fields.(tags := fields.tags[fields.tag := fields.text]);
          case Action7 => fields := fields.(timestamp := fields.text);
          case Action8 => fields := fields.(value := fields.text);
          case Action9 => fields := fields.(name := fields.text);
          case _ =>
        }
        i := i + 1;
      }
      assert tree[..i] == tree;
    }
  }

  /** Parse of parse.go, with the parse error as None. */
  method Parse(line: string) returns (r: Option<Metric>)
    ensures r == ParseLine(line)
  {
    var g := new Grammar.Init(line);
    var ok := g.Parse();
    if !ok {
      return None;
    }
    g.Execute();
    var m := Metric(g.fields.name, "", g.fields.timestamp, g.fields.tags, map[]);
    if g.fields.histogram {
      m := m.(buckets := g.fields.buckets);
    } else {
      m := m.(value := g.fields.value);
    }
    r := Some(m);
  }
}
