/**
 The grammar of a Wavefront metric line (metric_grammar.peg), as functions.

 Each rule is a function from a line and a position to a Match: the position behind the match and
 the tokens the match leaves behind, in the order in which the generated parser adds them. These
 functions never mention a token table or a cursor; MetricParser proves that the generated code,
 which mutates both and backtracks over them, computes exactly these matches.

 The generated code ends its rune buffer with a sentinel that is no character. Here the sentinel is
 the position |b|: no character test succeeds there.
 */
module MetricGrammar {

  datatype Rule =
    | MetricGrammarRule | AggregationInterval | HistogramValues | HistogramBucket | HistogramCount
    | HistogramValue | Tags | Tag | TagName | TagValue | Timestamp | MetricValue | MetricName
    | Alnum | Digit | PegText
    | Action0 | Action1 | Action2 | Action3 | Action4 | Action5 | Action6 | Action7 | Action8 | Action9

  datatype Token = Token(rule: Rule, begin: nat, end: nat)

  datatype Match = NoMatch | Match(pos: nat, toks: seq<Token>) {

    predicate IsFailure() {
      NoMatch?
    }

    function PropagateFailure(): Match
      requires NoMatch?
    {
      NoMatch
    }

    function Extract(): (nat, seq<Token>)
      requires Match?
    {
      (pos, toks)
    }

    /** A match started at i in b ends inside b, and its tokens lie inside b. */
    ghost predicate Within(b: string, i: nat) {
      Match? ==> i <= pos <= |b| && TokensWithin(toks, |b|)
    }
  }

  ghost predicate TokensWithin(toks: seq<Token>, n: nat) {
    forall t :: t in toks ==> t.begin <= t.end <= n
  }

  // ---- characters -----------------------------------------------------------------------------

  predicate Is(b: string, i: nat, c: char) {
    i < |b| && b[i] == c
  }

  predicate IsDigit(c: char) {
    '0' <= c <= '9'
  }

  predicate IsAlnum(c: char) {
    IsDigit(c) || 'A' <= c <= 'Z' || 'a' <= c <= 'z'
  }

  /** The three character classes that the grammar repeats. */
  datatype CharClass = QuotedTagChars | TagChars | NameChars

  predicate IsExtra(k: CharClass, c: char) {
    match k
    case QuotedTagChars => c == '.' || c == '_' || c == '-' || c == '/'
    case TagChars => c == '.' || c == '_' || c == '-'
    case NameChars => c == ',' || c == '/' || c == '.' || c == '_' || c == '-' || c == '~'
  }

  predicate InClass(k: CharClass, c: char) {
    IsAlnum(c) || IsExtra(k, c)
  }

  const DELTA := '\U{2206}'

  // ---- repetitions ----------------------------------------------------------------------------

  function DigitAt(b: string, i: nat): (m: Match)
    ensures m.Within(b, i)
  {
    if i < |b| && IsDigit(b[i]) then Match(i + 1, [Token(Digit, i, i + 1)]) else NoMatch
  }

  /** DIGIT* */
  function DigitStar(b: string, i: nat): (m: Match)
    requires i <= |b|
    ensures m.Match? && m.Within(b, i)
    decreases |b| - i
  {
    if i < |b| && IsDigit(b[i]) then
      var rest := DigitStar(b, i + 1);
      Match(rest.pos, [Token(Digit, i, i + 1)] + rest.toks)
    else
      Match(i, [])
  }

  /** DIGIT+ */
  function DigitPlus(b: string, i: nat): (m: Match)
    ensures m.Within(b, i) && (m.Match? ==> i < m.pos)
  {
    var (j, t) :- DigitAt(b, i);
    var (k, u) := DigitStar(b, j).Extract();
    Match(k, t + u)
  }

  /** Exactly n digits. */
  function DigitTimes(b: string, i: nat, n: nat): (m: Match)
    ensures m.Within(b, i) && (m.Match? ==> m.pos == i + n)
    decreases |b| - i
  {
    if n == 0 then
      if i <= |b| then Match(i, []) else NoMatch
    else
      var (j, t) :- DigitAt(b, i);
      var (k, u) :- DigitTimes(b, j, n - 1);
      Match(k, t + u)
  }

  /** A repetition of one character class; only an alphanumeric character leaves a token. */
  function ClassStar(b: string, i: nat, k: CharClass): (m: Match)
    requires i <= |b|
    ensures m.Match? && m.Within(b, i)
    decreases |b| - i
  {
    if i < |b| && InClass(k, b[i]) then
      var rest := ClassStar(b, i + 1, k);
      Match(rest.pos, (if IsAlnum(b[i]) then [Token(Alnum, i, i + 1)] else []) + rest.toks)
    else
      Match(i, [])
  }

  function ClassPlus(b: string, i: nat, k: CharClass): (m: Match)
    ensures m.Within(b, i) && (m.Match? ==> i < m.pos)
  {
    if i < |b| && InClass(k, b[i]) then ClassStar(b, i, k) else NoMatch
  }

  /** The end of the longest run of escaped quotes and characters other than a quote. */
  function ValueStar(b: string, i: nat): (j: nat)
    requires i <= |b|
    ensures i <= j <= |b|
    decreases |b| - i
  {
    if Is(b, i, '\\') && Is(b, i + 1, '"') then ValueStar(b, i + 2)
    else if i < |b| && b[i] != '"' then ValueStar(b, i + 1)
    else i
  }

  // ---- rules ----------------------------------------------------------------------------------

  function Skip(b: string, i: nat, c: char): nat {
    if Is(b, i, c) then i + 1 else i
  }

  /** '.' DIGIT+, optional */
  function FractionOpt(b: string, i: nat): (m: Match)
    requires i <= |b|
    ensures m.Match? && m.Within(b, i)
  {
    if Is(b, i, '.') && DigitPlus(b, i + 1).Match? then DigitPlus(b, i + 1) else Match(i, [])
  }

  /** < '-'? DIGIT+ ('.' DIGIT+)? > */
  function NumberText(b: string, i: nat): (m: Match)
    ensures m.Within(b, i) && (m.Match? ==> i < m.pos)
  {
    var (j, t) :- DigitPlus(b, Skip(b, i, '-'));
    var (k, u) := FractionOpt(b, j).Extract();
    Match(k, t + u + [Token(PegText, i, k)])
  }

  function MetricValueAt(b: string, i: nat): (m: Match)
    ensures m.Within(b, i) && (m.Match? ==> i < m.pos)
  {
    var (j, t) :- NumberText(b, i);
    Match(j, t + [Token(Action8, j, j)] + [Token(MetricValue, i, j)])
  }

  function ThreeDigitsOpt(b: string, i: nat): (m: Match)
    requires i <= |b|
    ensures m.Match? && m.Within(b, i)
  {
    if DigitTimes(b, i, 3).Match? then DigitTimes(b, i, 3) else Match(i, [])
  }

  function TimestampDigits(b: string, i: nat): (m: Match)
    ensures m.Within(b, i) && (m.Match? ==> i < m.pos)
  {
    var (j, t) :- DigitTimes(b, i, 10);
    var (k, u) := ThreeDigitsOpt(b, j).Extract();
    var (l, v) := ThreeDigitsOpt(b, k).Extract();
    Match(l, t + u + v)
  }

  function TimestampAt(b: string, i: nat): (m: Match)
    ensures m.Within(b, i) && (m.Match? ==> i < m.pos)
  {
    var (j, t) :- TimestampDigits(b, i);
    Match(j, t + [Token(PegText, i, j)] + [Token(Action7, j, j)] + [Token(Timestamp, i, j)])
  }

  /** (' ' timestamp)? */
  function TimestampOpt(b: string, i: nat): (m: Match)
    requires i <= |b|
    ensures m.Match? && m.Within(b, i)
  {
    if Is(b, i, ' ') && TimestampAt(b, i + 1).Match? then TimestampAt(b, i + 1) else Match(i, [])
  }

  /** < '∆'? '~'? name characters > */
  function NameText(b: string, i: nat): (m: Match)
    ensures m.Within(b, i) && (m.Match? ==> i < m.pos)
  {
    var (j, t) :- ClassPlus(b, Skip(b, Skip(b, i, DELTA), '~'), NameChars);
    Match(j, t + [Token(PegText, i, j)])
  }

  function QuotedNameText(b: string, i: nat): (m: Match)
    ensures m.Within(b, i) && (m.Match? ==> i < m.pos)
  {
    if Is(b, i, '"') then
      var (j, t) :- NameText(b, i + 1);
      if Is(b, j, '"') then Match(j + 1, t) else NoMatch
    else
      NoMatch
  }

  function MetricNameAt(b: string, i: nat): (m: Match)
    ensures m.Within(b, i) && (m.Match? ==> i < m.pos)
  {
    var (j, t) :- if QuotedNameText(b, i).Match? then QuotedNameText(b, i) else NameText(b, i);
    Match(j, t + [Token(Action9, j, j)] + [Token(MetricName, i, j)])
  }

  function ClassText(b: string, i: nat, k: CharClass): (m: Match)
    ensures m.Within(b, i) && (m.Match? ==> i < m.pos)
  {
    var (j, t) :- ClassPlus(b, i, k);
    Match(j, t + [Token(PegText, i, j)])
  }

  function QuotedTagText(b: string, i: nat): (m: Match)
    ensures m.Within(b, i) && (m.Match? ==> i < m.pos)
  {
    if Is(b, i, '"') then
      var (j, t) :- ClassText(b, i + 1, QuotedTagChars);
      if Is(b, j, '"') then Match(j + 1, t) else NoMatch
    else
      NoMatch
  }

  function TagNameAt(b: string, i: nat): (m: Match)
    ensures m.Within(b, i) && (m.Match? ==> i < m.pos)
  {
    var (j, t) :- if QuotedTagText(b, i).Match? then QuotedTagText(b, i) else ClassText(b, i, TagChars);
    Match(j, t + [Token(Action5, j, j)] + [Token(TagName, i, j)])
  }

  function TagValueAt(b: string, i: nat): (m: Match)
    ensures m.Within(b, i) && (m.Match? ==> i < m.pos)
  {
    if Is(b, i, '"') then
      var j := ValueStar(b, i + 1);
      if i + 1 < j && Is(b, j, '"') then
        Match(j + 1, [Token(PegText, i + 1, j)] + [Token(Action6, j + 1, j + 1)] + [Token(TagValue, i, j + 1)])
      else
        NoMatch
    else
      NoMatch
  }

  function TagAt(b: string, i: nat): (m: Match)
    ensures m.Within(b, i) && (m.Match? ==> i < m.pos)
  {
    var (j, t) :- TagNameAt(b, i);
    if Is(b, j, '=') then
      var (k, u) :- TagValueAt(b, j + 1);
      Match(k, t + u + [Token(Tag, i, k)])
    else
      NoMatch
  }

  /** (' ' tag)* */
  function TagStar(b: string, i: nat): (m: Match)
    requires i <= |b|
    ensures m.Match? && m.Within(b, i)
    decreases |b| - i
  {
    if Is(b, i, ' ') && TagAt(b, i + 1).Match? then
      var (j, t) := TagAt(b, i + 1).Extract();
      var (k, u) := TagStar(b, j).Extract();
      Match(k, t + u)
    else
      Match(i, [])
  }

  function TagsAt(b: string, i: nat): (m: Match)
    requires i <= |b|
    ensures m.Within(b, i) && (m.Match? ==> i < m.pos)
  {
    var (j, t) :- TagAt(b, i);
    var (k, u) := TagStar(b, j).Extract();
    Match(k, [Token(Action4, i, i)] + t + u + [Token(Tags, i, k)])
  }

  function HistogramCountAt(b: string, i: nat): (m: Match)
    ensures m.Within(b, i) && (m.Match? ==> i < m.pos)
  {
    if Is(b, i, '#') then
      var (j, t) :- NumberText(b, i + 1);
      Match(j, t + [Token(Action2, j, j)] + [Token(HistogramCount, i, j)])
    else
      NoMatch
  }

  function HistogramValueAt(b: string, i: nat): (m: Match)
    ensures m.Within(b, i) && (m.Match? ==> i < m.pos)
  {
    var (j, t) :- NumberText(b, i);
    Match(j, t + [Token(Action3, j, j)] + [Token(HistogramValue, i, j)])
  }

  function BucketAt(b: string, i: nat): (m: Match)
    ensures m.Within(b, i) && (m.Match? ==> i < m.pos)
  {
    var (j, t) :- HistogramCountAt(b, i);
    if Is(b, j, ' ') then
      var (k, u) :- HistogramValueAt(b, j + 1);
      Match(k, t + u + [Token(HistogramBucket, i, k)])
    else
      NoMatch
  }

  /** (' ' histogramBucket)* */
  function BucketStar(b: string, i: nat): (m: Match)
    requires i <= |b|
    ensures m.Match? && m.Within(b, i)
    decreases |b| - i
  {
    if Is(b, i, ' ') && BucketAt(b, i + 1).Match? then
      var (j, t) := BucketAt(b, i + 1).Extract();
      var (k, u) := BucketStar(b, j).Extract();
      Match(k, t + u)
    else
      Match(i, [])
  }

  function BucketsAt(b: string, i: nat): (m: Match)
    requires i <= |b|
    ensures m.Within(b, i) && (m.Match? ==> i < m.pos)
  {
    var (j, t) :- BucketAt(b, i);
    var (k, u) := BucketStar(b, j).Extract();
    Match(k, [Token(Action1, i, i)] + t + u + [Token(HistogramValues, i, k)])
  }

  function IntervalAt(b: string, i: nat): (m: Match)
    ensures m.Within(b, i) && (m.Match? ==> i < m.pos)
  {
    if Is(b, i, '!') && (Is(b, i + 1, 'D') || Is(b, i + 1, 'H') || Is(b, i + 1, 'M')) then
      Match(i + 2, [Token(Action0, i + 2, i + 2)] + [Token(AggregationInterval, i, i + 2)])
    else
      NoMatch
  }

  /** ' ' tags !. */
  function TagsToEnd(b: string, i: nat): (m: Match)
    ensures m.Within(b, i)
  {
    if Is(b, i, ' ') then
      var (j, t) :- TagsAt(b, i + 1);
      if j < |b| then NoMatch else Match(j, t)
    else
      NoMatch
  }

  /** ' ' metricName ' ' tags !. */
  function NameAndTags(b: string, i: nat): (m: Match)
    ensures m.Within(b, i)
  {
    if Is(b, i, ' ') then
      var (j, t) :- MetricNameAt(b, i + 1);
      var (k, u) :- TagsToEnd(b, j);
      Match(k, t + u)
    else
      NoMatch
  }

  /** ' ' histogramValues ' ' metricName ' ' tags !. */
  function BucketsAndRest(b: string, i: nat): (m: Match)
    ensures m.Within(b, i)
  {
    if Is(b, i, ' ') then
      var (j, t) :- BucketsAt(b, i + 1);
      var (k, u) :- NameAndTags(b, j);
      Match(k, t + u)
    else
      NoMatch
  }

  function HistogramLine(b: string): (m: Match)
    ensures m.Within(b, 0)
  {
    var (j, t) :- IntervalAt(b, 0);
    var (k, u) := TimestampOpt(b, j).Extract();
    var (l, v) :- BucketsAndRest(b, k);
    Match(l, t + u + v)
  }

  /** ' ' metricValue (' ' timestamp)? ' ' tags !. */
  function ValueAndRest(b: string, i: nat): (m: Match)
    ensures m.Within(b, i)
  {
    if Is(b, i, ' ') then
      var (j, t) :- MetricValueAt(b, i + 1);
      var (k, u) := TimestampOpt(b, j).Extract();
      var (l, v) :- TagsToEnd(b, k);
      Match(l, t + u + v)
    else
      NoMatch
  }

  function PointLine(b: string): (m: Match)
    ensures m.Within(b, 0)
  {
    var (j, t) :- MetricNameAt(b, 0);
    var (k, u) :- ValueAndRest(b, j);
    Match(k, t + u)
  }

  /** The start rule: a histogram line or else a point line. */
  function Line(b: string): (m: Match)
    ensures m.Within(b, 0)
  {
    var (j, t) :- if HistogramLine(b).Match? then HistogramLine(b) else PointLine(b);
    Match(j, t + [Token(MetricGrammarRule, 0, j)])
  }

  // ---- semantic actions -----------------------------------------------------------------------

  /** What the semantic actions have set so far. Nil maps are empty maps. */
  datatype Fields = Fields(
    text: string, histogram: bool, buckets: map<string, string>, count: string, name: string,
    value: string, timestamp: string, tags: map<string, string>, tag: string)

  const NoFields := Fields("", false, map[], "", "", "", "", map[], "")

  function Act(b: string, t: Token, f: Fields): Fields
    requires t.begin <= t.end <= |b|
  {
    match t.rule
    case PegText => f.(text := b[t.begin..t.end])
    case Action0 => f.(histogram := true)
    case Action1 => f.(buckets := map[])
    case Action2 => f.(count := f.text)
    case Action3 => f.(buckets := f.buckets[f.text := f.count])
    case Action4 => f.(tags := map[])
    case Action5 => f.(tag := f.text)
    case Action6 => f.(tags := f.tags[f.tag := f.text])
    case Action7 => f.(timestamp := f.text)
    case Action8 => f.(value := f.text)
    case Action9 => f.(name := f.text)
    case _ => f
  }

  function Run(b: string, toks: seq<Token>, f: Fields): Fields
    requires TokensWithin(toks, |b|)
    decreases |toks|
  {
    if toks == [] then f
    else Act(b, toks[|toks| - 1], Run(b, toks[..|toks| - 1], f))
  }
}
