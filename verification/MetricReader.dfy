/**
 The chunking reader of Prometheus scrapes
 (collector/plugins/sources/prometheus/metric_reader.go, lookahead_reader.go).

 A scrape is handed to the text parser chunk by chunk. The chunks are proved to be the cuts of the
 scrape at exactly those comment lines that open a new group of samples.
 */
module MetricReader {

  // ---- lines ----------------------------------------------------------------------------------

  /** The white space of unicode.IsSpace, which bytes.TrimSpace strips. */
  predicate IsSpace(c: char) {
    '\t' <= c <= '\r' || c == ' ' || c == '\U{85}' || c == '\U{A0}' || c == '\U{1680}'
    || '\U{2000}' <= c <= '\U{200A}' || c == '\U{2028}' || c == '\U{2029}' || c == '\U{202F}'
    || c == '\U{205F}' || c == '\U{3000}'
  }

  function TrimLeft(s: string): string {
    if s != "" && IsSpace(s[0]) then TrimLeft(s[1..]) else s
  }

  function TrimRight(s: string): string {
    if s != "" && IsSpace(s[|s| - 1]) then TrimRight(s[..|s| - 1]) else s
  }

  /** bytes.TrimSpace */
  function TrimSpace(s: string): string {
    TrimRight(TrimLeft(s))
  }

  predicate Blank(line: string) {
    forall c :: c in line ==> IsSpace(c)
  }

  lemma {:induction false} TrimLeftOfBlank(s: string)
    ensures if Blank(s) then TrimLeft(s) == "" else TrimLeft(s) != "" && !IsSpace(TrimLeft(s)[0])
    decreases |s|
  {
    if s != "" && IsSpace(s[0]) {
      TrimLeftOfBlank(s[1..]);
      assert forall c :: c in s ==> c == s[0] || c in s[1..];
    } else if s != "" {
      assert s[0] in s;
    }
  }

  lemma {:induction false} TrimRightKeepsFirst(s: string)
    requires s != "" && !IsSpace(s[0])
    ensures TrimRight(s) != ""
    decreases |s|
  {
    if IsSpace(s[|s| - 1]) {
      TrimRightKeepsFirst(s[..|s| - 1]);
    }
  }

  /** Nothing is left of a line after trimming exactly when it has white space only. */
  lemma TrimmedBlank(s: string)
    ensures TrimSpace(s) == "" <==> Blank(s)
  {
    TrimLeftOfBlank(s);
    if !Blank(s) {
      TrimRightKeepsFirst(TrimLeft(s));
    }
  }

  predicate Comment(line: string) {
    line != "" && line[0] == '#'
  }

  predicate Sample(line: string) {
    !Blank(line) && !Comment(line)
  }

  lemma CommentIsNotBlank(line: string)
    requires Comment(line)
    ensures !Blank(line)
  {
    assert line[0] in line;
  }

  function DropCR(s: string): string {
    if s != "" && s[|s| - 1] == '\r' then s[..|s| - 1] else s
  }

  /** The position of the first newline at or after i, or the length of s. */
  function LineEnd(s: string, i: nat): (e: nat)
    requires i <= |s|
    ensures i <= e <= |s| && (e < |s| ==> s[e] == '\n') && forall k :: i <= k < e ==> s[k] != '\n'
    decreases |s| - i
  {
    if i == |s| || s[i] == '\n' then i else LineEnd(s, i + 1)
  }

  // ---- lines that fit the scanner -------------------------------------------------------------

  /** The largest token of a bufio.Scanner, in bytes. */
  const MAX_TOKEN := 65536

  /** The size of a character in UTF-8. */
  function Size(c: char): nat {
    if c < '\U{80}' then 1 else if c < '\U{800}' then 2 else if c < '\U{10000}' then 3 else 4
  }

  function Bytes(s: string): nat {
    if s == "" then 0 else Bytes(s[..|s| - 1]) + Size(s[|s| - 1])
  }

  /**
   The scanner's buffer is full before the line's newline, or before the end, is seen. A last line without
   newline may fill the buffer if its end is reported together with its last bytes.
   */
  predicate TooLong(line: string, last: bool, endWithData: bool) {
    Bytes(line) > MAX_TOKEN || (Bytes(line) == MAX_TOKEN && !(last && endWithData))
  }

  /** The first line of a text, without its newline. */
  function Front(text: string): string
    requires text != ""
  {
    text[..LineEnd(text, 0)]
  }

  /** What comes after the first line and its newline. */
  function Rest(text: string): (r: string)
    requires text != ""
    ensures |r| < |text|
  {
    var e := LineEnd(text, 0);
    if e < |text| then text[e + 1..] else ""
  }

  /** The first line has no newline. */
  predicate Unended(text: string)
    requires text != ""
  {
    LineEnd(text, 0) == |text|
  }

  predicate OneLine(s: string) {
    forall k :: 0 <= k < |s| ==> s[k] != '\n'
  }

  lemma FrontAndRest(text: string)
    requires text != ""
    ensures OneLine(Front(text))
    ensures if Unended(text) then Front(text) == text && Rest(text) == "" else text == Front(text) + "\n" + Rest(text)
  {
  }

  lemma FrontIs(line: string, rest: string)
    requires OneLine(line)
    ensures var text := line + "\n" + rest;
            text != "" && Front(text) == line && Rest(text) == rest && !Unended(text)
  {
    var text := line + "\n" + rest;
    assert text[|line|] == '\n' && forall k :: 0 <= k < |line| ==> text[k] == line[k];
    assert LineEnd(text, 0) == |line|;
  }

  /** The lines that the scanner hands out: it gives up at the first that is too long. */
  function Readable(text: string, endWithData: bool): seq<string>
    decreases |text|
  {
    if text == "" || TooLong(Front(text), Unended(text), endWithData) then []
    else [DropCR(Front(text))] + Readable(Rest(text), endWithData)
  }

  /** bufio.ScanLines over a whole text. */
  function Lines(text: string): seq<string>
    decreases |text|
  {
    if text == "" then [] else [DropCR(Front(text))] + Lines(Rest(text))
  }

  /** Line i of the text is too long for the scanner. */
  predicate TooLongAt(text: string, i: nat, endWithData: bool)
    decreases |text|
  {
    text != "" && if i == 0 then TooLong(Front(text), Unended(text), endWithData) else TooLongAt(Rest(text), i - 1, endWithData)
  }

  /** The lines handed out are those before the first that is too long, and all if there is none. */
  lemma {:induction false} ReadableAre(text: string, endWithData: bool)
    ensures var n := |Readable(text, endWithData)|;
            && n <= |Lines(text)| && Readable(text, endWithData) == Lines(text)[..n]
            && (forall i :: 0 <= i < n ==> !TooLongAt(text, i, endWithData))
            && (n < |Lines(text)| <==> TooLongAt(text, n, endWithData))
    decreases |text|
  {
    hide TooLong, Front, Rest, Unended, DropCR, LineEnd;
    var n := |Readable(text, endWithData)|;
    if text != "" && !TooLong(Front(text), Unended(text), endWithData) {
      var rest := Rest(text);
      ReadableAre(rest, endWithData);
      TakeCons(DropCR(Front(text)), Lines(rest), n);
      forall i | 0 <= i < n
        ensures !TooLongAt(text, i, endWithData)
      {
        assert i > 0 ==> !TooLongAt(rest, i - 1, endWithData);
      }
    }
  }

  lemma TakeCons<T>(x: T, s: seq<T>, n: nat)
    requires 0 < n <= |s| + 1
    ensures ([x] + s)[..n] == [x] + s[..n - 1]
  {
  }

  /** Every line of the text fits the scanner with its newline. */
  predicate ShortLines(text: string)
    decreases |text|
  {
    text == "" || (Bytes(Front(text)) < MAX_TOKEN && ShortLines(Rest(text)))
  }

  /** There is no line of MAX_TOKEN bytes or more, wherever it begins and however it ends. */
  lemma {:induction false} ShortLinesIff(text: string)
    ensures ShortLines(text) <==>
              forall before, line, after :: IsLineOf(text, before, line, after) ==> Bytes(line) < MAX_TOKEN
    decreases |text|
  {
    hide Bytes, LineEnd, Front, Rest, Unended;
    if text != "" {
      FrontAndRest(text);
      var front, rest := Front(text), Rest(text);
      ShortLinesIff(rest);
      assert IsLineOf(text, "", front, if Unended(text) then "" else "\n" + rest) by {
        assert "" + text + "" == text;
        assert "" + front + ("\n" + rest) == front + "\n" + rest;
      }
      forall before, line, after | IsLineOf(text, before, line, after)
        ensures line == front || (!Unended(text) && |before| > |front| && IsLineOf(rest, before[|front| + 1..], line, after))
      {
        LineOfRest(text, before, line, after);
      }
      forall before, line, after | IsLineOf(rest, before, line, after) && !Unended(text)
        ensures IsLineOf(text, front + "\n" + before, line, after)
      {
        assert front + "\n" + (before + line + after) == front + "\n" + before + line + after;
      }
      OnlyEmptyLine();
    } else {
      OnlyEmptyLine();
    }
  }

  /** line stands in the text between two newlines, or at its beginning or end. */
  ghost predicate IsLineOf(text: string, before: string, line: string, after: string) {
    text == before + line + after && OneLine(line)
    && (before == "" || before[|before| - 1] == '\n') && (after == "" || after[0] == '\n')
  }

  lemma OnlyEmptyLine()
    ensures forall before, line, after :: IsLineOf("", before, line, after) ==> line == ""
    ensures Bytes("") == 0
  {
  }

  lemma LineOfRest(text: string, before: string, line: string, after: string)
    requires text != "" && IsLineOf(text, before, line, after)
    ensures line == Front(text)
            || (!Unended(text) && |before| > |Front(text)| && IsLineOf(Rest(text), before[|Front(text)| + 1..], line, after))
  {
    FrontAndRest(text);
    var front, rest := Front(text), Rest(text);
    if before == "" {
      FirstIsFront(text, line, after);
    } else {
      assert text[|before| - 1] == '\n';
      WithNewline(text, |before| - 1);
      hide Front, Rest, Unended, LineEnd, OneLine;
      assert text[|front| + 1..] == rest;
      assert before == text[..|before|];
      assert rest == before[|front| + 1..] + line + after;
    }
  }

  lemma WithNewline(text: string, n: nat)
    requires n < |text| && text[n] == '\n'
    ensures !Unended(text) && |Front(text)| <= n
  {
  }

  lemma FirstIsFront(text: string, line: string, after: string)
    requires text != "" && text == line + after && OneLine(line) && (after == "" || after[0] == '\n')
    ensures line == Front(text)
  {
    if after == "" {
      assert text == line;
      FrontAndRest(text);
    } else {
      assert text == line + "\n" + after[1..];
      FrontIs(line, after[1..]);
    }
  }

  /** Lines as they are written to a buffer. */
  function Text(lines: seq<string>): string {
    if lines == [] then "" else Text(lines[..|lines| - 1]) + lines[|lines| - 1] + "\n"
  }

  lemma {:induction false} TextCat(a: seq<string>, b: seq<string>)
    ensures Text(a + b) == Text(a) + Text(b)
    decreases |b|
  {
    if b == [] {
      assert a + b == a;
    } else {
      assert (a + b)[..|a + b| - 1] == a + b[..|b| - 1];
      TextCat(a, b[..|b| - 1]);
    }
  }

  lemma TextPush(lines: seq<string>, from: nat, p: nat)
    requires from <= p < |lines|
    ensures Text(lines[from..p]) + lines[p] + "\n" == Text(lines[from..p + 1])
  {
    assert lines[from..p + 1][..p - from] == lines[from..p];
  }

  lemma TextNothing(lines: seq<string>, i: nat)
    requires i <= |lines|
    ensures Text(lines[i..i]) == ""
  {
  }

  // ---- where chunks begin ---------------------------------------------------------------------

  /** Line i is a comment and the nearest line before it that is not blank is a sample. */
  ghost predicate OpensGroup(lines: seq<string>, i: nat)
    requires i < |lines|
  {
    Comment(lines[i]) &&
    exists j :: 0 <= j < i && Sample(lines[j]) && forall k :: j < k < i ==> Blank(lines[k])
  }

  /** The first line at or after i that opens a group, or the end. */
  ghost function NextGroup(lines: seq<string>, i: nat): (r: nat)
    requires i <= |lines|
    ensures i <= r <= |lines| && (r < |lines| ==> OpensGroup(lines, r))
    ensures forall k :: i <= k < r ==> !OpensGroup(lines, k)
    decreases |lines| - i
  {
    if i == |lines| || OpensGroup(lines, i) then i else NextGroup(lines, i + 1)
  }

  /** The lines from i on, cut before each line that opens a group. */
  ghost function Groups(lines: seq<string>, i: nat): seq<string>
    requires i <= |lines|
    decreases |lines| - i
  {
    if i == |lines| then []
    else
      var e := NextGroup(lines, i + 1);
      [Text(lines[i..e])] + Groups(lines, e)
  }

  // ---- what one read takes --------------------------------------------------------------------

  function CommentsEnd(lines: seq<string>, i: nat): (e: nat)
    requires i <= |lines|
    ensures i <= e <= |lines|
    decreases |lines| - i
  {
    if i < |lines| && (Blank(lines[i]) || Comment(lines[i])) then CommentsEnd(lines, i + 1) else i
  }

  function MetricsEnd(lines: seq<string>, i: nat): (e: nat)
    requires i <= |lines|
    ensures i <= e <= |lines|
    decreases |lines| - i
  {
    if i < |lines| && !Comment(lines[i]) then MetricsEnd(lines, i + 1) else i
  }

  lemma {:induction false} CommentsEndStops(lines: seq<string>, i: nat)
    requires i <= |lines|
    ensures var e := CommentsEnd(lines, i);
            (forall k :: i <= k < e ==> Blank(lines[k]) || Comment(lines[k]))
            && (e < |lines| ==> Sample(lines[e]))
    decreases |lines| - i
  {
    if i < |lines| && (Blank(lines[i]) || Comment(lines[i])) {
      CommentsEndStops(lines, i + 1);
    }
  }

  lemma {:induction false} MetricsEndStops(lines: seq<string>, i: nat)
    requires i <= |lines|
    ensures var e := MetricsEnd(lines, i);
            (forall k :: i <= k < e ==> !Comment(lines[k])) && (e < |lines| ==> Comment(lines[e]))
    decreases |lines| - i
  {
    if i < |lines| && !Comment(lines[i]) {
      MetricsEndStops(lines, i + 1);
    }
  }

  function ReadEnd(lines: seq<string>, i: nat): nat
    requires i <= |lines|
  {
    MetricsEnd(lines, CommentsEnd(lines, i))
  }

  /** Each read takes at least one line. */
  lemma ReadTakesLine(lines: seq<string>, i: nat)
    requires i < |lines|
    ensures i < ReadEnd(lines, i) <= |lines|
  {
  }

  /** The last line before i, from lo on, that is not blank. */
  lemma {:induction false} LastNotBlank(lines: seq<string>, lo: nat, i: nat) returns (j: nat)
    requires lo < i <= |lines| && !Blank(lines[lo])
    ensures lo <= j < i && !Blank(lines[j]) && forall k :: j < k < i ==> Blank(lines[k])
    decreases i
  {
    if Blank(lines[i - 1]) {
      j := LastNotBlank(lines, lo, i - 1);
    } else {
      j := i - 1;
    }
  }

  /** A line right after comments and blanks that began at a chunk's start opens no group. */
  lemma NoGroupInComments(lines: seq<string>, i: nat, m: nat)
    requires i < m <= |lines| && (i == 0 || OpensGroup(lines, i))
    requires forall k :: i <= k < m ==> Blank(lines[k]) || Comment(lines[k])
    ensures forall k :: i < k < m ==> !OpensGroup(lines, k)
  {
    forall k | i < k < m
      ensures !OpensGroup(lines, k)
    {
      if i > 0 {
        CommentIsNotBlank(lines[i]);
      }
    }
  }

  /** A read that starts where a chunk starts ends where the next group opens. */
  lemma ReadEndsAtNextGroup(lines: seq<string>, i: nat)
    requires i < |lines| && (i == 0 || OpensGroup(lines, i))
    ensures ReadEnd(lines, i) == NextGroup(lines, i + 1)
  {
    var m := CommentsEnd(lines, i);
    var e := ReadEnd(lines, i);
    CommentsEndStops(lines, i);
    MetricsEndStops(lines, m);
    if i < m {
      NoGroupInComments(lines, i, m);
    }
    if e < |lines| {
      var j := LastNotBlank(lines, m, e);
      assert Sample(lines[j]);
      assert OpensGroup(lines, e);
    }
    assert forall k :: i < k < e ==> !OpensGroup(lines, k);
    var n := NextGroup(lines, i + 1);
    assert !(n < e) && !(e < n);
  }

  /** A comment stays in the chunk of the first sample after it. */
  lemma CommentsStayWithSamples(lines: seq<string>, c: nat, s: nat)
    requires c < s < |lines| && Comment(lines[c]) && Sample(lines[s])
    requires forall k :: c < k < s ==> !Sample(lines[k])
    ensures NextGroup(lines, c + 1) > s
  {
    CommentIsNotBlank(lines[c]);
    assert forall k :: c < k <= s ==> !OpensGroup(lines, k);
  }

  // ---- nothing is lost ------------------------------------------------------------------------

  function Concat(chunks: seq<string>): string {
    if chunks == [] then "" else chunks[0] + Concat(chunks[1..])
  }

  lemma ConcatCons(chunk: string, chunks: seq<string>)
    ensures Concat([chunk] + chunks) == chunk + Concat(chunks)
  {
    DropFirst(chunk, chunks);
  }

  lemma DropFirst<T>(x: T, s: seq<T>)
    ensures ([x] + s)[1..] == s
  {
  }

  lemma SplitAt<T>(s: seq<T>, i: nat, e: nat)
    requires i <= e <= |s|
    ensures s[i..] == s[i..e] + s[e..]
  {
  }

  lemma HeadAndRest<T>(s: seq<T>, i: nat, x: T, t: seq<T>)
    requires i <= |s| && s[i..] == [x] + t
    ensures i < |s| && s[i] == x && s[i + 1..] == t
  {
    assert |s[i..]| == 1 + |t| && s[i..][0] == x;
    assert s[i..][1..] == s[i + 1..];
    DropFirst(x, t);
  }

  lemma Joined<T>(s: seq<T>, x: T, t: seq<T>)
    ensures s + [x] + t == s + ([x] + t)
  {
  }

  lemma {:induction false} GroupsConcat(lines: seq<string>, i: nat)
    requires i <= |lines|
    ensures Concat(Groups(lines, i)) == Text(lines[i..])
    decreases |lines| - i
  {
    hide Concat, Text, NextGroup;
    if i < |lines| {
      var e := NextGroup(lines, i + 1);
      GroupsConcat(lines, e);
      TextCat(lines[i..e], lines[e..]);
      SplitAt(lines, i, e);
      ConcatCons(Text(lines[i..e]), Groups(lines, e));
    } else {
      NothingLeft(lines);
    }
  }

  lemma NothingLeft(lines: seq<string>)
    ensures Concat([]) == Text(lines[|lines|..])
  {
  }

  /** Texts made of whole lines that end in a plain newline. */
  ghost predicate Plain(text: string) {
    (text == "" || text[|text| - 1] == '\n')
    && forall i :: 0 <= i < |text| - 1 && text[i] == '\r' ==> text[i + 1] != '\n'
  }

  /** Plain texts, line by line. */
  lemma PlainRest(line: string, rest: string)
    requires OneLine(line)
    ensures Plain(line + "\n" + rest) <==> DropCR(line) == line && Plain(rest)
  {
    if Plain(line + "\n" + rest) {
      PlainText(line, rest);
    }
    if DropCR(line) == line && Plain(rest) {
      PlainParts(line, rest);
    }
  }

  lemma PlainText(line: string, rest: string)
    requires Plain(line + "\n" + rest)
    ensures DropCR(line) == line && Plain(rest)
  {
    var text, e := line + "\n" + rest, |line|;
    assert text[e] == '\n' && text[|text| - 1] == if rest == "" then '\n' else rest[|rest| - 1];
    forall i | 0 <= i < |rest| - 1 && rest[i] == '\r'
      ensures rest[i + 1] != '\n'
    {
      assert text[e + 1 + i] == rest[i] && text[e + 1 + i + 1] == rest[i + 1];
    }
    assert line != "" ==> text[e - 1] == line[e - 1];
  }

  lemma PlainParts(line: string, rest: string)
    requires OneLine(line) && DropCR(line) == line && Plain(rest)
    ensures Plain(line + "\n" + rest)
  {
    var text, e := line + "\n" + rest, |line|;
    assert text[|text| - 1] == if rest == "" then '\n' else rest[|rest| - 1];
    forall i | 0 <= i < |text| - 1 && text[i] == '\r'
      ensures text[i + 1] != '\n'
    {
      if i > e {
        assert rest[i - e - 1] == '\r' && rest[i - e] == text[i + 1];
      } else {
        assert i < e && text[i] == line[i];
        assert i + 1 < e ==> text[i + 1] == line[i + 1];
      }
    }
  }

  /** Writing the lines handed out back gives the text exactly when it is plain and no line is too long. */
  lemma {:induction false} LinesRoundTrip(text: string, endWithData: bool)
    ensures Text(Readable(text, endWithData)) == text <==> Plain(text) && ShortLines(text)
    decreases |text|
  {
    hide LineEnd, Front, Rest, Unended, Bytes, Plain, DropCR, Text;
    if text != "" {
      FrontAndRest(text);
      var line, rest := Front(text), Rest(text);
      if Unended(text) {
        NotPlain(text);
        var lines := Readable(text, endWithData);
        NoNewlineIsLost(text, lines);
      } else if TooLong(line, false, endWithData) {
        NoText();
      } else {
        LinesRoundTrip(rest, endWithData);
        TextCons(DropCR(line), Readable(rest, endWithData));
        PlainRest(line, rest);
        WholeOrShort(line, DropCR(line), Text(Readable(rest, endWithData)), rest);
        FitsIfNotTooLong(line, endWithData);
      }
    } else {
      NoText();
      NothingIsPlain();
    }
  }

  lemma FitsIfNotTooLong(line: string, endWithData: bool)
    ensures TooLong(line, false, endWithData) <==> Bytes(line) >= MAX_TOKEN
  {
    hide Bytes;
  }

  lemma NothingIsPlain()
    ensures Plain("")
  {
  }

  lemma NoText()
    ensures Text([]) == ""
  {
  }

  lemma TextCons(head: string, lines: seq<string>)
    ensures Text([head] + lines) == head + "\n" + Text(lines)
  {
    TextCat([head], lines);
    assert [head][..0] == [];
  }

  lemma NotPlain(text: string)
    requires text != "" && OneLine(text)
    ensures !Plain(text)
  {
  }

  /** What is written ends in a newline. */
  lemma NoNewlineIsLost(text: string, lines: seq<string>)
    requires text != "" && OneLine(text)
    ensures Text(lines) != text
  {
    if lines != [] {
      assert Text(lines)[|Text(lines)| - 1] == '\n';
    }
  }

  lemma WholeOrShort(line: string, head: string, tail: string, rest: string)
    requires OneLine(line) && head == DropCR(line)
    ensures head + "\n" + tail == line + "\n" + rest <==> head == line && tail == rest
  {
    if head + "\n" + tail == line + "\n" + rest {
      FrontIs(head, tail);
      FrontIs(line, rest);
    }
  }

  /** A line that is too long takes everything after it away, whatever that is. */
  lemma {:induction false} LongLineLosesRest(before: string, long: string, after: string, endWithData: bool)
    requires before == "" || before[|before| - 1] == '\n'
    requires OneLine(long) && Bytes(long) >= MAX_TOKEN
    ensures Readable(before + long + "\n" + after, endWithData) == Readable(before, endWithData)
    decreases |before|
  {
    hide Bytes, LineEnd, Front, Rest, Unended, DropCR;
    if before == "" {
      assert before + long == long;
      FrontIs(long, after);
      FitsIfNotTooLong(long, endWithData);
    } else {
      FrontAndRest(before);
      LastIsNewline(before);
      var line, rest := Front(before), Rest(before);
      assert before + long + "\n" + after == line + "\n" + (rest + long + "\n" + after);
      FrontIs(line, rest + long + "\n" + after);
      LongLineLosesRest(rest, long, after, endWithData);
    }
  }

  lemma LastIsNewline(text: string)
    requires text != "" && text[|text| - 1] == '\n'
    ensures !Unended(text) && (Rest(text) == "" || Rest(text)[|Rest(text)| - 1] == '\n')
  {
    FrontAndRest(text);
    WithNewline(text, |text| - 1);
    hide Front, Rest, Unended;
    var rest := Rest(text);
    if rest != "" {
      assert text[|text| - 1] == rest[|rest| - 1];
    }
  }

  lemma {:induction false} BytesOfOnes(n: nat)
    ensures Bytes(seq(n, _ => 'a')) == n
  {
    if n > 0 {
      BytesOfOnes(n - 1);
      assert seq(n, _ => 'a')[..n - 1] == seq(n - 1, _ => 'a');
    }
  }

  /** Plain whole lines with a sample of 70000 characters between two others: only the first is read. */
  lemma LongSampleIsLost(endWithData: bool)
    ensures var text := "x 1\n" + seq(70000, _ => 'a') + "\n" + "y 2\n";
            Plain(text) && Readable(text, endWithData) == ["x 1"] && Text(Readable(text, endWithData)) == "x 1\n"
  {
    var long := seq(70000, _ => 'a');
    BytesOfOnes(70000);
    assert forall k :: 0 <= k < |long| ==> long[k] == 'a';
    FirstLineRead(endWithData);
    hide Bytes, Readable, Text;
    LongLineLosesRest("x 1\n", long, "y 2\n", endWithData);
    PlainAround("x 1\n", long, "y 2\n");
  }

  lemma PlainAround(before: string, long: string, after: string)
    requires before == "x 1\n" && after == "y 2\n" && forall k :: 0 <= k < |long| ==> long[k] == 'a'
    ensures Plain(before + long + "\n" + after)
  {
    var text := before + long + "\n" + after;
    assert text[|text| - 1] == after[3];
    forall i | 0 <= i < |text|
      ensures text[i] != '\r'
    {
      if i >= |before| + |long| + 1 {
        assert text[i] == after[i - |before| - |long| - 1];
      }
    }
  }

  lemma FirstLineRead(endWithData: bool)
    ensures Readable("x 1\n", endWithData) == ["x 1"] && Text(["x 1"]) == "x 1\n"
  {
    FrontIs("x 1", "");
    assert "x 1" + "\n" + "" == "x 1\n";
    assert "x 1"[..2] == "x " && "x "[..1] == "x" && "x"[..0] == "";
    assert Bytes("x") == 1 && Bytes("x ") == 2 && Bytes("x 1") == 3;
    assert ["x 1"][..0] == [];
  }

  // ---- the readers ----------------------------------------------------------------------------

  /** bufio.Scanner split at lines. It is not asked again once it has given up. */
  class Scanner {
    const endWithData: bool
    var rest: string
    var token: string
    var ended: bool

    constructor (text: string, endWithData: bool)
      ensures rest == text && token == "" && !ended && this.endWithData == endWithData
    {
      rest, token, ended := text, "", false;
      this.endWithData := endWithData;
    }

    method Scan() returns (more: bool)
      requires !ended
      modifies this
      ensures ended == !more
      ensures if more then Readable(old(rest), endWithData) == [token] + Readable(rest, endWithData)
              else token == "" && Readable(old(rest), endWithData) == []
    {
      if rest == "" {
        token, ended := "", true;
        return false;
      }
      hide Bytes, LineEnd;
      var e, size := FindEnd();
      if size > MAX_TOKEN || (size == MAX_TOKEN && !(e == |rest| && endWithData)) {
        token, ended := "", true;
        return false;
      }
      token := DropCR(rest[..e]);
      rest := if e < |rest| then rest[e + 1..] else "";
      return true;
    }

    /** The line at the front of the rest, and its size. */
    method FindEnd() returns (e: nat, size: nat)
      ensures e == LineEnd(rest, 0) && size == Bytes(rest[..e])
    {
      hide Bytes;
      e, size := 0, 0;
      BytesFrom(rest);
      while e < |rest| && rest[e] != '\n'
        invariant 0 <= e <= |rest| && LineEnd(rest, 0) == LineEnd(rest, e) && size == Bytes(rest[..e])
      {
        BytesNext(rest, e);
        size := size + Size(rest[e]);
        e := e + 1;
      }
    }
  }

  lemma BytesFrom(s: string)
    ensures Bytes(s[..0]) == 0
  {
  }

  lemma BytesNext(s: string, e: nat)
    requires e < |s|
    ensures Bytes(s[..e + 1]) == Bytes(s[..e]) + Size(s[e])
  {
    assert s[..e + 1][..e] == s[..e];
  }

  class LookaheadReader {
    const scanner: Scanner
    var done: bool
    var lineCount: int
    ghost const lines: seq<string>

    ghost predicate Valid()
      reads this, scanner
    {
      1 <= lineCount <= |lines| + 1
      && (done <==> lineCount == |lines| + 1) && done == scanner.ended
      && (!done ==> scanner.token == lines[lineCount - 1] && Readable(scanner.rest, scanner.endWithData) == lines[lineCount..])
    }

    /** The number of lines already read. */
    ghost function Position(): (p: nat)
      requires Valid()
      reads this, scanner
      ensures p <= |lines|
    {
      lineCount - 1
    }

    constructor (text: string, endWithData: bool)
      ensures Valid() && fresh(scanner) && lines == Readable(text, endWithData) && Position() == 0
    {
      scanner := new Scanner(text, endWithData);
      lines := Readable(text, endWithData);
      done := false;
      lineCount := 0;
      new;
      AdvanceLine();
    }

    lemma DoneAtEnd()
      requires Valid()
      ensures done <==> Position() == |lines|
    {
    }

    /** Moves on to the next line. Only called with a line still to come or right after the last one. */
    method AdvanceLine()
      requires 0 <= lineCount <= |lines| && Readable(scanner.rest, scanner.endWithData) == lines[lineCount..]
      requires !scanner.ended
      modifies this, scanner
      ensures Valid() && lineCount == old(lineCount) + 1
    {
      hide Readable;
      var more := scanner.Scan();
      if more {
        HeadAndRest(lines, lineCount, scanner.token, Readable(scanner.rest, scanner.endWithData));
      } else {
        assert |lines[lineCount..]| == |lines| - lineCount;
      }
      lineCount := lineCount + 1;
      done := !more;
    }

    method Peek() returns (line: string)
      requires Valid()
      ensures !done ==> line == lines[Position()]
    {
      line := scanner.token;
    }

    method Read() returns (line: string)
      requires Valid()
      modifies this, scanner
      ensures Valid()
      ensures if old(done) then line == "" && Position() == old(Position())
              else line == lines[old(Position())] && Position() == old(Position()) + 1
    {
      if done {
        return "";
      }
      line := scanner.token;
      AdvanceLine();
    }
  }

  class MetricReader {
    const lar: LookaheadReader

    ghost predicate Valid()
      reads this, lar, lar.scanner
    {
      lar.Valid()
    }

    constructor (text: string, endWithData: bool)
      ensures Valid() && fresh(lar) && fresh(lar.scanner)
      ensures lar.lines == Readable(text, endWithData) && lar.Position() == 0
    {
      lar := new LookaheadReader(text, endWithData);
    }

    /** A chunk is the text of the lines from where the last one ended up to ReadEnd. */
    method Read() returns (buffer: string)
      requires Valid()
      modifies lar, lar.scanner
      ensures Valid() && lar.Position() == ReadEnd(lar.lines, old(lar.Position()))
      ensures buffer == Text(lar.lines[old(lar.Position())..lar.Position()])
    {
      hide Text, Readable, Blank, CommentsEnd, MetricsEnd, LookaheadReader.Valid, LookaheadReader.Position;
      var comments := ReadComments();
      ghost var middle := lar.Position();
      var metrics := ReadMetrics();
      buffer := comments + metrics;
      ghost var from := old(lar.Position());
      TextCat(lar.lines[from..middle], lar.lines[middle..lar.Position()]);
      assert lar.lines[from..lar.Position()] == lar.lines[from..middle] + lar.lines[middle..lar.Position()];
    }

    method ReadComments() returns (buffer: string)
      requires Valid()
      modifies lar, lar.scanner
      ensures Valid() && lar.Position() == CommentsEnd(lar.lines, old(lar.Position()))
      ensures buffer == Text(lar.lines[old(lar.Position())..lar.Position()])
    {
      hide Text, Readable, Blank, LookaheadReader.Valid, LookaheadReader.Position;
      buffer := "";
      TextNothing(lar.lines, lar.Position());
      ghost var from := lar.Position();
      while !lar.done
        invariant Valid() && from <= lar.Position()
        invariant CommentsEnd(lar.lines, from) == CommentsEnd(lar.lines, lar.Position())
        invariant buffer == Text(lar.lines[from..lar.Position()])
        decreases |lar.lines| - lar.Position()
      {
        var more := CommentNext();
        if !more {
          break;
        }
        ghost var p := lar.Position();
        var line := lar.Read();
        buffer := buffer + line + "\n";
        TextPush(lar.lines, from, p);
      }
      lar.DoneAtEnd();
    }

    method CommentNext() returns (next: bool)
      requires Valid() && !lar.done
      ensures next <==> Blank(lar.lines[lar.Position()]) || Comment(lar.lines[lar.Position()])
    {
      var line := lar.Peek();
      TrimmedBlank(line);
      if TrimSpace(line) == "" {
        return true;
      }
      return "#" <= line;
    }

    method ReadMetrics() returns (buffer: string)
      requires Valid()
      modifies lar, lar.scanner
      ensures Valid() && lar.Position() == MetricsEnd(lar.lines, old(lar.Position()))
      ensures buffer == Text(lar.lines[old(lar.Position())..lar.Position()])
    {
      hide Text, Readable, Blank, LookaheadReader.Valid, LookaheadReader.Position;
      buffer := "";
      TextNothing(lar.lines, lar.Position());
      ghost var from := lar.Position();
      while !lar.done
        invariant Valid() && from <= lar.Position()
        invariant MetricsEnd(lar.lines, from) == MetricsEnd(lar.lines, lar.Position())
        invariant buffer == Text(lar.lines[from..lar.Position()])
        decreases |lar.lines| - lar.Position()
      {
        var line := lar.Peek();
        if "#" <= line {
          break;
        }
        ghost var p := lar.Position();
        line := lar.Read();
        buffer := buffer + line + "\n";
        TextPush(lar.lines, from, p);
      }
      lar.DoneAtEnd();
    }
  }

  /**
   The chunks handed to the parser, one after the other, until the reader is done; endWithData says whether
   the connection reports its end together with its last bytes.
   */
  method ReadAll(text: string, endWithData: bool) returns (chunks: seq<string>)
    ensures chunks == Groups(Readable(text, endWithData), 0)
    ensures Concat(chunks) == Text(Readable(text, endWithData))
    ensures Concat(chunks) == text <==> Plain(text) && ShortLines(text)
  {
    hide Readable, Text, Concat, ReadEnd, NextGroup, OpensGroup, Plain, ShortLines;
    var reader := new MetricReader(text, endWithData);
    ghost var lines := reader.lar.lines;
    chunks := [];
    while !reader.lar.done
      invariant reader.Valid() && fresh(reader.lar) && fresh(reader.lar.scanner)
      invariant var p := reader.lar.Position(); p == 0 || p == |lines| || OpensGroup(lines, p)
      invariant chunks + Groups(lines, reader.lar.Position()) == Groups(lines, 0)
      decreases |lines| - reader.lar.Position()
    {
      ghost var p := reader.lar.Position();
      ReadTakesLine(lines, p);
      ReadEndsAtNextGroup(lines, p);
      var chunk := reader.Read();
      ghost var before := chunks;
      chunks := chunks + [chunk];
      Joined(before, chunk, Groups(lines, reader.lar.Position()));
    }
    GroupsConcat(lines, 0);
    assert lines[0..] == lines;
    LinesRoundTrip(text, endWithData);
  }
}
