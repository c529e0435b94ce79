/**
 Reading back what was written. For every registry, whatever its label values
 contain, parsing the rendered exposition gives exactly the registry's samples in
 the order they are written, unless a line is too long for the scanner, and then it
 gives an error.
 */
module ExpositionTheorems {
  import opened ByteOrder
  import opened Exposition
  import opened ExpositionParser
  import opened Options
  import opened Text
  import opened WhiteSpace

  // ---------------------------------------------------------------- the samples of a registry

  ghost function BucketSamples<F>(n: Numerals<F>, name: string, s: Series<F>, i: nat): (r: seq<Sample<F>>)
    requires s.Buckets? && i <= |s.buckets|
  {
    if i == 0 then []
    else
      var b := s.buckets[i - 1];
      BucketSamples(n, name, s, i - 1) + [Sample(name, Valid(s.labels)["le" := n.format(b.bound)], n.ofCount(b.count))]
  }

  /** The physical series behind one labelled series. */
  ghost function SeriesSamples<F>(n: Numerals<F>, name: string, s: Series<F>): (r: seq<Sample<F>>) {
    match s
    case Scalar(labels, value) => [Sample(name, Valid(labels), value)]
    case Buckets(labels, buckets, sum, count) =>
      BucketSamples(n, name + "_bucket", s, |buckets|)
      + [Sample(name + "_bucket", Valid(labels)["le" := "+Inf"], n.ofCount(count)),
         Sample(name + "_sum", Valid(labels), sum),
         Sample(name + "_count", Valid(labels), n.ofCount(count))]
  }

  ghost function EntrySamples<F(!new)>(n: Numerals<F>, f: Family<F>, keys: seq<string>, i: nat): (r: seq<Sample<F>>)
    requires i <= |keys| && forall j :: 0 <= j < |keys| ==> keys[j] in f.entries
  {
    if i == 0 then [] else EntrySamples(n, f, keys, i - 1) + SeriesSamples(n, f.name, f.entries[keys[i - 1]])
  }

  ghost function FamilySamples<F(!new)>(n: Numerals<F>, f: Family<F>): (r: seq<Sample<F>>) {
    var keys := Ascending(f.entries.Keys);
    if ValidMetricName(f.name) then EntrySamples(n, f, keys, |keys|) else []
  }

  ghost function SamplesUpTo<F(!new)>(n: Numerals<F>, fams: seq<Family<F>>, i: nat): (r: seq<Sample<F>>)
    requires i <= |fams|
  {
    if i == 0 then [] else SamplesUpTo(n, fams, i - 1) + FamilySamples(n, fams[i - 1])
  }

  /** Every sample of a registry: families by name, series by label key. */
  ghost function Samples<F(!new)>(n: Numerals<F>, fs: Families<F>): (r: seq<Sample<F>>) {
    SamplesUpTo(n, InOrder(fs), |InOrder(fs)|)
  }

  // ---------------------------------------------------------------- characters and strings

  predicate NameChar(c: char) { Letter(c) || Digit(c) || c == ':' }

  /** A text that can stand as a name. */
  predicate NameText(s: string) { s != "" && forall i :: 0 <= i < |s| ==> NameChar(s[i]) }

  predicate Without(s: string, c: char) { forall i :: 0 <= i < |s| ==> s[i] != c }

  lemma IndexOfChar(p: string, c: char, t: string)
    requires Without(p, c)
    ensures Index(p + [c] + t, [c]) == |p|
  {
    var s := p + [c] + t;
    assert s[|p|..|p| + 1] == [c];
    forall j | 0 <= j < |p| ensures !At(s, [c], j) {
      assert s[j..j + 1] == [p[j]];
    }
    IndexIs(s, [c], |p|);
  }

  lemma NoIndex(s: string, c: char)
    requires Without(s, c)
    ensures Index(s, [c]) == -1
  {
    forall j | 0 <= j <= |s| - 1 ensures !At(s, [c], j) {
      assert s[j..j + 1] == [s[j]];
    }
    IndexNone(s, [c]);
  }

  lemma {:induction false} LastIndexOf(p: string, c: char, t: string)
    requires Without(t, c)
    ensures LastIndex(p + [c] + t, c) == |p|
    decreases |t|
  {
    var s := p + [c] + t;
    if t == "" {
      assert s[|s| - 1] == c;
    } else {
      var front := t[..|t| - 1];
      assert s[..|s| - 1] == p + [c] + front;
      LastIndexOf(p, c, front);
    }
  }

  lemma NumberTrimmed(s: string)
    requires AllPlain(s)
    ensures TrimSpace(" " + s) == s && TrimSpace(s) == s
  {
    assert (" " + s)[1..] == s;
    SolidStart(s);
    assert Leading(" " + s) == 1;
    Untrimmed(s);
  }

  lemma NameTrimmed(s: string)
    requires NameText(s)
    ensures TrimSpace(s) == s
  {
    assert NameChar(s[0]) && NameChar(s[|s| - 1]);
    Untrimmed(s);
  }

  lemma {:induction false} WordLengthIs(w: string, t: string)
    requires (forall i :: 0 <= i < |w| ==> Solid(w[i])) && (t == "" || t[0] in SPACES)
    ensures WordLength(w + t) == |w|
  {
    if w == "" {
      assert w + t == t;
    } else {
      assert (w + t)[1..] == w[1..] + t;
      SolidStart(w + t);
      WordLengthIs(w[1..], t);
    }
  }

  lemma TwoFields(a: string, b: string)
    requires NameText(a) && AllPlain(b)
    ensures Fields(a + " " + b) == [a, b]
  {
    var s := a + " " + b;
    var rest := " " + b;
    assert s == a + rest && s[0] == a[0] && NameChar(a[0]);
    SolidStart(s);
    WordLengthIs(a, rest);
    assert s[..|a|] == a && s[|a|..] == rest;
    LastField(b);
  }

  lemma LastField(b: string)
    requires AllPlain(b)
    ensures Fields(" " + b) == [b]
  {
    var rest := " " + b;
    assert Leading(rest) == 1 && rest[1..] == b;
    SolidStart(b);
    assert TrimStart(rest) == b;
    assert b + "" == b;
    WordLengthIs(b, "");
    assert b[..|b|] == b && b[|b|..] == "";
    assert Fields("") == [];
  }

  // ---------------------------------------------------------------- labels

  /** An escaped value is read back, up to its closing quote. */
  lemma {:induction false} UnquoteEscaped(v: string, t: string)
    ensures Unquote(EscapeLabelValue(v) + "\"" + t) == Some((v, t))
  {
    if v == "" {
      var s := EscapeLabelValue(v) + "\"" + t;
      assert s[0] == '"' && s[1..] == t;
    } else {
      var c, more := v[0], EscapeLabelValue(v[1..]) + "\"" + t;
      var s := EscapeLabelValue(v) + "\"" + t;
      assert s == EscapedChar(c) + more;
      assert s[|EscapedChar(c)|..] == more;
      UnquoteEscaped(v[1..], t);
      assert [c] + v[1..] == v;
    }
  }

  lemma {:induction false} EscapedOnOneLine(v: string)
    ensures Without(EscapeLabelValue(v), '\n') && Without(EscapeHelp(v), '\n')
  {
    if v != "" { EscapedOnOneLine(v[1..]); }
  }

  lemma PairParses(p: Labelled, tail: string, acc: Labels)
    requires NameText(p.0)
    ensures ParsePairs(Pair(p) + tail, acc) == ParsePairs(TrimLeft(tail, SEPARATORS), acc[p.0 := p.1])
  {
    var (k, v) := p;
    var quoted := EscapeLabelValue(v) + "\"" + tail;
    var s := Pair(p) + tail;
    assert s == k + "=" + ("\"" + quoted) by {
      PairShape(k, EscapeLabelValue(v), tail);
    }
    IndexOfChar(k, '=', "\"" + quoted);
    assert s[..|k|] == k && s[|k| + 1] == '"' && s[|k| + 2..] == quoted;
    NameTrimmed(k);
    UnquoteEscaped(v, tail);
  }

  lemma PairShape(k: string, e: string, tail: string)
    ensures k + "=\"" + e + "\"" + tail == k + "=" + ("\"" + (e + "\"" + tail))
  {
    assert "=\"" == "=" + "\"";
  }

  function Added(acc: Labels, ps: seq<Labelled>): (r: Labels)
    decreases |ps|
  {
    if ps == [] then acc else Added(acc[ps[0].0 := ps[0].1], ps[1..])
  }

  predicate Named(ps: seq<Labelled>) { forall i :: 0 <= i < |ps| ==> NameText(ps[i].0) }

  lemma PairsStart(ps: seq<Labelled>)
    requires Named(ps) && ps != []
    ensures Pairs(ps) != "" && NameChar(Pairs(ps)[0])
  {
    assert Pair(ps[0])[0] == ps[0].0[0];
  }

  /** What was written between the braces is read back pair by pair. */
  lemma {:induction false} PairsParse(ps: seq<Labelled>, acc: Labels)
    requires Named(ps)
    ensures ParsePairs(Pairs(ps), acc) == Some(Added(acc, ps))
    decreases |ps|
  {
    if ps != [] {
      var acc1 := acc[ps[0].0 := ps[0].1];
      PairsParse(ps[1..], acc1);
      if |ps| == 1 {
        PairParses(ps[0], "", acc);
        assert Pair(ps[0]) + "" == Pair(ps[0]) && ps[1..] == [];
      } else {
        PairsStart(ps[1..]);
        FirstPair(ps[0], Pairs(ps[1..]), acc);
      }
    }
  }

  lemma FirstPair(p: Labelled, more: string, acc: Labels)
    requires NameText(p.0) && more != "" && NameChar(more[0])
    ensures ParsePairs(Pair(p) + "," + more, acc) == ParsePairs(more, acc[p.0 := p.1])
  {
    PairParses(p, "," + more, acc);
    assert Pair(p) + "," + more == Pair(p) + ("," + more);
    assert ("," + more)[1..] == more;
    assert TrimLeft(more, SEPARATORS) == more;
  }

  lemma LabelsParse(ps: seq<Labelled>)
    requires Named(ps) && ps != []
    ensures ParseLabels(Pairs(ps)) == Some(Added(map[], ps))
  {
    PairsStart(ps);
    NotBlank(Pairs(ps));
    PairsParse(ps, map[]);
  }

  // ---------------------------------------------------------------- lines

  /** A line that reads back: its names are names and its number is a number. */
  ghost predicate Readable<F>(n: Numerals<F>, line: Line) {
    && NameText(line.name)
    && (line.Reading? ==> Named(line.labels) && AllPlain(line.number) && n.parse(line.number).Some?)
  }

  ghost function Back<F>(n: Numerals<F>, line: Line): (r: Outcome<F>)
    requires Readable(n, line)
  {
    if line.Reading? then Got(Sample(line.name, Added(map[], line.labels), n.parse(line.number).value)) else Skipped
  }

  lemma BareLine<F>(n: Numerals<F>, name: string, number: string)
    requires NameText(name) && AllPlain(number) && n.parse(number).Some?
    ensures ParseSampleLine(n, name + " " + number) == Some(Sample(name, map[], n.parse(number).value))
  {
    var line := name + " " + number;
    NoIndex(line, '{');
    TwoFields(name, number);
    NumberTrimmed(number);
    NameTrimmed(name);
  }

  lemma BracedLine<F>(n: Numerals<F>, name: string, ps: seq<Labelled>, number: string)
    requires NameText(name) && Named(ps) && ps != [] && AllPlain(number) && n.parse(number).Some?
    ensures ParseSampleLine(n, name + ("{" + Pairs(ps) + "}") + " " + number)
            == Some(Sample(name, Added(map[], ps), n.parse(number).value))
  {
    LabelsParse(ps);
    Braces(name, Pairs(ps), number);
    TakenApart(n, name + ("{" + Pairs(ps) + "}") + " " + number, name, Pairs(ps), number);
  }

  lemma TakenApart<F>(n: Numerals<F>, line: string, name: string, body: string, number: string)
    requires NameText(name) && AllPlain(number) && n.parse(number).Some? && ParseLabels(body).Some?
    requires Braced(line, name, body, number)
    ensures ParseSampleLine(n, line) == Some(Sample(name, ParseLabels(body).value, n.parse(number).value))
  {
    NumberTrimmed(number);
    NameTrimmed(name);
  }

  ghost predicate Braced(line: string, name: string, body: string, number: string) {
    var brace, close := Index(line, "{"), LastIndex(line, '}');
    && 0 <= brace < close < |line|
    && line[..brace] == name && line[brace + 1..close] == body && line[close + 1..] == " " + number
  }

  /** The braces are found, whatever stands between them. */
  lemma Braces(name: string, body: string, number: string)
    requires NameText(name) && AllPlain(number)
    ensures Braced(name + ("{" + body + "}") + " " + number, name, body, number)
  {
    NoBraces(name, number);
    BracedShape(name, body, number);
    BracesFound(name + ("{" + body + "}") + " " + number, name, body, number, " " + number);
  }

  lemma NoBraces(name: string, number: string)
    requires NameText(name) && AllPlain(number)
    ensures Without(name, '{') && Without(" " + number, '}')
  {
  }

  lemma BracesFound(line: string, name: string, body: string, number: string, rest: string)
    requires Without(name, '{') && Without(rest, '}') && rest == " " + number
    requires line == name + "{" + (body + "}" + rest) && line == (name + "{" + body) + "}" + rest
    ensures Braced(line, name, body, number)
  {
    IndexOfChar(name, '{', body + "}" + rest);
    LastIndexOf(name + "{" + body, '}', rest);
    BraceSlices(name, body, rest);
  }

  lemma BraceSlices(name: string, body: string, rest: string)
    ensures var line := (name + "{" + body) + "}" + rest;
      var brace, close := |name|, |name| + 1 + |body|;
      line[..brace] == name && line[brace + 1..close] == body && line[close + 1..] == rest
  {
  }

  lemma BracedShape(name: string, body: string, number: string)
    ensures name + ("{" + body + "}") + " " + number == name + "{" + (body + "}" + (" " + number))
    ensures name + ("{" + body + "}") + " " + number == (name + "{" + body) + "}" + (" " + number)
  {
  }

  lemma ReadingReads<F>(n: Numerals<F>, line: Line)
    requires Readable(n, line) && line.Reading?
    ensures ParseSampleLine(n, TextOf(line)) == Some(Back(n, line).sample)
  {
    if line.labels == [] {
      assert line.name + "" == line.name;
      BareLine(n, line.name, line.number);
    } else {
      BracedLine(n, line.name, line.labels, line.number);
    }
  }

  /** A line that fits is read back as what it says; one that does not is an error. */
  lemma LineReads<F>(n: Numerals<F>, line: Line)
    requires Readable(n, line)
    ensures ReadLine(n, TextOf(line)) == if |TextOf(line)| < MAX_LINE then Back(n, line) else Bad
  {
    if line.Reading? {
      ReadingReads(n, line);
      ReadingEnds(line.name, LabelText(line.labels), line.number);
      SampleText(n, TextOf(line));
    } else {
      RemarkText(n, line);
    }
  }

  lemma RemarkText<F>(n: Numerals<F>, line: Line)
    requires !line.Reading?
    ensures ReadLine(n, TextOf(line)) == if |TextOf(line)| < MAX_LINE then Skipped else Bad
  {
    var text := TextOf(line);
    assert text[0] == '#' && text[1] == ' ';
    assert DropCR(text)[0] == '#';
  }

  lemma ReadingEnds(name: string, labels: string, number: string)
    requires NameText(name) && AllPlain(number)
    ensures var text := name + labels + " " + number; text[0] != '#' && text[|text| - 1] != '\r'
  {
    var text := name + labels + " " + number;
    assert text[0] == name[0] && NameChar(name[0]);
    assert text[|text| - 1] == number[|number| - 1];
  }

  lemma SampleText<F>(n: Numerals<F>, text: string)
    requires text != "" && text[0] != '#' && text[|text| - 1] != '\r' && ParseSampleLine(n, text).Some?
    ensures ReadLine(n, text) == if |text| < MAX_LINE then Got(ParseSampleLine(n, text).value) else Bad
  {
  }

  lemma {:induction false} PairsOnOneLine(ps: seq<Labelled>)
    requires Named(ps)
    ensures Without(Pairs(ps), '\n')
  {
    if ps != [] {
      EscapedOnOneLine(ps[0].1);
      PairsOnOneLine(ps[1..]);
    }
  }

  lemma OnOneLine<F>(n: Numerals<F>, line: Line)
    requires Readable(n, line)
    ensures Without(TextOf(line), '\n')
  {
    match line
    case Help(name, help) =>
      EscapedOnOneLine(help);
      Joined("# HELP ", name, " ", EscapeHelp(help));
    case Type(name, kind) => Joined("# TYPE ", name, " ", KindName(kind));
    case Reading(name, labels, number) =>
      PairsOnOneLine(labels);
      Joined(name, LabelText(labels), " ", number);
  }

  lemma Joined(a: string, b: string, c: string, d: string)
    requires Without(a, '\n') && Without(b, '\n') && Without(c, '\n') && Without(d, '\n')
    ensures Without(a + b + c + d, '\n')
  {
  }

  // ---------------------------------------------------------------- texts of lines

  lemma FirstLine(a: string, t: string)
    requires Without(a, '\n')
    ensures Lines(a + "\n" + t) == [a] + Lines(t)
  {
    var s := a + "\n" + t;
    IndexOfChar(a, '\n', t);
    assert s[..|a|] == a && s[|a| + 1..] == t;
  }

  lemma {:induction false} UnlinesHead(lines: seq<Line>)
    requires lines != []
    ensures Unlines(lines) == TextOf(lines[0]) + "\n" + Unlines(lines[1..])
    decreases |lines|
  {
    var first := TextOf(lines[0]);
    if |lines| == 1 {
      Ends(lines);
      assert lines[..0] == [] && lines[1..] == [];
      UnlinesOne([], lines[0]);
      Regrouped("", first, "\n", "");
    } else {
      var front, last := lines[..|lines| - 1], lines[|lines| - 1];
      UnlinesHead(front);
      Ends(lines);
      UnlinesOne(front, last);
      UnlinesOne(front[1..], last);
      Regrouped(first + "\n", Unlines(front[1..]), TextOf(last), "\n");
    }
  }

  lemma Regrouped(a: string, b: string, c: string, d: string)
    ensures (a + b) + c + d == a + (b + c + d)
    ensures a == "" && d == "" ==> a + b + c == b + c + d
  {
  }

  ghost function Texts(lines: seq<Line>): (r: seq<string>)
    ensures |r| == |lines| && forall i :: 0 <= i < |r| ==> r[i] == TextOf(lines[i])
  {
    seq(|lines|, i requires 0 <= i < |lines| => TextOf(lines[i]))
  }

  ghost predicate AllReadable<F>(n: Numerals<F>, lines: seq<Line>) {
    forall i :: 0 <= i < |lines| ==> Readable(n, lines[i])
  }

  lemma {:induction false} LinesBack<F>(n: Numerals<F>, lines: seq<Line>)
    requires AllReadable(n, lines)
    ensures Lines(Unlines(lines)) == Texts(lines)
    decreases |lines|
  {
    if lines != [] {
      UnlinesHead(lines);
      OnOneLine(n, lines[0]);
      FirstLine(TextOf(lines[0]), Unlines(lines[1..]));
      LinesBack(n, lines[1..]);
      TextsHead(lines);
    }
  }

  lemma TextsHead(lines: seq<Line>)
    requires lines != []
    ensures Texts(lines) == [TextOf(lines[0])] + Texts(lines[1..])
  {
  }

  /** The samples that lines say. */
  ghost function Said<F>(n: Numerals<F>, lines: seq<Line>): (r: seq<Sample<F>>)
    requires AllReadable(n, lines)
    decreases |lines|
  {
    if lines == [] then []
    else
      var k := |lines| - 1;
      Said(n, lines[..k]) + (if lines[k].Reading? then [Back(n, lines[k]).sample] else [])
  }

  ghost predicate Fit(lines: seq<Line>) { forall i :: 0 <= i < |lines| ==> |TextOf(lines[i])| < MAX_LINE }

  lemma {:induction false} FittingLinesRead<F>(n: Numerals<F>, lines: seq<Line>, outcomes: seq<Outcome<F>>, i: nat)
    requires AllReadable(n, lines) && i <= |lines| == |outcomes|
    requires forall j :: 0 <= j < i ==> outcomes[j] == Back(n, lines[j])
    ensures Collected(outcomes, i) == Some(Said(n, lines[..i]))
  {
    if i > 0 {
      FittingLinesRead(n, lines, outcomes, i - 1);
      var front := lines[..i];
      assert front[..i - 1] == lines[..i - 1] && front[i - 1] == lines[i - 1];
      assert Said(n, front[..i - 1]) + [] == Said(n, front[..i - 1]);
    }
  }

  lemma OutcomeAt<F>(n: Numerals<F>, lines: seq<Line>, i: nat)
    requires AllReadable(n, lines) && i < |lines|
    ensures ReadLines(n, Texts(lines))[i] == if |TextOf(lines[i])| < MAX_LINE then Back(n, lines[i]) else Bad
  {
    LineReads(n, lines[i]);
  }

  lemma OneBad<F>(outcomes: seq<Outcome<F>>, i: nat)
    requires i < |outcomes| && outcomes[i] == Bad
    ensures Collected(outcomes, |outcomes|) == None
  {
    assert Collected(outcomes, i + 1) == None;
    BadStays(outcomes, i + 1, |outcomes|);
  }

  lemma AllBack<F>(n: Numerals<F>, lines: seq<Line>)
    requires AllReadable(n, lines) && Fit(lines)
    ensures Collected(ReadLines(n, Texts(lines)), |lines|) == Some(Said(n, lines))
  {
    var outcomes := ReadLines(n, Texts(lines));
    forall i | 0 <= i < |lines| ensures outcomes[i] == Back(n, lines[i]) {
      OutcomeAt(n, lines, i);
    }
    FittingLinesRead(n, lines, outcomes, |lines|);
    assert lines[..|lines|] == lines;
  }

  /** A written text is read back line by line, or not at all. */
  lemma TextReads<F>(n: Numerals<F>, lines: seq<Line>)
    requires AllReadable(n, lines)
    ensures Parsed(n, Unlines(lines)) == if Fit(lines) then Some(Said(n, lines)) else None
  {
    LinesBack(n, lines);
    if Fit(lines) {
      AllBack(n, lines);
    } else {
      var i :| 0 <= i < |lines| && |TextOf(lines[i])| >= MAX_LINE;
      OutcomeAt(n, lines, i);
      OneBad(ReadLines(n, Texts(lines)), i);
    }
  }

  // ---------------------------------------------------------------- the lines of a registry

  /** The lines can be read and say these samples. */
  ghost predicate Say<F>(n: Numerals<F>, lines: seq<Line>, samples: seq<Sample<F>>) {
    AllReadable(n, lines) && Said(n, lines) == samples
  }

  lemma {:induction false} SayBoth<F>(n: Numerals<F>, a: seq<Line>, x: seq<Sample<F>>, b: seq<Line>, y: seq<Sample<F>>)
    requires Say(n, a, x) && Say(n, b, y)
    ensures Say(n, a + b, x + y)
    decreases |b|
  {
    if b == [] {
      assert a + b == a && x + y == x;
    } else {
      var k := |b| - 1;
      SayBoth(n, a, x, b[..k], Said(n, b[..k]));
      assert (a + b)[..|a| + k] == a + b[..k];
      var more := if b[k].Reading? then [Back(n, b[k]).sample] else [];
      Assoc(x, Said(n, b[..k]), more);
    }
  }

  lemma SayOne<F>(n: Numerals<F>, line: Line)
    requires Readable(n, line)
    ensures Say(n, [line], if line.Reading? then [Back(n, line).sample] else [])
  {
    assert [line][..0] == [];
    assert Said(n, [line][..0]) == [];
    var more := if line.Reading? then [Back(n, line).sample] else [];
    assert [] + more == more;
  }

  lemma {:induction false} AddedAppend(acc: Labels, a: seq<Labelled>, b: seq<Labelled>)
    ensures Added(acc, a + b) == Added(Added(acc, a), b)
    decreases |a|
  {
    if a == [] {
      assert a + b == b;
    } else {
      assert (a + b)[1..] == a[1..] + b;
      AddedAppend(acc[a[0].0 := a[0].1], a[1..], b);
    }
  }

  lemma AddedOne(acc: Labels, p: Labelled)
    ensures Added(acc, [p]) == acc[p.0 := p.1]
  {
    assert [p][1..] == [];
  }

  lemma {:induction false} AddedPicked(labels: Labels, names: seq<string>)
    requires forall i :: 0 <= i < |names| ==> names[i] in labels
    ensures var r := Added(map[], Picked(labels, names));
      (forall k :: k in r <==> k in names) && (forall k :: k in r ==> r[k] == labels[k])
  {
    if names != [] {
      var front, last := names[..|names| - 1], names[|names| - 1];
      AddedPicked(labels, front);
      AddedAppend(map[], Picked(labels, front), [(last, labels[last])]);
      AddedOne(Added(map[], Picked(labels, front)), (last, labels[last]));
      assert names == front + [last];
    }
  }

  lemma {:induction false} PickedNamed(labels: Labels, names: seq<string>)
    requires forall i :: 0 <= i < |names| ==> names[i] in labels && ValidLabelName(names[i])
    ensures Named(Picked(labels, names))
  {
    if names != [] { PickedNamed(labels, names[..|names| - 1]); }
  }

  lemma WrittenReads(labels: Labels)
    ensures Named(Written(labels, [])) && Added(map[], Written(labels, [])) == Valid(labels)
  {
    var names := Ascending(Valid(labels).Keys);
    AscendingLists(Valid(labels).Keys);
    AddedPicked(labels, names);
    PickedNamed(labels, names);
    assert Written(labels, []) == Picked(labels, names);
  }

  /** The bucket's bound stands last, so it is the `le` that is read back even when the
      series has a label of that name. */
  lemma WrittenWithBound(labels: Labels, bound: string)
    ensures Named(Written(labels, Le(bound)))
    ensures Added(map[], Written(labels, Le(bound))) == Valid(labels)["le" := bound]
  {
    WrittenReads(labels);
    var ps := Written(labels, []);
    Assoc(Picked(labels, Ascending(Valid(labels).Keys)), [], Le(bound));
    assert [] + Le(bound) == Le(bound);
    AddedLast(ps, ("le", bound));
  }

  lemma AddedLast(ps: seq<Labelled>, p: Labelled)
    requires Named(ps) && NameText(p.0)
    ensures Named(ps + [p]) && Added(map[], ps + [p]) == Added(map[], ps)[p.0 := p.1]
  {
    AddedAppend(map[], ps, [p]);
    AddedOne(Added(map[], ps), p);
  }

  lemma SayReading<F>(n: Numerals<F>, name: string, labels: Labels, number: string, v: F)
    requires NameText(name) && AllPlain(number) && n.parse(number) == Some(v)
    ensures Say(n, [Reading(name, Written(labels, []), number)], [Sample(name, Valid(labels), v)])
  {
    WrittenReads(labels);
    SayOne(n, Reading(name, Written(labels, []), number));
  }

  lemma SayBound<F>(n: Numerals<F>, name: string, labels: Labels, bound: string, number: string, v: F)
    requires NameText(name) && AllPlain(number) && n.parse(number) == Some(v)
    ensures Say(n, [Reading(name, Written(labels, Le(bound)), number)], [Sample(name, Valid(labels)["le" := bound], v)])
  {
    WrittenWithBound(labels, bound);
    SayOne(n, Reading(name, Written(labels, Le(bound)), number));
  }

  lemma {:induction false} SayBuckets<F(!new)>(n: Numerals<F>, name: string, s: Series<F>, i: nat)
    requires Faithful(n) && NameText(name) && s.Buckets? && i <= |s.buckets|
    ensures Say(n, BucketLines(n, name, s, i), BucketSamples(n, name, s, i))
  {
    if i > 0 {
      SayBuckets(n, name, s, i - 1);
      var b := s.buckets[i - 1];
      var line := BucketLine(n, name, s, i - 1);
      var sample := Sample(name, Valid(s.labels)["le" := n.format(b.bound)], n.ofCount(b.count));
      SayBound(n, name, s.labels, n.format(b.bound), n.digits(b.count), n.ofCount(b.count));
      SayBoth(n, BucketLines(n, name, s, i - 1), BucketSamples(n, name, s, i - 1), [line], [sample]);
    }
  }

  lemma SayTotals<F(!new)>(n: Numerals<F>, name: string, s: Series<F>)
    requires Faithful(n) && NameText(name) && s.Buckets?
    ensures Say(n, TotalLines(n, name, s),
                [Sample(name + "_bucket", Valid(s.labels)["le" := "+Inf"], n.ofCount(s.count)),
                 Sample(name + "_sum", Valid(s.labels), s.sum), Sample(name + "_count", Valid(s.labels), n.ofCount(s.count))])
  {
    Suffixed(name);
    SayTotalsOf(n, name + "_bucket", name + "_sum", name + "_count", s);
  }

  lemma Suffixed(name: string)
    requires NameText(name)
    ensures NameText(name + "_bucket") && NameText(name + "_sum") && NameText(name + "_count")
  {
  }

  lemma SayTotalsOf<F(!new)>(n: Numerals<F>, a: string, b: string, c: string, s: Series<F>)
    requires Faithful(n) && NameText(a) && NameText(b) && NameText(c) && s.Buckets?
    ensures Say(n, [Reading(a, Written(s.labels, Le("+Inf")), n.digits(s.count)),
                    Reading(b, Written(s.labels, []), n.format(s.sum)), Reading(c, Written(s.labels, []), n.digits(s.count))],
                [Sample(a, Valid(s.labels)["le" := "+Inf"], n.ofCount(s.count)),
                 Sample(b, Valid(s.labels), s.sum), Sample(c, Valid(s.labels), n.ofCount(s.count))])
  {
    SayBound(n, a, s.labels, "+Inf", n.digits(s.count), n.ofCount(s.count));
    SayReading(n, b, s.labels, n.format(s.sum), s.sum);
    SayReading(n, c, s.labels, n.digits(s.count), n.ofCount(s.count));
    SayThree(n, Reading(a, Written(s.labels, Le("+Inf")), n.digits(s.count)),
             Sample(a, Valid(s.labels)["le" := "+Inf"], n.ofCount(s.count)),
             Reading(b, Written(s.labels, []), n.format(s.sum)), Sample(b, Valid(s.labels), s.sum),
             Reading(c, Written(s.labels, []), n.digits(s.count)), Sample(c, Valid(s.labels), n.ofCount(s.count)));
  }

  lemma SayThree<F>(n: Numerals<F>, a: Line, x: Sample<F>, b: Line, y: Sample<F>, c: Line, z: Sample<F>)
    requires Say(n, [a], [x]) && Say(n, [b], [y]) && Say(n, [c], [z])
    ensures Say(n, [a, b, c], [x, y, z])
  {
    SayBoth(n, [a], [x], [b], [y]);
    SayBoth(n, [a] + [b], [x] + [y], [c], [z]);
    assert [a] + [b] + [c] == [a, b, c] && [x] + [y] + [z] == [x, y, z];
  }

  lemma SaySeries<F(!new)>(n: Numerals<F>, name: string, s: Series<F>)
    requires Faithful(n) && NameText(name)
    ensures Say(n, SeriesLines(n, name, s), SeriesSamples(n, name, s))
  {
    match s
    case Scalar(labels, value) => SayReading(n, name, labels, n.format(value), value);
    case Buckets(labels, buckets, sum, count) =>
      var bucket := name + "_bucket";
      SayBuckets(n, bucket, s, |buckets|);
      SayTotals(n, name, s);
      SayBoth(n, BucketLines(n, bucket, s, |buckets|), BucketSamples(n, bucket, s, |buckets|), TotalLines(n, name, s),
              [Sample(name + "_bucket", Valid(labels)["le" := "+Inf"], n.ofCount(count)),
               Sample(name + "_sum", Valid(labels), sum), Sample(name + "_count", Valid(labels), n.ofCount(count))]);
  }

  lemma {:induction false} SayEntries<F(!new)>(n: Numerals<F>, f: Family<F>, keys: seq<string>, i: nat)
    requires Faithful(n) && NameText(f.name)
    requires i <= |keys| && forall j :: 0 <= j < |keys| ==> keys[j] in f.entries
    ensures Say(n, EntryLines(n, f, keys, i), EntrySamples(n, f, keys, i))
  {
    if i > 0 {
      var s := f.entries[keys[i - 1]];
      SayEntries(n, f, keys, i - 1);
      SayNext(n, EntryLines(n, f, keys, i - 1), EntrySamples(n, f, keys, i - 1), f.name, s);
    }
  }

  lemma SayNext<F(!new)>(n: Numerals<F>, lines: seq<Line>, samples: seq<Sample<F>>, name: string, s: Series<F>)
    requires Faithful(n) && NameText(name) && Say(n, lines, samples)
    ensures Say(n, lines + SeriesLines(n, name, s), samples + SeriesSamples(n, name, s))
  {
    SaySeries(n, name, s);
    SayBoth(n, lines, samples, SeriesLines(n, name, s), SeriesSamples(n, name, s));
  }

  lemma SayHead<F>(n: Numerals<F>, f: Family<F>)
    requires NameText(f.name)
    ensures Say(n, HeadLines(f), [])
  {
    var help, kind := Help(f.name, f.help), Type(f.name, f.kind);
    SayOne(n, help);
    SayOne(n, kind);
    SayBoth(n, [help], [], [kind], []);
    assert [] + [kind] == [kind];
  }

  lemma SayFamily<F(!new)>(n: Numerals<F>, f: Family<F>)
    requires Faithful(n)
    ensures Say(n, FamilyLines(n, f), FamilySamples(n, f))
  {
    if ValidMetricName(f.name) {
      var keys := Ascending(f.entries.Keys);
      SayHead(n, f);
      SayEntries(n, f, keys, |keys|);
      SayBoth(n, HeadLines(f), [], AllEntryLines(n, f), EntrySamples(n, f, keys, |keys|));
    }
  }

  lemma {:induction false} SayFamilies<F(!new)>(n: Numerals<F>, fams: seq<Family<F>>, i: nat)
    requires Faithful(n) && i <= |fams|
    ensures Say(n, LinesOf(n, fams, i), SamplesUpTo(n, fams, i))
  {
    if i > 0 {
      SayFamilies(n, fams, i - 1);
      SayFamily(n, fams[i - 1]);
      SayBoth(n, LinesOf(n, fams, i - 1), SamplesUpTo(n, fams, i - 1), FamilyLines(n, fams[i - 1]), FamilySamples(n, fams[i - 1]));
    }
  }

  /** Parsing what Render writes gives the registry's samples, all of them and in
      order, exactly when no line reaches the scanner's limit; otherwise the parse fails. */
  lemma ParseInvertsRender<F(!new)>(n: Numerals<F>, fs: Families<F>)
    requires Faithful(n)
    ensures Parsed(n, Unlines(Rendered(n, fs))) == if Fit(Rendered(n, fs)) then Some(Samples(n, fs)) else None
  {
    SayFamilies(n, InOrder(fs), |InOrder(fs)|);
    TextReads(n, Rendered(n, fs));
  }
}
