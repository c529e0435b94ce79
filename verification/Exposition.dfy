/**
 The metrics text exposition: how common/metrics/exposition.go writes a registry.
 The writers append to a builder in loops; each is proved to append exactly the
 text that the functions of this module describe.
 */
module Exposition {
  import opened ByteOrder
  import opened Options
  import opened Text
  import opened WhiteSpace

  // ---------------------------------------------------------------- the registry's contents

  datatype Kind = Counter | Gauge | Histogram

  type Labels = map<string, string>

  /** One labelled series: a number, or a distribution with cumulative counts. */
  datatype Series<F> =
    | Scalar(labels: Labels, value: F)
    | Buckets(labels: Labels, buckets: seq<Bucket<F>>, sum: F, count: nat)

  datatype Bucket<F> = Bucket(bound: F, count: nat)

  /** The series of one metric name, by label key. */
  datatype Family<F> = Family(name: string, kind: Kind, help: string, entries: map<string, Series<F>>)

  /** A family holds series of its own kind. */
  ghost predicate WellKept<F(!new)>(f: Family<F>) {
    forall k :: k in f.entries ==> f.entries[k].Buckets? == f.kind.Histogram?
  }

  /** A registry's families, by name. */
  type Families<F> = map<string, Family<F>>

  ghost predicate AllKept<F(!new)>(fs: Families<F>) {
    forall n :: n in fs ==> fs[n].name == n && WellKept(fs[n])
  }

  // ---------------------------------------------------------------- numbers as text

  /** strconv's number texts. `digits` writes a bucket count and `ofCount` is the
      float that text reads back as. */
  datatype Numerals<!F> = Numerals(format: F -> string, parse: string -> Option<F>, digits: nat -> string, ofCount: nat -> F)

  /** A character a number is written with: ASCII, and no space, brace or hash. */
  predicate Plain(c: char) { Solid(c) && c != '{' && c != '}' && c != '#' }

  predicate AllPlain(s: string) { s != "" && forall i :: 0 <= i < |s| ==> Plain(s[i]) }

  /** Numbers read back as they were written. */
  ghost predicate Faithful<F(!new)>(n: Numerals<F>) {
    && (forall v: F :: n.parse(n.format(v)) == Some(v) && AllPlain(n.format(v)))
    && (forall k: nat :: n.parse(n.digits(k)) == Some(n.ofCount(k)) && AllPlain(n.digits(k)))
  }

  // ---------------------------------------------------------------- names and escapes

  predicate Letter(c: char) { 'a' <= c <= 'z' || 'A' <= c <= 'Z' || c == '_' }
  predicate Digit(c: char) { '0' <= c <= '9' }

  predicate ValidMetricName(s: string) {
    s != "" && forall i :: 0 <= i < |s| ==> Letter(s[i]) || s[i] == ':' || (Digit(s[i]) && i > 0)
  }

  predicate ValidLabelName(s: string) {
    s != "" && forall i :: 0 <= i < |s| ==> Letter(s[i]) || (Digit(s[i]) && i > 0)
  }

  function EscapedChar(c: char): (r: string)
    ensures r != ""
  {
    if c == '\\' then "\\\\" else if c == '"' then "\\\"" else if c == '\n' then "\\n" else [c]
  }

  function EscapeLabelValue(s: string): (r: string) {
    if s == "" then "" else EscapedChar(s[0]) + EscapeLabelValue(s[1..])
  }

  function EscapeHelp(s: string): (r: string) {
    if s == "" then ""
    else (if s[0] == '"' then "\"" else EscapedChar(s[0])) + EscapeHelp(s[1..])
  }

  // ---------------------------------------------------------------- the text of a label set

  type Labelled = (string, string)

  function Pair(p: Labelled): (r: string) { p.0 + "=\"" + EscapeLabelValue(p.1) + "\"" }

  /** Pairs separated by commas. */
  function Pairs(ps: seq<Labelled>): (r: string) {
    if ps == [] then ""
    else if |ps| == 1 then Pair(ps[0])
    else Pair(ps[0]) + "," + Pairs(ps[1..])
  }

  function LabelText(ps: seq<Labelled>): (r: string) {
    if ps == [] then "" else "{" + Pairs(ps) + "}"
  }

  /** The labels a text exposition can carry. */
  function Valid(labels: Labels): (r: Labels) { map k | k in labels && ValidLabelName(k) :: labels[k] }

  /** The pairs of the given names, in their order. */
  function Picked(labels: Labels, names: seq<string>): (r: seq<Labelled>)
    requires forall i :: 0 <= i < |names| ==> names[i] in labels
  {
    if names == [] then [] else Picked(labels, names[..|names| - 1]) + [(names[|names| - 1], labels[names[|names| - 1]])]
  }

  /** The pairs written for a label set: the valid ones by name, then the extra ones. */
  ghost function Written(labels: Labels, extra: seq<Labelled>): (r: seq<Labelled>) {
    Picked(labels, Ascending(Valid(labels).Keys)) + extra
  }

  // ---------------------------------------------------------------- the lines of a registry

  /** A line: a family's help or type, or one reading of a series. */
  datatype Line = Help(name: string, help: string) | Type(name: string, kind: Kind) | Reading(name: string, labels: seq<Labelled>, number: string)

  function TextOf(line: Line): (r: string) {
    match line
    case Help(name, help) => "# HELP " + name + " " + EscapeHelp(help)
    case Type(name, kind) => "# TYPE " + name + " " + KindName(kind)
    case Reading(name, labels, number) => name + LabelText(labels) + " " + number
  }

  function Le(bound: string): seq<Labelled> { [("le", bound)] }

  ghost function BucketLine<F>(n: Numerals<F>, bucket: string, s: Series<F>, i: nat): (r: Line)
    requires s.Buckets? && i < |s.buckets|
  {
    Reading(bucket, Written(s.labels, Le(n.format(s.buckets[i].bound))), n.digits(s.buckets[i].count))
  }

  ghost function BucketLines<F>(n: Numerals<F>, bucket: string, s: Series<F>, i: nat): (r: seq<Line>)
    requires s.Buckets? && i <= |s.buckets|
  {
    if i == 0 then [] else BucketLines(n, bucket, s, i - 1) + [BucketLine(n, bucket, s, i - 1)]
  }

  ghost function SeriesLines<F>(n: Numerals<F>, name: string, s: Series<F>): (r: seq<Line>)
  {
    match s
    case Scalar(labels, value) => [Reading(name, Written(labels, []), n.format(value))]
    case Buckets(_, buckets, _, _) =>
      BucketLines(n, name + "_bucket", s, |buckets|) + TotalLines(n, name, s)
  }

  ghost function TotalLines<F>(n: Numerals<F>, name: string, s: Series<F>): (r: seq<Line>)
    requires s.Buckets?
  {
    [Reading(name + "_bucket", Written(s.labels, Le("+Inf")), n.digits(s.count)),
     Reading(name + "_sum", Written(s.labels, []), n.format(s.sum)),
     Reading(name + "_count", Written(s.labels, []), n.digits(s.count))]
  }

  function KindName(k: Kind): (r: string) {
    match k case Counter => "counter" case Gauge => "gauge" case Histogram => "histogram"
  }

  function HeadLines<F>(f: Family<F>): (r: seq<Line>) {
    (if f.help != "" then [Help(f.name, f.help)] else [])
    + [Type(f.name, f.kind)]
  }

  /** The lines of the first `i` series. */
  ghost function EntryLines<F(!new)>(n: Numerals<F>, f: Family<F>, keys: seq<string>, i: nat): (r: seq<Line>)
    requires i <= |keys| && forall j :: 0 <= j < |keys| ==> keys[j] in f.entries
  {
    if i == 0 then [] else EntryLines(n, f, keys, i - 1) + SeriesLines(n, f.name, f.entries[keys[i - 1]])
  }

  ghost function AllEntryLines<F(!new)>(n: Numerals<F>, f: Family<F>): (r: seq<Line>)
  {
    var keys := Ascending(f.entries.Keys);
    EntryLines(n, f, keys, |keys|)
  }

  ghost function FamilyLines<F(!new)>(n: Numerals<F>, f: Family<F>): (r: seq<Line>)
  {
    if !ValidMetricName(f.name) then [] else HeadLines(f) + AllEntryLines(n, f)
  }

  /** The lines of the first `i` families. */
  ghost function LinesOf<F(!new)>(n: Numerals<F>, fams: seq<Family<F>>, i: nat): (r: seq<Line>)
    requires i <= |fams|
  {
    if i == 0 then [] else LinesOf(n, fams, i - 1) + FamilyLines(n, fams[i - 1])
  }

  /** A registry's families by name. */
  ghost function InOrder<F(!new)>(fs: Families<F>): (r: seq<Family<F>>)
    ensures |r| == |Ascending(fs.Keys)|
    ensures forall i :: 0 <= i < |r| ==> r[i] == fs[Ascending(fs.Keys)[i]]
  {
    var names := Ascending(fs.Keys);
    seq(|names|, i requires 0 <= i < |names| => fs[names[i]])
  }

  /** Every line, each ended by a newline. */
  function Unlines(lines: seq<Line>): (r: string) {
    if lines == [] then "" else Unlines(lines[..|lines| - 1]) + TextOf(lines[|lines| - 1]) + "\n"
  }

  /** The exposition of a registry. */
  ghost function Rendered<F(!new)>(n: Numerals<F>, fs: Families<F>): (r: seq<Line>)
  {
    LinesOf(n, InOrder(fs), |InOrder(fs)|)
  }

  // ---------------------------------------------------------------- the built-in readings

  /** What collectRuntime reads off the process; conflicts only once there are some. */
  datatype Readings<F> = Readings(goroutines: F, heap: F, conflicts: Option<F>)

  const GOROUTINES := "go_goroutines"
  const HEAP := "go_memstats_heap_alloc_bytes"
  const CONFLICTS := "aisw_metric_conflicts_total"

  const GOROUTINES_HELP := "Goroutines currently existing in this process."
  const HEAP_HELP := "Heap bytes currently allocated and in use."
  const CONFLICTS_HELP := "Recording calls refused because the metric name is bound to another instrument kind."

  /** Setting the one unlabelled series of a name, whose label key is empty; a name bound
      to another kind is left alone. */
  function SetScalar<F>(fs: Families<F>, name: string, kind: Kind, help: string, v: F): (r: Families<F>) {
    if name in fs && fs[name].kind != kind then fs
    else
      var f := if name in fs then fs[name] else Family(name, kind, help, map[]);
      fs[name := f.(entries := f.entries["" := Scalar(map[], v)])]
  }

  function Refreshed<F>(fs: Families<F>, now: Readings<F>): (r: Families<F>) {
    var a := SetScalar(fs, GOROUTINES, Gauge, GOROUTINES_HELP, now.goroutines);
    var b := SetScalar(a, HEAP, Gauge, HEAP_HELP, now.heap);
    if now.conflicts.Some? then SetScalar(b, CONFLICTS, Counter, CONFLICTS_HELP, now.conflicts.value) else b
  }

  lemma SetScalarSpec<F(!new)>(fs: Families<F>, name: string, kind: Kind, help: string, v: F)
    requires AllKept(fs) && !kind.Histogram?
    ensures var r := SetScalar(fs, name, kind, help, v);
      && AllKept(r)
      && (name !in fs || fs[name].kind == kind ==> name in r && r[name].kind == kind && r[name].entries[""] == Scalar(map[], v))
      && (forall n :: n in fs ==> n in r && r[n].kind == fs[n].kind)
      && (forall n :: n != name ==> (n in r <==> n in fs) && (n in fs ==> r[n] == fs[n]))
      && (forall k :: name in fs && k in fs[name].entries && k != "" ==> k in r[name].entries && r[name].entries[k] == fs[name].entries[k])
  {
  }

  /** A scrape shows the readings of its own moment, and changes no other family. */
  lemma RefreshedSpec<F(!new)>(fs: Families<F>, now: Readings<F>)
    requires AllKept(fs)
    requires GOROUTINES in fs ==> fs[GOROUTINES].kind == Gauge
    requires HEAP in fs ==> fs[HEAP].kind == Gauge
    requires CONFLICTS in fs ==> fs[CONFLICTS].kind == Counter
    ensures var r := Refreshed(fs, now);
      && AllKept(r)
      && GOROUTINES in r && r[GOROUTINES].entries[""] == Scalar(map[], now.goroutines)
      && HEAP in r && r[HEAP].entries[""] == Scalar(map[], now.heap)
      && (now.conflicts.Some? ==> CONFLICTS in r && r[CONFLICTS].entries[""] == Scalar(map[], now.conflicts.value))
      && (forall n :: n != GOROUTINES && n != HEAP && n != CONFLICTS ==> (n in r <==> n in fs) && (n in fs ==> r[n] == fs[n]))
  {
    NamesDiffer();
    SetScalarSpec(fs, GOROUTINES, Gauge, GOROUTINES_HELP, now.goroutines);
    var a := SetScalar(fs, GOROUTINES, Gauge, GOROUTINES_HELP, now.goroutines);
    SetScalarSpec(a, HEAP, Gauge, HEAP_HELP, now.heap);
    var b := SetScalar(a, HEAP, Gauge, HEAP_HELP, now.heap);
    if now.conflicts.Some? { SetScalarSpec(b, CONFLICTS, Counter, CONFLICTS_HELP, now.conflicts.value); }
  }

  lemma NamesDiffer()
    ensures GOROUTINES != HEAP && HEAP != CONFLICTS && GOROUTINES != CONFLICTS
  {
    assert |GOROUTINES| == 13 && |HEAP| == 28 && |CONFLICTS| == 27;
  }

  lemma RefreshedIsKept<F(!new)>(fs: Families<F>, now: Readings<F>)
    requires AllKept(fs)
    ensures AllKept(Refreshed(fs, now))
  {
    SetScalarSpec(fs, GOROUTINES, Gauge, GOROUTINES_HELP, now.goroutines);
    var a := SetScalar(fs, GOROUTINES, Gauge, GOROUTINES_HELP, now.goroutines);
    SetScalarSpec(a, HEAP, Gauge, HEAP_HELP, now.heap);
    var b := SetScalar(a, HEAP, Gauge, HEAP_HELP, now.heap);
    if now.conflicts.Some? { SetScalarSpec(b, CONFLICTS, Counter, CONFLICTS_HELP, now.conflicts.value); }
  }

  lemma UnlinesOne(lines: seq<Line>, line: Line)
    ensures Unlines(lines + [line]) == Unlines(lines) + TextOf(line) + "\n"
  {
    assert (lines + [line])[..|lines|] == lines;
  }

  // ---------------------------------------------------------------- help, type and names

  /** The help text as a reader of the format takes it: two escapes, everything else as it is. */
  function UnescapeHelp(s: string): (r: string) {
    if s == "" then ""
    else if s[0] == '\\' && |s| > 1 then [if s[1] == 'n' then '\n' else s[1]] + UnescapeHelp(s[2..])
    else [s[0]] + UnescapeHelp(s[1..])
  }

  /** Every help text reads back from the line it is written on. */
  lemma {:induction false} HelpReads(s: string)
    ensures UnescapeHelp(EscapeHelp(s)) == s
    ensures forall i :: 0 <= i < |EscapeHelp(s)| ==> EscapeHelp(s)[i] != '\n'
  {
    if s != "" {
      HelpReads(s[1..]);
      var c, rest := s[0], EscapeHelp(s[1..]);
      var first := if c == '"' then "\"" else EscapedChar(c);
      assert EscapeHelp(s) == first + rest && (first + rest)[|first|..] == rest;
      assert s == [c] + s[1..];
    }
  }

  /** The two lines in front of a family. */
  lemma HeadTexts(name: string, help: string)
    ensures TextOf(Help(name, help)) == "# HELP " + name + " " + EscapeHelp(help)
    ensures TextOf(Type(name, Counter)) == "# TYPE " + name + " counter"
    ensures TextOf(Type(name, Gauge)) == "# TYPE " + name + " gauge"
    ensures TextOf(Type(name, Histogram)) == "# TYPE " + name + " histogram"
  {
  }

  /** validMetricName: a byte loop. */
  method MetricNameIsValid(name: string) returns (ok: bool)
    ensures ok == ValidMetricName(name)
  {
    if name == "" {
      return false;
    }
    for i := 0 to |name|
      invariant forall j :: 0 <= j < i ==> Letter(name[j]) || name[j] == ':' || (Digit(name[j]) && j > 0)
    {
      var c := name[i];
      if 'a' <= c <= 'z' || 'A' <= c <= 'Z' || c == '_' || c == ':' {
        continue;
      }
      if '0' <= c <= '9' && i > 0 {
        continue;
      }
      return false;
    }
    return true;
  }

  /** validLabelName: the same without the colon. */
  method LabelNameIsValid(name: string) returns (ok: bool)
    ensures ok == ValidLabelName(name)
  {
    if name == "" {
      return false;
    }
    for i := 0 to |name|
      invariant forall j :: 0 <= j < i ==> Letter(name[j]) || (Digit(name[j]) && j > 0)
    {
      var c := name[i];
      if 'a' <= c <= 'z' || 'A' <= c <= 'Z' || c == '_' {
        continue;
      }
      if '0' <= c <= '9' && i > 0 {
        continue;
      }
      return false;
    }
    return true;
  }

  // ---------------------------------------------------------------- the writers

  /** The replacer: one pass over the bytes. */
  method EscapeLabel(s: string) returns (r: string)
    ensures r == EscapeLabelValue(s)
  {
    r := "";
    assert s[0..] == s && "" + EscapeLabelValue(s) == EscapeLabelValue(s);
    for i := 0 to |s|
      invariant r + EscapeLabelValue(s[i..]) == EscapeLabelValue(s)
    {
      assert s[i..][1..] == s[i + 1..];
      assert r + (EscapedChar(s[i]) + EscapeLabelValue(s[i + 1..])) == r + EscapedChar(s[i]) + EscapeLabelValue(s[i + 1..]);
      r := r + EscapedChar(s[i]);
    }
    assert s[|s|..] == "";
  }

  lemma {:induction false} PairsSnoc(ps: seq<Labelled>, last: Labelled)
    ensures Pairs(ps + [last]) == (if ps == [] then "" else Pairs(ps) + ",") + Pair(last)
    decreases |ps|
  {
    if ps == [] {
      assert "" + Pair(last) == Pair(last);
    } else {
      PairsSnoc(ps[1..], last);
      assert (ps + [last])[1..] == ps[1..] + [last];
      if |ps| == 1 { assert ps[1..] == []; }
      Joined(Pair(ps[0]), Pairs(ps[1..]), Pair(last));
    }
  }

  lemma Joined(a: string, b: string, c: string)
    ensures a + "," + (b + "," + c) == (a + "," + b) + "," + c
  {
  }

  /** Appending one pair, after a comma unless it is the first. */
  method WritePair(b: string, ghost ps: seq<Labelled>, first: bool, p: Labelled) returns (r: string)
    requires b == Pairs(ps) && first == (ps == [])
    ensures r == Pairs(ps + [p])
  {
    PairsSnoc(ps, p);
    var v := EscapeLabel(p.1);
    r := (if first then "" else b + ",") + (p.0 + "=\"" + v + "\"");
  }

  method WritePairs(labels: Labels, keys: seq<string>) returns (r: string)
    requires forall i :: 0 <= i < |keys| ==> keys[i] in labels
    ensures r == Pairs(Picked(labels, keys))
  {
    r := "";
    for i := 0 to |keys|
      invariant r == Pairs(Picked(labels, keys[..i]))
    {
      assert keys[..i + 1][..i] == keys[..i];
      PickedCount(labels, keys[..i]);
      r := WritePair(r, Picked(labels, keys[..i]), i == 0, (keys[i], labels[keys[i]]));
    }
    assert keys[..|keys|] == keys;
  }

  method WriteLabels(b: string, labels: Labels, extra: Option<Labelled>) returns (r: string)
    ensures r == b + LabelText(Written(labels, ExtraOf(extra)))
  {
    var keys := SortedKeys(Valid(labels).Keys);
    ghost var ps := Picked(labels, keys);
    PickedCount(labels, keys);
    assert ps + [] == ps;
    if |keys| == 0 && extra.None? {
      assert b + "" == b;
      return b;
    }
    r := WritePairs(labels, keys);
    if extra.Some? {
      r := WritePair(r, ps, |keys| == 0, extra.value);
    }
    r := b + ("{" + r + "}");
  }

  function ExtraOf(extra: Option<Labelled>): (r: seq<Labelled>) {
    match extra case None => [] case Some(p) => [p]
  }

  lemma {:induction false} PickedCount(labels: Labels, names: seq<string>)
    requires forall i :: 0 <= i < |names| ==> names[i] in labels
    ensures |Picked(labels, names)| == |names|
  {
    if names != [] { PickedCount(labels, names[..|names| - 1]); }
  }

  /** Appending one sample line to a text of whole lines. */
  method WriteSample(b: string, ghost lines: seq<Line>, name: string, labels: Labels, extra: Option<Labelled>,
                     number: string) returns (r: string)
    requires b == Unlines(lines)
    ensures r == Unlines(lines + [Reading(name, Written(labels, ExtraOf(extra)), number)])
  {
    ghost var ps := Written(labels, ExtraOf(extra));
    UnlinesOne(lines, Reading(name, ps, number));
    r := WriteLabels(b + name, labels, extra);
    Grouped(b, name, LabelText(ps), number);
    r := r + " " + number + "\n";
  }

  lemma Grouped(b: string, name: string, labels: string, number: string)
    ensures b + name + labels + " " + number + "\n" == b + (name + labels + " " + number) + "\n"
  {
    assert b + name + labels == b + (name + labels);
  }

  method WriteBuckets<F>(n: Numerals<F>, b: string, ghost lines: seq<Line>, bucket: string, s: Series<F>) returns (r: string)
    requires s.Buckets? && b == Unlines(lines)
    ensures r == Unlines(lines + BucketLines(n, bucket, s, |s.buckets|))
  {
    r := b;
    assert lines + [] == lines;
    for i := 0 to |s.buckets|
      invariant r == Unlines(lines + BucketLines(n, bucket, s, i))
    {
      ghost var done := BucketLines(n, bucket, s, i);
      Assoc(lines, done, [BucketLine(n, bucket, s, i)]);
      r := WriteSample(r, lines + done, bucket, s.labels, Some(("le", n.format(s.buckets[i].bound))), n.digits(s.buckets[i].count));
    }
  }

  method WriteHistogramSeries<F>(n: Numerals<F>, b: string, ghost lines: seq<Line>, name: string, s: Series<F>) returns (r: string)
    requires s.Buckets? && b == Unlines(lines)
    ensures r == Unlines(lines + SeriesLines(n, name, s))
  {
    var bucket := name + "_bucket";
    r := WriteBuckets(n, b, lines, bucket, s);
    ghost var done := BucketLines(n, bucket, s, |s.buckets|);
    r := WriteTotals(n, r, lines + done, name, s);
    Assoc(lines, done, TotalLines(n, name, s));
  }

  method WriteTotals<F>(n: Numerals<F>, b: string, ghost lines: seq<Line>, name: string, s: Series<F>) returns (r: string)
    requires s.Buckets? && b == Unlines(lines)
    ensures r == Unlines(lines + TotalLines(n, name, s))
  {
    ghost var top := Reading(name + "_bucket", Written(s.labels, Le("+Inf")), n.digits(s.count));
    ghost var sum := Reading(name + "_sum", Written(s.labels, []), n.format(s.sum));
    ghost var count := Reading(name + "_count", Written(s.labels, []), n.digits(s.count));
    r := WriteSample(b, lines, name + "_bucket", s.labels, Some(("le", "+Inf")), n.digits(s.count));
    r := WriteSample(r, lines + [top], name + "_sum", s.labels, None, n.format(s.sum));
    r := WriteSample(r, lines + [top] + [sum], name + "_count", s.labels, None, n.digits(s.count));
    InTurn(lines, top, sum, count);
  }

  lemma InTurn<T>(s: seq<T>, a: T, b: T, c: T)
    ensures s + [a] + [b] + [c] == s + [a, b, c]
  {
  }

  method WriteHead<F>(b: string, ghost lines: seq<Line>, f: Family<F>) returns (r: string)
    requires b == Unlines(lines)
    ensures r == Unlines(lines + HeadLines(f))
  {
    r := b;
    if f.help != "" {
      UnlinesOne(lines, Help(f.name, f.help));
      r := r + ("# HELP " + f.name + " " + EscapeHelp(f.help)) + "\n";
    }
    ghost var done := if f.help != "" then lines + [Help(f.name, f.help)] else lines;
    UnlinesOne(done, Type(f.name, f.kind));
    r := r + ("# TYPE " + f.name + " " + KindName(f.kind)) + "\n";
    assert done + [Type(f.name, f.kind)] == lines + HeadLines(f);
  }

  method WriteSeries<F>(n: Numerals<F>, b: string, ghost lines: seq<Line>, name: string, kind: Kind, s: Series<F>) returns (r: string)
    requires s.Buckets? == kind.Histogram? && b == Unlines(lines)
    ensures r == Unlines(lines + SeriesLines(n, name, s))
  {
    if kind.Histogram? {
      r := WriteHistogramSeries(n, b, lines, name, s);
    } else {
      r := WriteSample(b, lines, name, s.labels, None, n.format(s.value));
    }
  }

  method WriteFamily<F(!new)>(n: Numerals<F>, b: string, ghost lines: seq<Line>, f: Family<F>) returns (r: string)
    requires WellKept(f) && ValidMetricName(f.name) && b == Unlines(lines)
    ensures r == Unlines(lines + FamilyLines(n, f))
  {
    r := WriteHead(b, lines, f);
    r := WriteEntries(n, r, lines + HeadLines(f), f);
    Assoc(lines, HeadLines(f), AllEntryLines(n, f));
  }

  method WriteEntries<F(!new)>(n: Numerals<F>, b: string, ghost lines: seq<Line>, f: Family<F>) returns (r: string)
    requires WellKept(f) && b == Unlines(lines)
    ensures r == Unlines(lines + AllEntryLines(n, f))
  {
    r := b;
    var keys := SortedKeys(f.entries.Keys);
    assert lines + [] == lines;
    for i := 0 to |keys|
      invariant r == Unlines(lines + EntryLines(n, f, keys, i))
    {
      ghost var done := EntryLines(n, f, keys, i);
      Assoc(lines, done, SeriesLines(n, f.name, f.entries[keys[i]]));
      r := WriteSeries(n, r, lines + done, f.name, f.kind, f.entries[keys[i]]);
    }
  }

  /** A family with a name the format does not allow is left out. */
  method WriteIfValid<F(!new)>(n: Numerals<F>, b: string, ghost lines: seq<Line>, f: Family<F>) returns (r: string)
    requires WellKept(f) && b == Unlines(lines)
    ensures r == Unlines(lines + FamilyLines(n, f))
  {
    assert lines + [] == lines;
    if !ValidMetricName(f.name) {
      return b;
    }
    r := WriteFamily(n, b, lines, f);
  }

  method WriteFamilies<F(!new)>(n: Numerals<F>, fams: seq<Family<F>>) returns (r: string)
    requires forall i :: 0 <= i < |fams| ==> WellKept(fams[i])
    ensures r == Unlines(LinesOf(n, fams, |fams|))
  {
    r := "";
    for i := 0 to |fams|
      invariant r == Unlines(LinesOf(n, fams, i))
    {
      r := WriteIfValid(n, r, LinesOf(n, fams, i), fams[i]);
    }
  }

  /** Refreshing the built-in series, then collecting the families, sorting them by name
      and writing them. */
  method Render<F(!new)>(n: Numerals<F>, fs: Families<F>, now: Readings<F>) returns (r: string)
    requires AllKept(fs)
    ensures r == Unlines(Rendered(n, Refreshed(fs, now)))
  {
    RefreshedIsKept(fs, now);
    var shown := Refreshed(fs, now);
    var names := SortedKeys(shown.Keys);
    var fams := seq(|names|, i requires 0 <= i < |names| => shown[names[i]]);
    assert fams == InOrder(shown);
    r := WriteFamilies(n, fams);
  }
}
