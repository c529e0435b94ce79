/**
 Reading a text exposition back: common/metrics/parse.go. The functions say what
 is read off a text; the methods are the source's loops over a moving index, and
 each is proved to compute its function.
 */
module ExpositionParser {
  import opened Exposition
  import opened Options
  import opened Text
  import opened WhiteSpace

  datatype Sample<F> = Sample(name: string, labels: Labels, value: F)

  // ---------------------------------------------------------------- strings

  /** strings.LastIndexByte. */
  function LastIndex(s: string, c: char): (r: int)
    ensures -1 <= r < |s|
  {
    if s == "" then -1 else if s[|s| - 1] == c then |s| - 1 else LastIndex(s[..|s| - 1], c)
  }

  /** The length of the word a text starts with. */
  function WordLength(s: string): (r: nat)
    ensures r <= |s| && (s != "" && Leading(s) == 0 ==> r > 0)
  {
    if s == "" || Leading(s) > 0 then 0 else 1 + WordLength(s[1..])
  }

  /** strings.Fields. */
  function Fields(s: string): (r: seq<string>)
    decreases |s|
  {
    var t := TrimStart(s);
    if t == "" then [] else [t[..WordLength(t)]] + Fields(t[WordLength(t)..])
  }

  // ---------------------------------------------------------------- labels

  /** What a backslash followed by `c` stands for. */
  function Unescape(c: char): (r: Option<char>) {
    if c == '\\' || c == '"' then Some(c) else if c == 'n' then Some('\n') else None
  }

  function Before(c: char, r: Option<(string, string)>): Option<(string, string)> {
    match r case None => None case Some((v, rest)) => Some(([c] + v, rest))
  }

  /** A value after its opening quote, and what follows its closing quote. A value
      that is never closed runs to the end; an unknown escape is an error. */
  function Unquote(s: string): (r: Option<(string, string)>)
    ensures r.Some? ==> |r.value.1| <= |s|
  {
    if s == "" then Some(("", ""))
    else if s[0] == '\\' && |s| > 1 then
      match Unescape(s[1]) case None => None case Some(c) => Before(c, Unquote(s[2..]))
    else if s[0] == '"' then Some(("", s[1..]))
    else Before(s[0], Unquote(s[1..]))
  }

  const SEPARATORS: set<char> := {',', ' '}

  /** Reading pairs until the text is used up; a later pair of the same name wins. */
  function ParsePairs(s: string, acc: Labels): (r: Option<Labels>)
    decreases |s|
  {
    if s == "" then Some(acc)
    else
      var eq := Index(s, "=");
      if eq < 0 || eq + 1 >= |s| || s[eq + 1] != '"' then None
      else match Unquote(s[eq + 2..])
        case None => None
        case Some((v, rest)) => ParsePairs(TrimLeft(rest, SEPARATORS), acc[TrimSpace(s[..eq]) := v])
  }

  function ParseLabels(body: string): (r: Option<Labels>) {
    if TrimSpace(body) == "" then Some(map[]) else ParsePairs(body, map[])
  }

  // ---------------------------------------------------------------- lines

  function SampleOf<F>(n: Numerals<F>, name: string, labels: Labels, number: string): (r: Option<Sample<F>>) {
    match n.parse(TrimSpace(number)) case None => None case Some(v) => Some(Sample(TrimSpace(name), labels, v))
  }

  /** A line whose first brace is at `brace`. */
  function ParseBraced<F>(n: Numerals<F>, line: string, brace: nat): (r: Option<Sample<F>>)
    requires brace < |line|
  {
    var close := LastIndex(line, '}');
    if close <= brace then None
    else Assembled(n, line[..brace], ParseLabels(line[brace + 1..close]), line[close + 1..])
  }

  function Assembled<F>(n: Numerals<F>, name: string, labels: Option<Labels>, rest: string): (r: Option<Sample<F>>) {
    match labels case None => None case Some(found) => SampleOf(n, name, found, TrimSpace(rest))
  }

  function ParseBare<F>(n: Numerals<F>, line: string): (r: Option<Sample<F>>) {
    var fields := Fields(line);
    if |fields| != 2 then None else SampleOf(n, fields[0], map[], fields[1])
  }

  function ParseSampleLine<F>(n: Numerals<F>, line: string): (r: Option<Sample<F>>) {
    var brace := Index(line, "{");
    if brace >= 0 then ParseBraced(n, line, brace) else ParseBare(n, line)
  }

  /** The scanner's buffer: a longer line cannot be read. */
  const MAX_LINE := 1024 * 1024

  datatype Outcome<F> = Skipped | Got(sample: Sample<F>) | Bad

  function ReadLine<F>(n: Numerals<F>, raw: string): (r: Outcome<F>) {
    if |raw| >= MAX_LINE then Bad
    else
      var line := DropCR(raw);
      if line == "" || line[0] == '#' then Skipped
      else match ParseSampleLine(n, line) case None => Bad case Some(s) => Got(s)
  }

  /** The samples of the first `i` lines, or an error as soon as one is bad. */
  function Collected<F>(outcomes: seq<Outcome<F>>, i: nat): (r: Option<seq<Sample<F>>>)
    requires i <= |outcomes|
  {
    if i == 0 then Some([])
    else match Collected(outcomes, i - 1)
      case None => None
      case Some(samples) =>
        match outcomes[i - 1]
        case Skipped => Some(samples)
        case Got(s) => Some(samples + [s])
        case Bad => None
  }

  function ReadLines<F>(n: Numerals<F>, lines: seq<string>): (r: seq<Outcome<F>>)
    ensures |r| == |lines| && forall i :: 0 <= i < |r| ==> r[i] == ReadLine(n, lines[i])
  {
    seq(|lines|, i requires 0 <= i < |lines| => ReadLine(n, lines[i]))
  }

  /** Lines end at a newline; the last one may not. */
  function Lines(text: string): (r: seq<string>) {
    if text == "" then []
    else
      var i := Index(text, "\n");
      if i < 0 then [text] else [text[..i]] + Lines(text[i + 1..])
  }

  function Parsed<F>(n: Numerals<F>, text: string): (r: Option<seq<Sample<F>>>) {
    var lines := Lines(text);
    Collected(ReadLines(n, lines), |lines|)
  }

  // ---------------------------------------------------------------- the loops

  /** The byte builder loop over one quoted value. */
  method ReadValue(body: string, start: nat) returns (value: Option<string>, i: nat)
    requires start <= |body|
    ensures start <= i <= |body|
    ensures value.Some? ==> Unquote(body[start..]) == Some((value.value, body[i..]))
    ensures value.None? ==> Unquote(body[start..]) == None
  {
    i := start;
    var text := "";
    PrependNothing(Unquote(body[start..]));
    while i < |body|
      invariant start <= i <= |body|
      invariant Unquote(body[start..]) == Prepend(text, Unquote(body[i..]))
    {
      var c := body[i];
      PrependTwice(text, c, Unquote(body[i + 1..]));
      if c == '\\' && i + 1 < |body| {
        var u := Unescape(body[i + 1]);
        if u.None? {
          return None, i;
        }
        assert body[i..][2..] == body[i + 2..];
        PrependTwice(text, u.value, Unquote(body[i + 2..]));
        text := text + [u.value];
        i := i + 2;
        continue;
      }
      assert body[i..][1..] == body[i + 1..];
      if c == '"' {
        i := i + 1;
        assert text + "" == text;
        return Some(text), i;
      }
      text := text + [c];
      i := i + 1;
    }
    assert text + "" == text && body[i..] == "";
    value := Some(text);
  }

  ghost function Prepend(text: string, r: Option<(string, string)>): Option<(string, string)> {
    match r case None => None case Some((v, rest)) => Some((text + v, rest))
  }

  lemma PrependNothing(r: Option<(string, string)>)
    ensures Prepend("", r) == r
  {
    if r.Some? { assert "" + r.value.0 == r.value.0; }
  }

  lemma PrependTwice(text: string, c: char, r: Option<(string, string)>)
    ensures Prepend(text, Before(c, r)) == Prepend(text + [c], r)
  {
    if r.Some? { assert text + ([c] + r.value.0) == text + [c] + r.value.0; }
  }

  /** Skipping commas and spaces. */
  method SkipSeparators(body: string, start: nat) returns (i: nat)
    requires start <= |body|
    ensures start <= i <= |body| && body[i..] == TrimLeft(body[start..], SEPARATORS)
  {
    i := start;
    while i < |body| && (body[i] == ',' || body[i] == ' ')
      invariant start <= i <= |body|
      invariant TrimLeft(body[i..], SEPARATORS) == TrimLeft(body[start..], SEPARATORS)
    {
      assert body[i..][1..] == body[i + 1..];
      i := i + 1;
    }
  }

  method ReadLabels(body: string) returns (r: Option<Labels>)
    ensures r == ParseLabels(body)
  {
    var labels: Labels := map[];
    if TrimSpace(body) == "" {
      return Some(labels);
    }
    var i := 0;
    assert body[0..] == body;
    while i < |body|
      invariant i <= |body|
      invariant ParseLabels(body) == ParsePairs(body[i..], labels)
      decreases |body| - i
    {
      ghost var rest := body[i..];
      var eq := Index(body[i..], "=");
      if eq < 0 {
        return None;
      }
      var key := TrimSpace(body[i..i + eq]);
      assert body[i..i + eq] == rest[..eq];
      i := i + eq + 1;
      if i >= |body| || body[i] != '"' {
        return None;
      }
      i := i + 1;
      assert rest[eq + 2..] == body[i..];
      var value;
      value, i := ReadValue(body, i);
      if value.None? {
        return None;
      }
      labels := labels[key := value.value];
      i := SkipSeparators(body, i);
    }
    return Some(labels);
  }

  method ReadBraced<F>(n: Numerals<F>, line: string, brace: nat) returns (r: Option<Sample<F>>)
    requires brace < |line|
    ensures r == ParseBraced(n, line, brace)
  {
    var close := LastIndex(line, '}');
    if close <= brace {
      return None;
    }
    var labels := ReadLabels(line[brace + 1..close]);
    return Assembled(n, line[..brace], labels, line[close + 1..]);
  }

  method ReadSample<F>(n: Numerals<F>, line: string) returns (r: Option<Sample<F>>)
    ensures r == ParseSampleLine(n, line)
  {
    var brace := Index(line, "{");
    if brace >= 0 {
      r := ReadBraced(n, line, brace);
    } else {
      r := ParseBare(n, line);
    }
  }

  method ReadOne<F>(n: Numerals<F>, raw: string) returns (r: Outcome<F>)
    ensures r == ReadLine(n, raw)
  {
    if |raw| >= MAX_LINE {
      return Bad;
    }
    var line := DropCR(raw);
    if line == "" || line[0] == '#' {
      return Skipped;
    }
    var s := ReadSample(n, line);
    return if s.None? then Bad else Got(s.value);
  }

  method ReadAll<F>(n: Numerals<F>, lines: seq<string>) returns (outcomes: seq<Outcome<F>>)
    ensures outcomes == ReadLines(n, lines)
  {
    ghost var all := ReadLines(n, lines);
    outcomes := [];
    for i := 0 to |lines|
      invariant outcomes == all[..i]
    {
      var outcome := ReadOne(n, lines[i]);
      OneMore(all, i);
      outcomes := outcomes + [outcome];
    }
    assert all[..|lines|] == all;
  }

  lemma OneMore<T>(s: seq<T>, i: nat)
    requires i < |s|
    ensures s[..i] + [s[i]] == s[..i + 1]
  {
  }

  /** One scan over the lines; the first bad one ends it. */
  method ParseExposition<F>(n: Numerals<F>, text: string) returns (r: Option<seq<Sample<F>>>)
    ensures r == Parsed(n, text)
  {
    var outcomes := ReadAll(n, Lines(text));
    r := Collect(outcomes);
  }

  method Collect<F>(outcomes: seq<Outcome<F>>) returns (r: Option<seq<Sample<F>>>)
    ensures r == Collected(outcomes, |outcomes|)
  {
    var samples := [];
    for i := 0 to |outcomes|
      invariant Collected(outcomes, i) == Some(samples)
    {
      if outcomes[i].Bad? {
        BadStays(outcomes, i + 1, |outcomes|);
        return None;
      }
      if outcomes[i].Got? {
        samples := samples + [outcomes[i].sample];
      }
    }
    r := Some(samples);
  }

  lemma {:induction false} BadStays<F>(outcomes: seq<Outcome<F>>, i: nat, j: nat)
    requires i <= j <= |outcomes| && Collected(outcomes, i) == None
    ensures Collected(outcomes, j) == None
    decreases j
  {
    if i < j { BadStays(outcomes, i, j - 1); }
  }
}
