/**
 The bounded Server-Sent Events reader of common/runtime/openai/sse.go. The
 functions say what one line, one event and a whole stream read as; the class
 below reads through a small buffer, as the source does, and is proved to read
 the same.
 */
module Sse {
  import opened Options
  import opened Text

  const DONE := "[DONE]"

  datatype Frame = Frame(event: string, data: string, id: string, retry: string)

  // ---------------------------------------------------------------- lines

  /** Length of the first line of `s`, its newline included. */
  function LineLength(s: string): (n: nat)
    ensures n <= |s| && (s != "" ==> n > 0)
  {
    if s == "" then 0 else if s[0] == '\n' then 1 else 1 + LineLength(s[1..])
  }

  datatype Line = Line(text: string, rest: string) | NoLine | LineTooLong

  /** readLine: a last line without its newline is returned as it is, its carriage
      return included; a limit of 0 is no limit. */
  function NextLine(input: string, maxLine: nat): (r: Line)
    ensures r.Line? ==> |r.rest| < |input|
    ensures r.NoLine? <==> input == ""
  {
    var n := LineLength(input);
    if maxLine > 0 && n > maxLine then LineTooLong
    else if input == "" then NoLine
    else if input[n - 1] == '\n' then Line(DropCR(input[..n - 1]), input[n..])
    else Line(input, "")
  }

  /** The first line ends at the first newline, or at the end of the input. */
  lemma {:induction false} LineLengthSpec(s: string)
    requires s != ""
    ensures var n := LineLength(s);
      && (forall i :: 0 <= i < n - 1 ==> s[i] != '\n')
      && (s[n - 1] != '\n' ==> n == |s|)
  {
    if s[0] != '\n' && |s| > 1 {
      LineLengthSpec(s[1..]);
      var n := LineLength(s);
      forall i | 0 <= i < n - 1 ensures s[i] != '\n' {
        if i > 0 { assert s[i] == s[1..][i - 1]; }
      }
    }
  }

  lemma {:induction false} LineLengthOf(text: string, rest: string)
    requires forall i :: 0 <= i < |text| ==> text[i] != '\n'
    ensures LineLength(text + "\n" + rest) == |text| + 1
  {
    var s := text + "\n" + rest;
    if text != "" {
      assert s[1..] == text[1..] + "\n" + rest;
      LineLengthOf(text[1..], rest);
    }
  }

  // ---------------------------------------------------------------- fields

  function SplitField(line: string): (r: (string, string)) {
    var i := IndexByte(line, ':');
    if i < 0 then (line, "")
    else
      var value := line[i + 1..];
      (line[..i], if value != "" && value[0] == ' ' then value[1..] else value)
  }

  function Join(lines: seq<string>): (r: string) {
    if lines == [] then "" else if |lines| == 1 then lines[0] else lines[0] + "\n" + Join(lines[1..])
  }

  // ---------------------------------------------------------------- events

  /** What one event has gathered so far. */
  datatype Gathered = Gathered(event: string, id: string, retry: string, data: seq<string>, size: nat, any: bool)

  const NOTHING_YET := Gathered("", "", "", [], 0, false)

  function AddLine(g: Gathered, line: string): (r: Gathered) {
    var (field, value) := SplitField(line);
    AddField(g, Known(field), value)
  }

  datatype FieldName = Event | Data | Id | Retry | Other

  function Known(field: string): (r: FieldName) {
    if field == "event" then Event
    else if field == "data" then Data
    else if field == "id" then Id
    else if field == "retry" then Retry
    else Other
  }

  function AddField(g: Gathered, field: FieldName, value: string): (r: Gathered) {
    match field
    case Event => g.(event := value, any := true)
    case Data => g.(data := g.data + [value], size := g.size + |value| + 1, any := true)
    case Id => g.(id := value, any := true)
    case Retry => g.(retry := value, any := true)
    case Other => g.(any := true)
  }

  datatype Reading =
    | Got(frame: Frame, rest: string)
    | EndOfStream
    | DoneSeen
    | Oversized

  function Finish(g: Gathered, rest: string): (r: Reading) {
    var data := Join(g.data);
    if data == DONE then DoneSeen else Got(Frame(g.event, data, g.id, g.retry), rest)
  }

  datatype Limits = Limits(line: nat, event: nat)

  /** readFrame, having gathered `g` already. */
  function FrameFrom(input: string, g: Gathered, limits: Limits): (r: Reading)
    ensures r.Got? ==> |r.rest| < |input| || (input == "" && g.any && r.rest == "")
    decreases |input|
  {
    match NextLine(input, limits.line)
    case LineTooLong => Oversized
    case NoLine => if g.any then Finish(g, "") else EndOfStream
    case Line(text, rest) =>
      if text == "" then
        if g.any then Finish(g, rest) else FrameFrom(rest, g, limits)
      else if text[0] == ':' then FrameFrom(rest, g, limits)
      else
        var g' := AddLine(g, text);
        if limits.event > 0 && g'.size > limits.event then Oversized else FrameFrom(rest, g', limits)
  }

  datatype Ending = Clean | Broken

  /** Every event of a stream, and how it ends. */
  function Events(input: string, limits: Limits): (r: (seq<Frame>, Ending))
    decreases |input|
  {
    match FrameFrom(input, NOTHING_YET, limits)
    case Got(frame, rest) =>
      var (more, end) := Events(rest, limits);
      ([frame] + more, end)
    case EndOfStream => ([], Clean)
    case DoneSeen => ([], Clean)
    case Oversized => ([], Broken)
  }

  // ---------------------------------------------------------------- limits

  function DataSize(lines: seq<string>): (r: nat) {
    if lines == [] then 0 else |lines[0]| + 1 + DataSize(lines[1..])
  }

  lemma {:induction false} DataSizeAppend(lines: seq<string>, x: string)
    ensures DataSize(lines + [x]) == DataSize(lines) + |x| + 1
  {
    if lines != [] {
      assert (lines + [x])[1..] == lines[1..] + [x];
      DataSizeAppend(lines[1..], x);
    }
  }

  lemma {:induction false} JoinSize(lines: seq<string>)
    ensures lines != [] ==> |Join(lines)| == DataSize(lines) - 1
  {
    if |lines| > 1 { JoinSize(lines[1..]); }
  }

  ghost predicate Counted(g: Gathered, limits: Limits) {
    g.size == DataSize(g.data) && (limits.event > 0 ==> g.size <= limits.event)
  }

  lemma LineCounted(g: Gathered, text: string)
    requires g.size == DataSize(g.data)
    ensures AddLine(g, text).size == DataSize(AddLine(g, text).data)
  {
    DataSizeAppend(g.data, SplitField(text).1);
  }

  /** Every accepted event's data is shorter than a positive event limit. */
  lemma {:induction false} FrameFits(input: string, g: Gathered, limits: Limits)
    requires limits.event > 0 && Counted(g, limits)
    ensures var r := FrameFrom(input, g, limits); r.Got? ==> |r.frame.data| < limits.event
    decreases |input|
  {
    JoinSize(g.data);
    match NextLine(input, limits.line)
    case LineTooLong =>
    case NoLine =>
    case Line(text, rest) =>
      if text == "" {
        if !g.any { FrameFits(rest, g, limits); }
      } else if text[0] == ':' {
        FrameFits(rest, g, limits);
      } else {
        var g' := AddLine(g, text);
        LineCounted(g, text);
        if g'.size <= limits.event { FrameFits(rest, g', limits); }
      }
  }

  lemma {:induction false} EventsFit(input: string, limits: Limits)
    requires limits.event > 0
    ensures forall f :: f in Events(input, limits).0 ==> |f.data| < limits.event
    decreases |input|
  {
    var r := FrameFrom(input, NOTHING_YET, limits);
    FrameFits(input, NOTHING_YET, limits);
    if r.Got? { EventsFit(r.rest, limits); }
  }

  // ---------------------------------------------------------------- printing

  /** How a field is spelled: `name: value`, `name:value` or, without a value, `name`. */
  datatype Spelling = Spaced | Tight | Bare

  /** One line a server may send inside an event, with either line ending. */
  datatype Item = Field(name: string, value: string, spelling: Spelling, crlf: bool) | Comment(text: string, crlf: bool)

  /** One event: its lines, and the line ending of the blank line after them. */
  datatype Block = Block(items: seq<Item>, crlf: bool)

  function Eol(crlf: bool): string { if crlf then "\r\n" else "\n" }

  function FieldText(name: string, value: string, spelling: Spelling): string {
    match spelling
    case Spaced => name + ": " + value
    case Tight => name + ":" + value
    case Bare => name
  }

  function ItemText(item: Item): string {
    match item
    case Field(name, value, spelling, _) => FieldText(name, value, spelling)
    case Comment(text, _) => ":" + text
  }

  function PrintItem(item: Item): string { ItemText(item) + Eol(item.crlf) }

  function PrintItems(items: seq<Item>): string {
    if items == [] then "" else PrintItem(items[0]) + PrintItems(items[1..])
  }

  function PrintBlock(b: Block): string { PrintItems(b.items) + Eol(b.crlf) }

  function PrintAll(blocks: seq<Block>): string {
    if blocks == [] then "" else PrintBlock(blocks[0]) + PrintAll(blocks[1..])
  }

  ghost predicate NoNewline(s: string) { forall i :: 0 <= i < |s| ==> s[i] != '\n' }

  /** The last line, which may lack its line ending. */
  function PrintLast(items: seq<Item>, cut: bool): string {
    if cut && items != [] then PrintItems(items[..|items| - 1]) + ItemText(items[|items| - 1]) else PrintItems(items)
  }

  /** A value can be spelled this way: without the space only if it starts with none, bare
      only if it is empty. */
  predicate Spells(value: string, spelling: Spelling) {
    match spelling
    case Spaced => true
    case Tight => value == "" || value[0] != ' '
    case Bare => value == ""
  }

  /** A field name starts no comment and ends at its colon; a line holds no newline, and
      ends in no carriage return that a bare newline would absorb. */
  ghost predicate Printable(item: Item, limits: Limits) {
    && NoNewline(ItemText(item))
    && (item.Field? ==> item.name != "" && Spells(item.value, item.spelling) && forall i :: 0 <= i < |item.name| ==> item.name[i] != ':')
    && (item.Field? && !item.crlf ==> ItemText(item)[|ItemText(item)| - 1] != '\r')
    && (limits.line > 0 ==> |PrintItem(item)| <= limits.line)
  }

  // ---------------------------------------------------------------- what is meant

  /** The value of the last field of a name; none: the empty text. */
  function LastValue(items: seq<Item>, name: string): (r: string) {
    if items == [] then ""
    else
      var last := items[|items| - 1];
      if last.Field? && last.name == name then last.value else LastValue(items[..|items| - 1], name)
  }

  /** The values of the data fields, in order. */
  function DataValues(items: seq<Item>): (r: seq<string>) {
    if items == [] then []
    else
      var last := items[|items| - 1];
      DataValues(items[..|items| - 1]) + (if last.Field? && last.name == "data" then [last.value] else [])
  }

  predicate HasField(items: seq<Item>) { exists i :: 0 <= i < |items| && items[i].Field? }

  /** What the blocks mean: an event per block that has a field of whatever name, up to
      `[DONE]`. */
  function Meaning(blocks: seq<Block>): (r: seq<Frame>) {
    if blocks == [] then []
    else
      var items := blocks[0].items;
      var data := Join(DataValues(items));
      if !HasField(items) then Meaning(blocks[1..])
      else if data == DONE then []
      else [Frame(LastValue(items, "event"), data, LastValue(items, "id"), LastValue(items, "retry"))] + Meaning(blocks[1..])
  }

  ghost predicate Sendable(b: Block, limits: Limits) {
    && (forall i :: 0 <= i < |b.items| ==> Printable(b.items[i], limits))
    && (limits.line > 0 ==> |Eol(b.crlf)| <= limits.line)
    && (limits.event > 0 ==> DataSize(DataValues(b.items)) <= limits.event)
  }

  /** What the reader has gathered after these lines. */
  function Gather(g: Gathered, items: seq<Item>): (r: Gathered)
    decreases |items|
  {
    if items == [] then g
    else if items[0].Comment? then Gather(g, items[1..])
    else Gather(AddField(g, Known(items[0].name), items[0].value), items[1..])
  }

  lemma {:induction false} GatherAppend(g: Gathered, a: seq<Item>, b: seq<Item>)
    ensures Gather(g, a + b) == Gather(Gather(g, a), b)
    decreases |a|
  {
    if a == [] {
      assert a + b == b;
    } else {
      assert (a + b)[1..] == a[1..] + b;
      GatherAppend(if a[0].Comment? then g else AddField(g, Known(a[0].name), a[0].value), a[1..], b);
    }
  }

  function Meant(items: seq<Item>): (r: Gathered) {
    Gathered(LastValue(items, "event"), LastValue(items, "id"), LastValue(items, "retry"),
             DataValues(items), DataSize(DataValues(items)), HasField(items))
  }

  /** The reader gathers what the lines mean. */
  lemma {:induction false} GatherMeans(items: seq<Item>)
    ensures Gather(NOTHING_YET, items) == Meant(items)
    decreases |items|
  {
    if items == [] {
      assert DataValues([]) == [] && LastValue([], "event") == "";
    } else {
      var front, last := items[..|items| - 1], items[|items| - 1];
      Ends(items);
      GatherMeans(front);
      GatherAppend(NOTHING_YET, front, [last]);
      assert [last][1..] == [];
      MeantOneMore(front, last);
    }
  }

  lemma MeantOneMore(front: seq<Item>, last: Item)
    ensures Meant(front + [last])
            == if last.Comment? then Meant(front) else AddField(Meant(front), Known(last.name), last.value)
  {
    var items := front + [last];
    assert items[..|front|] == front;
    HasFieldOneMore(front, last);
    if last.Comment? {
      assert DataValues(front) + [] == DataValues(front);
    } else {
      NamesAreKnown(last.name);
      if last.name == "data" {
        DataSizeAppend(DataValues(front), last.value);
      } else {
        assert DataValues(front) + [] == DataValues(front);
      }
    }
  }

  lemma HasFieldOneMore(front: seq<Item>, last: Item)
    ensures HasField(front + [last]) <==> HasField(front) || last.Field?
  {
    var items := front + [last];
    if HasField(front) {
      var i :| 0 <= i < |front| && front[i].Field?;
      assert items[i].Field?;
    }
    if last.Field? { assert items[|front|].Field?; }
  }

  /** The four names differ, and every other name is a name of its own. */
  lemma NamesAreKnown(name: string)
    ensures name == "event" <==> Known(name) == Event
    ensures name == "data" <==> Known(name) == Data
    ensures name == "id" <==> Known(name) == Id
    ensures name == "retry" <==> Known(name) == Retry
  {
    KnownNames();
  }

  lemma PrintedLine(text: string, crlf: bool, rest: string, maxLine: nat)
    requires NoNewline(text)
    requires maxLine > 0 ==> |text + Eol(crlf)| <= maxLine
    ensures NextLine(text + Eol(crlf) + rest, maxLine) == Line(if crlf then text else DropCR(text), rest)
  {
    var shown := if crlf then text + "\r" else text;
    var input := text + Eol(crlf) + rest;
    assert input == shown + "\n" + rest;
    LineLengthOf(shown, rest);
    assert input[..|shown|] == shown && input[|shown| + 1..] == rest;
    if crlf { assert DropCR(text + "\r") == text; }
  }

  /** Every spelling of a field reads as its name and value. */
  lemma FieldReads(name: string, value: string, spelling: Spelling)
    requires Spells(value, spelling) && forall i :: 0 <= i < |name| ==> name[i] != ':'
    ensures SplitField(FieldText(name, value, spelling)) == (name, value)
  {
    var line := FieldText(name, value, spelling);
    match spelling
    case Spaced =>
      assert line[|name|] == ':' && line[..|name|] == name && line[|name| + 1..] == " " + value;
    case Tight =>
      assert line[|name|] == ':' && line[..|name|] == name && line[|name| + 1..] == value;
    case Bare =>
  }

  lemma {:induction false} GatherGrows(g: Gathered, items: seq<Item>)
    ensures g.size <= Gather(g, items).size
    ensures g.any ==> Gather(g, items).any
    ensures !Gather(g, items).any ==> Gather(g, items) == g
    decreases |items|
  {
    if items != [] {
      GatherGrows(if items[0].Comment? then g else AddField(g, Known(items[0].name), items[0].value), items[1..]);
    }
  }

  lemma ItemReads(item: Item, g: Gathered, rest: string, limits: Limits)
    requires Printable(item, limits)
    requires var g' := Gather(g, [item]); limits.event > 0 ==> g'.size <= limits.event
    ensures FrameFrom(PrintItem(item) + rest, g, limits) == FrameFrom(rest, Gather(g, [item]), limits)
  {
    PrintedLine(ItemText(item), item.crlf, rest, limits.line);
    assert Gather(g, [item][1..]) == g;
    match item
    case Comment(text, crlf) =>
      assert ItemText(item)[0] == ':';
    case Field(name, value, spelling, crlf) =>
      TextStarts(name, value, spelling);
      FieldReads(name, value, spelling);
  }

  lemma TextStarts(name: string, value: string, spelling: Spelling)
    requires name != ""
    ensures FieldText(name, value, spelling) != "" && FieldText(name, value, spelling)[0] == name[0]
  {
  }

  lemma {:induction false} ItemsRead(items: seq<Item>, g: Gathered, rest: string, limits: Limits)
    requires forall i :: 0 <= i < |items| ==> Printable(items[i], limits)
    requires limits.event > 0 ==> Gather(g, items).size <= limits.event
    ensures FrameFrom(PrintItems(items) + rest, g, limits) == FrameFrom(rest, Gather(g, items), limits)
    decreases |items|
  {
    if items == [] {
      assert PrintItems(items) + rest == rest;
    } else {
      var more := PrintItems(items[1..]) + rest;
      assert PrintItems(items) + rest == PrintItem(items[0]) + more;
      var g' := if items[0].Comment? then g else AddField(g, Known(items[0].name), items[0].value);
      assert Gather(g, [items[0]]) == Gather(g', [items[0]][1..]) == g';
      GatherGrows(g', items[1..]);
      ItemReads(items[0], g, more, limits);
      ItemsRead(items[1..], g', rest, limits);
    }
  }

  lemma BlockReads(b: Block, rest: string, limits: Limits)
    requires forall i :: 0 <= i < |b.items| ==> Printable(b.items[i], limits)
    requires limits.line > 0 ==> |Eol(b.crlf)| <= limits.line
    requires limits.event > 0 ==> Gather(NOTHING_YET, b.items).size <= limits.event
    ensures var g := Gather(NOTHING_YET, b.items);
      FrameFrom(PrintBlock(b) + rest, NOTHING_YET, limits)
      == if g.any then Finish(g, rest) else FrameFrom(rest, NOTHING_YET, limits)
  {
    var g := Gather(NOTHING_YET, b.items);
    Assoc(PrintItems(b.items), Eol(b.crlf), rest);
    ItemsRead(b.items, NOTHING_YET, Eol(b.crlf) + rest, limits);
    BlankReads(g, b.crlf, rest, limits);
    GatherGrows(NOTHING_YET, b.items);
  }

  lemma BlankReads(g: Gathered, crlf: bool, rest: string, limits: Limits)
    requires limits.line > 0 ==> |Eol(crlf)| <= limits.line
    ensures FrameFrom(Eol(crlf) + rest, g, limits) == if g.any then Finish(g, rest) else FrameFrom(rest, g, limits)
  {
    assert |"" + Eol(crlf)| == |Eol(crlf)|;
    PrintedLine("", crlf, rest, limits.line);
    assert "" + Eol(crlf) + rest == Eol(crlf) + rest;
  }

  /** Reading back what was printed: any events, with comments anywhere, field lines in
      any order, every spelling and either line ending, and a last event whose blank line,
      or even whose last line ending, never came, read as exactly the events they mean. */
  lemma {:induction false} RoundTrip(blocks: seq<Block>, last: seq<Item>, cut: bool, limits: Limits)
    requires forall i :: 0 <= i < |blocks| ==> Sendable(blocks[i], limits)
    requires Sendable(Block(last, false), limits)
    ensures Events(PrintAll(blocks) + PrintLast(last, cut), limits) == (Meaning(blocks + [Block(last, false)]), Clean)
    decreases |blocks|
  {
    if blocks == [] {
      LastReads(last, cut, limits);
      assert PrintAll(blocks) + PrintLast(last, cut) == PrintLast(last, cut);
      assert blocks + [Block(last, false)] == [Block(last, false)];
    } else {
      var b, more := blocks[0], blocks[1..];
      RoundTrip(more, last, cut, limits);
      FirstBlockReads(b, PrintAll(more) + PrintLast(last, cut), limits, more + [Block(last, false)]);
      Assoc(PrintBlock(b), PrintAll(more), PrintLast(last, cut));
      assert blocks == [b] + more;
      Assoc([b], more, [Block(last, false)]);
    }
  }

  lemma FirstBlockReads(b: Block, rest: string, limits: Limits, tail: seq<Block>)
    requires Sendable(b, limits) && Events(rest, limits) == (Meaning(tail), Clean)
    ensures Events(PrintBlock(b) + rest, limits) == (Meaning([b] + tail), Clean)
  {
    GatherMeans(b.items);
    BlockReads(b, rest, limits);
    assert ([b] + tail)[1..] == tail;
  }

  lemma LastReads(last: seq<Item>, cut: bool, limits: Limits)
    requires Sendable(Block(last, false), limits)
    ensures Events(PrintLast(last, cut), limits) == (Meaning([Block(last, false)]), Clean)
  {
    assert Meaning([Block(last, false)][1..]) == [];
    assert Events("", limits) == ([], Clean);
    GatherMeans(last);
    LastGathers(last, cut, limits);
  }

  /** The end of the input ends the last event. */
  lemma LastGathers(last: seq<Item>, cut: bool, limits: Limits)
    requires Sendable(Block(last, false), limits)
    ensures var g := Gather(NOTHING_YET, last);
      FrameFrom(PrintLast(last, cut), NOTHING_YET, limits) == if g.any then Finish(g, "") else EndOfStream
  {
    GatherMeans(last);
    if cut && last != [] {
      Ends(last);
      CutLast(last[..|last| - 1], last[|last| - 1], limits);
    } else {
      assert PrintItems(last) == PrintItems(last) + "";
      GatherGrows(NOTHING_YET, last);
      ItemsRead(last, NOTHING_YET, "", limits);
    }
  }

  lemma CutLast(front: seq<Item>, item: Item, limits: Limits)
    requires Printable(item, limits) && forall i :: 0 <= i < |front| ==> Printable(front[i], limits)
    requires limits.event > 0 ==> Gather(NOTHING_YET, front + [item]).size <= limits.event
    ensures var g := Gather(NOTHING_YET, front + [item]);
      FrameFrom(PrintItems(front) + ItemText(item), NOTHING_YET, limits) == if g.any then Finish(g, "") else EndOfStream
  {
    GatherAppend(NOTHING_YET, front, [item]);
    GatherGrows(Gather(NOTHING_YET, front), [item]);
    ItemsRead(front, NOTHING_YET, ItemText(item), limits);
    CutLineReads(item, Gather(NOTHING_YET, front), limits);
  }

  /** A line that the input ends in is a line. */
  lemma CutLineReads(item: Item, g: Gathered, limits: Limits)
    requires Printable(item, limits)
    requires var g' := Gather(g, [item]); limits.event > 0 ==> g'.size <= limits.event
    ensures var g' := Gather(g, [item]);
      FrameFrom(ItemText(item), g, limits) == if g'.any then Finish(g', "") else EndOfStream
  {
    var text := ItemText(item);
    assert Gather(g, [item][1..]) == g;
    if item.Field? {
      TextStarts(item.name, item.value, item.spelling);
      FieldReads(item.name, item.value, item.spelling);
      assert [item][1..] == [];
    } else {
      assert text[0] == ':';
    }
    WholeLine(text, limits.line);
    assert NextLine("", limits.line) == NoLine;
  }

  lemma WholeLine(text: string, maxLine: nat)
    requires text != "" && NoNewline(text) && (maxLine > 0 ==> |text| <= maxLine)
    ensures NextLine(text, maxLine) == Line(text, "")
  {
    LineLengthSpec(text);
  }

  // ---------------------------------------------------------------- over the limits

  /** A line longer than the limit, its newline counted, cannot be read. */
  lemma LongLineBreaks(text: string, rest: string, g: Gathered, limits: Limits)
    requires 0 < limits.line <= |text| && NoNewline(text)
    ensures FrameFrom(text + "\n" + rest, g, limits) == Oversized
    ensures |text| > limits.line ==> FrameFrom(text, g, limits) == Oversized
  {
    LineLengthOf(text, rest);
    LineLengthSpec(text);
  }

  /** An event whose data is over the limit breaks off at the field that passes it. */
  lemma {:induction false} LongEventBreaks(items: seq<Item>, g: Gathered, rest: string, limits: Limits)
    requires forall i :: 0 <= i < |items| ==> Printable(items[i], limits)
    requires 0 < limits.event < Gather(g, items).size && g.size <= limits.event
    ensures FrameFrom(PrintItems(items) + rest, g, limits) == Oversized
    decreases |items|
  {
    var more := PrintItems(items[1..]) + rest;
    Assoc(PrintItem(items[0]), PrintItems(items[1..]), rest);
    var g' := if items[0].Comment? then g else AddField(g, Known(items[0].name), items[0].value);
    assert Gather(g, [items[0]]) == Gather(g', [items[0]][1..]) == g';
    if g'.size <= limits.event {
      ItemReads(items[0], g, more, limits);
      LongEventBreaks(items[1..], g', rest, limits);
    } else {
      LongItemBreaks(items[0], g, more, limits);
    }
  }

  lemma LongItemBreaks(item: Item, g: Gathered, rest: string, limits: Limits)
    requires Printable(item, limits) && item.Field?
    requires 0 < limits.event < AddField(g, Known(item.name), item.value).size
    ensures FrameFrom(PrintItem(item) + rest, g, limits) == Oversized
  {
    PrintedLine(ItemText(item), item.crlf, rest, limits.line);
    TextStarts(item.name, item.value, item.spelling);
    FieldReads(item.name, item.value, item.spelling);
  }

  /** What breaks is reported as broken, after every event before it. */
  lemma {:induction false} BreaksAfter(blocks: seq<Block>, bad: string, limits: Limits)
    requires forall i :: 0 <= i < |blocks| ==> Sendable(blocks[i], limits)
    requires forall i :: 0 <= i < |blocks| ==> Join(DataValues(blocks[i].items)) != DONE
    requires FrameFrom(bad, NOTHING_YET, limits) == Oversized
    ensures Events(PrintAll(blocks) + bad, limits) == (Meaning(blocks), Broken)
    decreases |blocks|
  {
    if blocks == [] {
      assert PrintAll(blocks) + bad == bad;
    } else {
      var b, more := blocks[0], blocks[1..];
      BreaksAfter(more, bad, limits);
      Assoc(PrintBlock(b), PrintAll(more), bad);
      BlockThenBreak(b, PrintAll(more) + bad, limits, more);
    }
  }

  lemma BlockThenBreak(b: Block, rest: string, limits: Limits, tail: seq<Block>)
    requires Sendable(b, limits) && Join(DataValues(b.items)) != DONE && Events(rest, limits) == (Meaning(tail), Broken)
    ensures Events(PrintBlock(b) + rest, limits) == (Meaning([b] + tail), Broken)
  {
    GatherMeans(b.items);
    BlockReads(b, rest, limits);
    assert ([b] + tail)[1..] == tail;
  }

  /** Events within the limits, then one whose data is not: the stream is broken there. */
  lemma OversizeIsReported(blocks: seq<Block>, items: seq<Item>, rest: string, limits: Limits)
    requires forall i :: 0 <= i < |blocks| ==> Sendable(blocks[i], limits)
    requires forall i :: 0 <= i < |blocks| ==> Join(DataValues(blocks[i].items)) != DONE
    requires forall i :: 0 <= i < |items| ==> Printable(items[i], limits)
    requires 0 < limits.event < DataSize(DataValues(items))
    ensures Events(PrintAll(blocks) + (PrintItems(items) + rest), limits) == (Meaning(blocks), Broken)
  {
    GatherMeans(items);
    LongEventBreaks(items, NOTHING_YET, rest, limits);
    BreaksAfter(blocks, PrintItems(items) + rest, limits);
  }

  // ---------------------------------------------------------------- frames

  function SplitLines(data: string): (r: seq<string>)
    ensures r != []
  {
    var i := IndexByte(data, '\n');
    if i < 0 then [data] else [data[..i]] + SplitLines(data[i + 1..])
  }

  lemma {:induction false} JoinSplit(data: string)
    ensures Join(SplitLines(data)) == data
    ensures forall i :: 0 <= i < |SplitLines(data)| ==> NoNewline(SplitLines(data)[i])
    decreases |data|
  {
    var i := IndexByte(data, '\n');
    if i >= 0 {
      JoinSplit(data[i + 1..]);
      assert ([data[..i]] + SplitLines(data[i + 1..]))[1..] == SplitLines(data[i + 1..]);
      assert data == data[..i] + "\n" + data[i + 1..];
    }
  }

  /** A field with a CRLF line ending, spelled as briefly as its value allows or with the space. */
  function Shown(name: string, value: string, tight: bool): (r: Item) {
    Field(name, value, if !tight || (value != "" && value[0] == ' ') then Spaced else if value == "" then Bare else Tight, true)
  }

  function DataItems(lines: seq<string>, tight: bool): (r: seq<Item>)
    ensures |r| == |lines| && forall i :: 0 <= i < |r| ==> r[i] == Shown("data", lines[i], tight)
  {
    if lines == [] then [] else [Shown("data", lines[0], tight)] + DataItems(lines[1..], tight)
  }

  /** A frame printed: every field, tight or with spaces. */
  function FrameBlock(f: Frame, tight: bool): (r: Block) {
    Block([Shown("event", f.event, tight), Shown("id", f.id, tight), Shown("retry", f.retry, tight)]
          + DataItems(SplitLines(f.data), tight), true)
  }

  lemma KnownNames()
    ensures Known("event") == Event && Known("data") == Data && Known("id") == Id && Known("retry") == Retry
  {
    assert |"event"| != |"data"| && "data"[0] != "id"[0];
    assert |"retry"| != |"data"| && "retry"[0] != "event"[0];
  }

  lemma GatherOne(g: Gathered, name: string, value: string, tight: bool, items: seq<Item>)
    ensures Gather(g, [Shown(name, value, tight)] + items) == Gather(AddField(g, Known(name), value), items)
  {
    assert ([Shown(name, value, tight)] + items)[1..] == items;
  }

  lemma {:induction false} GatherData(g: Gathered, lines: seq<string>, tight: bool)
    ensures Gather(g, DataItems(lines, tight))
            == g.(data := g.data + lines, size := g.size + DataSize(lines), any := g.any || lines != [])
    decreases |lines|
  {
    if lines != [] {
      KnownNames();
      GatherOne(g, "data", lines[0], tight, DataItems(lines[1..], tight));
      var g' := g.(data := g.data + [lines[0]], size := g.size + |lines[0]| + 1, any := true);
      assert AddField(g, Data, lines[0]) == g';
      GatherData(g', lines[1..], tight);
      assert g'.data + lines[1..] == g.data + lines;
    } else {
      assert g.data + lines == g.data;
    }
  }

  lemma FrameGathers(f: Frame, tight: bool)
    ensures var lines := SplitLines(f.data);
      Gather(NOTHING_YET, FrameBlock(f, tight).items) == Gathered(f.event, f.id, f.retry, lines, DataSize(lines), true)
  {
    var lines := SplitLines(f.data);
    var more := DataItems(lines, tight);
    var g1 := NOTHING_YET.(event := f.event, any := true);
    var g2 := g1.(id := f.id);
    var g3 := g2.(retry := f.retry);
    var r3 := [Shown("retry", f.retry, tight)] + more;
    var r2 := [Shown("id", f.id, tight)] + r3;
    InFront(Shown("event", f.event, tight), Shown("id", f.id, tight), Shown("retry", f.retry, tight), more);
    KnownNames();
    GatherOne(NOTHING_YET, "event", f.event, tight, r2);
    GatherOne(g1, "id", f.id, tight, r3);
    GatherOne(g2, "retry", f.retry, tight, more);
    GatherData(g3, lines, tight);
    Unit(lines);
  }

  lemma InFront<T>(a: T, b: T, c: T, rest: seq<T>)
    ensures [a, b, c] + rest == [a] + ([b] + ([c] + rest))
  {
  }

  lemma FrameBlockMeans(f: Frame, tight: bool)
    ensures var g := Meant(FrameBlock(f, tight).items);
      && g.any && g.event == f.event && g.id == f.id && g.retry == f.retry
      && Join(g.data) == f.data && g.size == |f.data| + 1
  {
    GatherMeans(FrameBlock(f, tight).items);
    FrameGathers(f, tight);
    JoinSplit(f.data);
    JoinSize(SplitLines(f.data));
  }

  /** The frames a server sends, one block each. */
  function FrameBlocks(frames: seq<Frame>, tight: bool): (r: seq<Block>)
    ensures |r| == |frames| && forall i :: 0 <= i < |r| ==> r[i] == FrameBlock(frames[i], tight)
  {
    if frames == [] then [] else [FrameBlock(frames[0], tight)] + FrameBlocks(frames[1..], tight)
  }

  /** The frames before the first end marker. */
  function UpToDone(frames: seq<Frame>): (r: seq<Frame>)
    ensures (forall i :: 0 <= i < |frames| ==> frames[i].data != DONE) ==> r == frames
  {
    if frames == [] || frames[0].data == DONE then [] else [frames[0]] + UpToDone(frames[1..])
  }

  /** Any list of frames reads back as itself, up to the end marker. */
  lemma FramesRoundTrip(frames: seq<Frame>, tight: bool, limits: Limits)
    requires forall i :: 0 <= i < |frames| ==> Sendable(FrameBlock(frames[i], tight), limits)
    ensures Events(PrintAll(FrameBlocks(frames, tight)), limits) == (UpToDone(frames), Clean)
  {
    var blocks := FrameBlocks(frames, tight);
    RoundTrip(blocks, [], false, limits);
    assert PrintAll(blocks) + PrintLast([], false) == PrintAll(blocks);
    MeaningOfFrames(frames, tight);
  }

  lemma {:induction false} MeaningOfFrames(frames: seq<Frame>, tight: bool)
    ensures Meaning(FrameBlocks(frames, tight) + [Block([], false)]) == UpToDone(frames)
    decreases |frames|
  {
    var empty := Block([], false);
    if frames == [] {
      assert FrameBlocks(frames, tight) + [empty] == [empty];
      EmptyMeansNothing();
    } else {
      var rest := FrameBlocks(frames[1..], tight);
      MeaningOfFrames(frames[1..], tight);
      MeaningOfFrame(frames[0], tight, rest + [empty]);
      Assoc([FrameBlock(frames[0], tight)], rest, [empty]);
    }
  }

  lemma EmptyMeansNothing()
    ensures Meaning([Block([], false)]) == []
  {
    assert [Block([], false)][1..] == [] && !HasField([]);
  }

  lemma MeaningOfFrame(f: Frame, tight: bool, tail: seq<Block>)
    ensures Meaning([FrameBlock(f, tight)] + tail) == if f.data == DONE then [] else [f] + Meaning(tail)
  {
    FrameBlockMeans(f, tight);
    assert ([FrameBlock(f, tight)] + tail)[1..] == tail;
  }

  // ---------------------------------------------------------------- the buffered reader

  datatype Slice = Delimited | BufferFull | Exhausted

  datatype ReadResult = FullLine(line: string) | AtEnd | TooLong

  /** sseReader over a bufio.Reader: `rest` is what has not been consumed yet. */
  class Reader {
    var rest: string
    const limits: Limits
    const buffer: nat

    constructor (body: string, limits: Limits, buffer: nat)
      requires buffer > 0
      ensures rest == body && this.limits == limits && this.buffer == buffer
    {
      rest, this.limits, this.buffer := body, limits, buffer;
    }

    /** bufio.Reader.ReadSlice: up to the newline, to a full buffer, or to the end. */
    method ReadSlice() returns (chunk: string, status: Slice)
      requires buffer > 0
      modifies this
      ensures old(rest) == chunk + rest
      ensures match status
        case Delimited => chunk != "" && chunk[|chunk| - 1] == '\n' && NoNewline(chunk[..|chunk| - 1])
        case BufferFull => |chunk| == buffer && NoNewline(chunk)
        case Exhausted => rest == "" && NoNewline(chunk)
    {
      var n := LineLength(rest);
      if rest != "" { LineLengthSpec(rest); }
      if n <= buffer && n > 0 && rest[n - 1] == '\n' {
        chunk, status := rest[..n], Delimited;
        rest := rest[n..];
      } else if |rest| >= buffer {
        chunk, status := rest[..buffer], BufferFull;
        rest := rest[buffer..];
      } else {
        chunk, status := rest, Exhausted;
        rest := "";
      }
    }

    /** readLine: the same line whatever the size of the buffer. */
    method ReadLine() returns (r: ReadResult)
      requires buffer > 0
      modifies this
      ensures Agrees(NextLine(old(rest), limits.line), r, rest)
    {
      var buf := "";
      while true
        invariant old(rest) == buf + rest && NoNewline(buf)
        invariant limits.line > 0 ==> |buf| <= limits.line
        decreases |rest|
      {
        ghost var before := buf;
        var chunk, status := ReadSlice();
        Assoc(before, chunk, rest);
        ghost var last := if status.Delimited? then 1 else 0;
        NoNewlineCat(before, chunk, last);
        buf := buf + chunk;
        if limits.line > 0 && |buf| > limits.line {
          OverLimit(buf, rest, last);
          return TooLong;
        }
        match status {
          case Delimited =>
            var line := buf[..|buf| - 1];
            assert buf == line + "\n";
            CompleteLine(line, rest, limits.line);
            return FullLine(DropCR(line));
          case BufferFull =>
          case Exhausted =>
            assert buf + "" == buf;
            LineLengthSkip(buf, |buf|);
            if buf == "" {
              return AtEnd;
            }
            return FullLine(buf);
        }
      }
    }

    /** readFrame: gathers field lines up to a blank line or the end of the stream. */
    method ReadFrame() returns (r: FrameResult)
      requires buffer > 0
      modifies this
      ensures AgreesFrame(FrameFrom(old(rest), NOTHING_YET, limits), r, rest)
    {
      var g := NOTHING_YET;
      while true
        invariant FrameFrom(rest, g, limits) == FrameFrom(old(rest), NOTHING_YET, limits)
        decreases |rest|
      {
        var line := ReadLine();
        match line {
          case TooLong =>
            return OverSize;
          case AtEnd =>
            if g.any {
              r := FinishFrame(g);
              return;
            }
            return ReachedEnd;
          case FullLine(text) =>
            if text == "" {
              if !g.any {
                continue;
              }
              r := FinishFrame(g);
              return;
            }
            if text[0] == ':' {
              continue;
            }
            g := AddLine(g, text);
            if limits.event > 0 && g.size > limits.event {
              return OverSize;
            }
        }
      }
    }

    method FinishFrame(g: Gathered) returns (r: FrameResult)
      ensures AgreesFrame(Finish(g, rest), r, rest)
    {
      var data := Join(g.data);
      if data == DONE {
        return SawDone;
      }
      return Parsed(Frame(g.event, data, g.id, g.retry));
    }
  }

  datatype FrameResult = Parsed(frame: Frame) | ReachedEnd | SawDone | OverSize

  ghost predicate AgreesFrame(e: Reading, r: FrameResult, rest: string) {
    match e
    case Got(frame, more) => r == Parsed(frame) && rest == more
    case EndOfStream => r == ReachedEnd
    case DoneSeen => r == SawDone
    case Oversized => r == OverSize
  }

  lemma NoNewlineCat(a: string, b: string, last: nat)
    requires last <= |b| && NoNewline(a) && NoNewline(b[..|b| - last])
    ensures NoNewline((a + b)[..|a + b| - last])
    ensures last == 0 ==> NoNewline(a + b)
  {
    var c := a + b;
    forall i | 0 <= i < |c| - last ensures c[i] != '\n' {
      if i >= |a| { assert c[i] == b[..|b| - last][i - |a|]; }
    }
  }

  ghost predicate Agrees(l: Line, r: ReadResult, rest: string) {
    match l
    case Line(text, more) => r == FullLine(text) && rest == more
    case NoLine => r == AtEnd && rest == ""
    case LineTooLong => r == TooLong
  }

  lemma CompleteLine(line: string, rest: string, maxLine: nat)
    requires NoNewline(line) && (maxLine > 0 ==> |line| + 1 <= maxLine)
    ensures NextLine(line + "\n" + rest, maxLine) == Line(DropCR(line), rest)
  {
    var input := line + "\n" + rest;
    LineLengthOf(line, rest);
    assert input[..|line|] == line && input[|line| + 1..] == rest;
  }

  /** Bytes before a newline all belong to the first line. */
  lemma OverLimit(buf: string, rest: string, last: nat)
    requires last <= 1 && last <= |buf| && NoNewline(buf[..|buf| - last])
    ensures LineLength(buf + rest) >= |buf|
  {
    var s := buf + rest;
    var k := |buf| - last;
    assert s[..k] == buf[..k];
    LineLengthSkip(s, k);
  }

  /** A prefix without a newline only postpones the end of the line. */
  lemma {:induction false} LineLengthSkip(s: string, k: nat)
    requires k <= |s| && NoNewline(s[..k])
    ensures LineLength(s) == k + LineLength(s[k..])
  {
    if k > 0 {
      assert s[..k][0] == s[0];
      assert s[1..][..k - 1] == s[..k][1..];
      LineLengthSkip(s[1..], k - 1);
      assert s[1..][k - 1..] == s[k..];
    } else {
      assert s[0..] == s;
    }
  }
}
