/**
 decodeChatStream of common/runtime/openai/stream.go: one event per SSE chunk,
 with the fallback reasoning parser in between for as long as the backend does
 not separate the reasoning itself; and splitMessage, which does the same job on
 a whole reply.
 */
module ChatStream {
  import opened Options
  import opened Text
  import opened ThinkSplitter
  import opened ThinkSplitterTheorems

  // ---------------------------------------------------------------- wire and runtime values

  datatype Usage = Usage(prompt: int, completion: int, total: int, reasoning: int)
  datatype ToolCallDelta = ToolCallDelta(index: int, id: string, kind: string, name: string, arguments: string)

  datatype Choice = Choice(
    role: string, content: string, toolCalls: seq<ToolCallDelta>,
    reasoningContent: string, reasoning: string, finishReason: Option<string>)
  datatype Chunk = Chunk(id: string, model: string, choices: seq<Choice>, usage: Option<Usage>)

  datatype Delta = Delta(role: string, text: Parts, toolCalls: seq<ToolCallDelta>)
  datatype ChatEvent = ChatEvent(id: string, model: string, delta: Delta, finishReason: string, usage: Option<Usage>)

  const EMPTY_DELTA := Delta("", NOTHING, [])

  function EventFromChunk(chunk: Chunk): (r: ChatEvent) {
    if chunk.choices == [] then ChatEvent(chunk.id, chunk.model, EMPTY_DELTA, "", chunk.usage)
    else
      var c := chunk.choices[0];
      var reasoning := if c.reasoningContent != "" then c.reasoningContent else c.reasoning;
      ChatEvent(
        chunk.id, chunk.model, Delta(c.role, Parts(reasoning, c.content), c.toolCalls),
        if c.finishReason.Some? then c.finishReason.value else "", chunk.usage)
  }

  // ---------------------------------------------------------------- the request's parser

  datatype Client = Client(reasoningParser: string)

  const THINK_TAGS := "think_tags"
  const THINK_TAGS_PREFILLED := "think_tags_prefilled"

  /** splitterFor: `thinking` is the request's own switch, when it has one. */
  function SplitterFor(c: Client, thinking: Option<bool>): (r: Option<Splitter>)
    ensures r.Some? ==> r.value == Fresh(r.value.fallback) && !r.value.fallback.Deciding?
    ensures r.Some? && r.value.fallback.Inside? ==> thinking != Some(false)
  {
    if c.reasoningParser == THINK_TAGS_PREFILLED && thinking == Some(false) then None
    else if c.reasoningParser == THINK_TAGS then Some(Fresh(Answer))
    else if c.reasoningParser == THINK_TAGS_PREFILLED then Some(Fresh(Inside))
    else None
  }

  /** Which requests are parsed: tags that must be seen, or an opening tag that the prompt
      already holds, unless the request turns thinking off; no other setting. */
  lemma SplitterIs(c: Client, thinking: Option<bool>)
    ensures c.reasoningParser == "think_tags" <==> SplitterFor(c, thinking) == Some(Fresh(Answer))
    ensures c.reasoningParser == "think_tags_prefilled" && thinking != Some(false) <==> SplitterFor(c, thinking) == Some(Fresh(Inside))
  {
    assert |THINK_TAGS| != |THINK_TAGS_PREFILLED|;
  }

  /** splitMessage: what a whole, non-streamed message becomes. */
  function SplitMessageOf(c: Client, thinking: Option<bool>, m: Parts): (r: Parts) {
    match SplitterFor(c, thinking)
    case None => m
    case Some(s) => if m.reasoning != "" then m else SplitReply(s.fallback, m.answer)
  }

  method SplitMessage(c: Client, thinking: Option<bool>, m: Parts) returns (r: Parts)
    ensures r == SplitMessageOf(c, thinking, m)
  {
    var splitter := SplitterFor(c, thinking);
    if splitter.None? || m.reasoning != "" {
      return m;
    }
    var s := new Parser(splitter.value.fallback);
    var first := s.Push(m.answer);
    var last := s.Flush();
    r := first.Then(last);
    WholeReply(splitter.value.fallback, m.answer);
    OnePush(splitter.value.fallback, m.answer);
  }

  lemma OnePush(fallback: Phase, text: string)
    requires !fallback.Deciding?
    ensures var (s, p) := PushOf(Fresh(fallback), text);
      Streamed(fallback, [text]) == p.Then(FlushOf(s))
  {
    var (s, p) := PushOf(Fresh(fallback), text);
    assert Feed(s, [text][1..]) == (s, NOTHING);
    ThenUnit(p);
  }

  // ---------------------------------------------------------------- one event

  function WithText(e: ChatEvent, text: Parts): ChatEvent { e.(delta := e.delta.(text := text)) }

  /** What one decoded chunk does to the parser and what is sent on for it. */
  function Relay(split: Option<Splitter>, e: ChatEvent): (r: (Option<Splitter>, ChatEvent))
    requires split.Some? ==> !split.value.fallback.Deciding?
    ensures r.0.Some? ==> split.Some? && r.0.value.fallback == split.value.fallback
    ensures WithText(r.1, e.delta.text) == e
  {
    if split.None? then (None, e)
    else if e.delta.text.reasoning != "" then (None, WithText(e, FlushOf(split.value).Then(e.delta.text)))
    else
      var (s, p) := if e.delta.text.answer != "" then PushOf(split.value, e.delta.text.answer) else (split.value, NOTHING);
      if e.finishReason != "" then (Some(s.(held := "")), WithText(e, p.Then(FlushOf(s))))
      else (Some(s), WithText(e, p))
  }

  /** The event that releases what is still held when the stream ends, if any. */
  function LastEvent(split: Option<Splitter>, id: string, model: string): (r: seq<ChatEvent>) {
    if split.None? || FlushOf(split.value) == NOTHING then []
    else [ChatEvent(id, model, Delta("", FlushOf(split.value), []), "", None)]
  }

  /** Everything sent for a list of decoded chunks followed by a normal end. */
  function Relayed(split: Option<Splitter>, id: string, model: string, events: seq<ChatEvent>): (r: seq<ChatEvent>)
    requires split.Some? ==> !split.value.fallback.Deciding?
    decreases |events|
  {
    if events == [] then LastEvent(split, id, model)
    else
      var (s, e) := Relay(split, events[0]);
      [e] + Relayed(s, e.id, e.model, events[1..])
  }

  // ---------------------------------------------------------------- the decoder loop

  datatype Ending = Normal | Failed | ConsumerGone

  /** The events sent, and how the stream ends, for SSE frames with the given data
      followed by a clean end or a read error. `decode` is the JSON decoder, and the
      consumer closes the stream after `patience` events. */
  function Decoded(split: Option<Splitter>, id: string, model: string, frames: seq<string>, clean: bool,
                   decode: string -> Option<Chunk>, patience: nat): (r: (seq<ChatEvent>, Ending))
    requires split.Some? ==> !split.value.fallback.Deciding?
    decreases |frames|
  {
    if frames == [] then
      var last := LastEvent(split, id, model);
      if !clean then ([], Failed) else if last != [] && patience == 0 then ([], ConsumerGone) else (last, Normal)
    else if frames[0] == "" then Decoded(split, id, model, frames[1..], clean, decode, patience)
    else if decode(frames[0]).None? then ([], Failed)
    else if patience == 0 then ([], ConsumerGone)
    else
      var (s, e) := Relay(split, EventFromChunk(decode(frames[0]).value));
      var rest := Decoded(s, e.id, e.model, frames[1..], clean, decode, patience - 1);
      ([e] + rest.0, rest.1)
  }

  /** The parser's part of the loop body. */
  method RelayOne(split: Parser?, received: ChatEvent) returns (next: Parser?, event: ChatEvent)
    requires split != null ==> !split.fallback.Deciding?
    modifies split
    ensures next == null || next == split
    ensures (if next == null then None else Some(next.Value()), event)
            == Relay(if split == null then None else Some(old(split.Value())), received)
  {
    next, event := split, received;
    if split != null {
      if event.delta.text.reasoning != "" {
        var held := split.Flush();
        event := WithText(event, held.Then(event.delta.text));
        next := null;
      } else {
        if event.delta.text.answer != "" {
          var text := split.Push(event.delta.text.answer);
          event := WithText(event, text);
        }
        if event.finishReason != "" {
          var held := split.Flush();
          event := WithText(event, event.delta.text.Then(held));
        }
      }
    }
  }

  /** One turn of the decoder loop on a frame's data. */
  method DecodeFrame(split: Parser?, data: string, decode: string -> Option<Chunk>, room: nat)
    returns (next: Parser?, sent: seq<ChatEvent>, ending: Option<Ending>)
    requires split != null ==> !split.fallback.Deciding?
    modifies split
    ensures next == null || next == split
    ensures data == "" ==> sent == [] && ending == None && next == split && (split != null ==> split.Value() == old(split.Value()))
    ensures data != "" && decode(data).None? ==> sent == [] && ending == Some(Failed)
    ensures data != "" && decode(data).Some? && room == 0 ==> sent == [] && ending == Some(ConsumerGone)
    ensures data != "" && decode(data).Some? && room > 0 ==>
      && ending == None
      && |sent| == 1
      && (ValueOf(next), sent[0]) == Relay(old(ValueOf(split)), EventFromChunk(decode(data).value))
  {
    next, sent, ending := split, [], None;
    if data == "" {
      return;
    }
    if decode(data).None? {
      ending := Some(Failed);
      return;
    }
    var event := EventFromChunk(decode(data).value);
    next, event := RelayOne(split, event);
    if room == 0 {
      ending := Some(ConsumerGone);
      return;
    }
    sent := [event];
  }

  ghost function ValueOf(split: Parser?): Option<Splitter>
    reads split
  {
    if split == null then None else Some(split.Value())
  }

  method DecodeChatStream(splitter: Option<Splitter>, frames: seq<string>, clean: bool,
                          decode: string -> Option<Chunk>, patience: nat)
    returns (sent: seq<ChatEvent>, ending: Ending)
    requires splitter.Some? ==> splitter.value == Fresh(splitter.value.fallback) && !splitter.value.fallback.Deciding?
    ensures (sent, ending) == Decoded(splitter, "", "", frames, clean, decode, patience)
  {
    var split: Parser? := null;
    if splitter.Some? {
      split := new Parser(splitter.value.fallback);
    }
    ghost var whole := Decoded(splitter, "", "", frames, clean, decode, patience);
    var id, model := "", "";
    sent := [];
    var i := 0;
    ghost var rest := whole;
    assert frames[0..] == frames && [] + whole.0 == whole.0;
    while i < |frames|
      invariant 0 <= i <= |frames|
      invariant split != null ==> fresh(split) && !split.fallback.Deciding?
      invariant |sent| <= patience
      invariant rest == Decoded(ValueOf(split), id, model, frames[i..], clean, decode, patience - |sent|)
      invariant whole.0 == sent + rest.0 && whole.1 == rest.1
    {
      ghost var now := ValueOf(split);
      assert frames[i..][1..] == frames[i + 1..];
      var event, end;
      split, event, end := DecodeFrame(split, frames[i], decode, patience - |sent|);
      if end.Some? {
        assert whole.0 == sent;
        return sent, end.value;
      }
      i := i + 1;
      if event != [] {
        id, model := event[0].id, event[0].model;
        ghost var next := Decoded(ValueOf(split), id, model, frames[i..], clean, decode, patience - |sent| - 1);
        Assoc(sent, [event[0]], next.0);
        rest := next;
        sent := sent + [event[0]];
      }
    }
    assert frames[i..] == [];
    var last;
    last, ending := FinishStream(split, id, model, clean, patience - |sent|);
    sent := sent + last;
  }

  /** What is still held at a clean end goes out as one last event. */
  method FinishStream(split: Parser?, id: string, model: string, clean: bool, room: nat)
    returns (last: seq<ChatEvent>, ending: Ending)
    modifies split
    ensures (last, ending) ==
      if !clean then ([], Failed)
      else if LastEvent(old(ValueOf(split)), id, model) != [] && room == 0 then ([], ConsumerGone)
      else (LastEvent(old(ValueOf(split)), id, model), Normal)
  {
    if !clean {
      return [], Failed;
    }
    if split != null {
      var text := split.Flush();
      if text.reasoning != "" || text.answer != "" {
        if room == 0 {
          return [], ConsumerGone;
        }
        return [ChatEvent(id, model, Delta("", text, []), "", None)], Normal;
      }
    }
    return [], Normal;
  }

  // ---------------------------------------------------------------- what the stream adds up to

  /** Reasoning and answer text of a list of events, concatenated. */
  function TextOf(events: seq<ChatEvent>): (r: Parts) {
    if events == [] then NOTHING else events[0].delta.text.Then(TextOf(events[1..]))
  }

  function Contents(events: seq<ChatEvent>): (r: seq<string>)
    ensures |r| == |events|
  {
    if events == [] then [] else [events[0].delta.text.answer] + Contents(events[1..])
  }

  /** The first event in which the backend separates reasoning itself. */
  function FirstSeparated(events: seq<ChatEvent>): (r: nat)
    ensures r <= |events|
    ensures forall i :: 0 <= i < r ==> events[i].delta.text.reasoning == ""
    ensures r < |events| ==> events[r].delta.text.reasoning != ""
  {
    if events == [] || events[0].delta.text.reasoning != "" then 0 else 1 + FirstSeparated(events[1..])
  }

  /** No content follows the finish reason. */
  ghost predicate ContentEnds(events: seq<ChatEvent>) {
    forall i, j :: 0 <= i < j < |events| && events[i].finishReason != "" ==> events[j].delta.text.answer == ""
  }

  ghost predicate AllQuiet(events: seq<ChatEvent>) {
    forall i :: 0 <= i < |events| ==> events[i].delta.text.answer == ""
  }

  lemma {:induction false} TextOfUnsplit(id: string, model: string, events: seq<ChatEvent>)
    ensures Relayed(None, id, model, events) == events
    decreases |events|
  {
    if events != [] {
      TextOfUnsplit(events[0].id, events[0].model, events[1..]);
      assert events == [events[0]] + events[1..];
    }
  }

  /** Once the parser is empty and no content comes, only separated text is sent on. */
  lemma {:induction false} QuietTail(s: Splitter, id: string, model: string, events: seq<ChatEvent>)
    requires s.Settled() && s.held == ""
    requires AllQuiet(events[..FirstSeparated(events)])
    ensures TextOf(Relayed(Some(s), id, model, events)) == TextOf(events[FirstSeparated(events)..])
    decreases |events|
  {
    var k := FirstSeparated(events);
    assert FlushOf(s) == NOTHING;
    if events == [] {
    } else if k == 0 {
      TextOfUnsplit(events[0].id, events[0].model, events[1..]);
      ThenUnit(events[0].delta.text);
      RelayedFirst(Some(s), id, model, events);
      assert events[0..] == events;
    } else {
      var rest := events[1..];
      assert events[..k][0] == events[0];
      assert Relay(Some(s), events[0]) == (Some(s), events[0]) by {
        ThenUnit(NOTHING);
      }
      assert events[k..] == rest[k - 1..];
      assert rest[..k - 1] == events[..k][1..];
      QuietTail(s, events[0].id, events[0].model, rest);
      RelayedFirst(Some(s), id, model, events);
      ThenUnit(TextOf(rest[k - 1..]));
    }
  }

  lemma RelayedFirst(split: Option<Splitter>, id: string, model: string, events: seq<ChatEvent>)
    requires split.Some? ==> !split.value.fallback.Deciding?
    requires events != []
    ensures var (s, e) := Relay(split, events[0]);
      TextOf(Relayed(split, id, model, events)) == e.delta.text.Then(TextOf(Relayed(s, e.id, e.model, events[1..])))
  {
    var (s, e) := Relay(split, events[0]);
    var rest := Relayed(s, e.id, e.model, events[1..]);
    assert ([e] + rest)[1..] == rest;
  }

  /** Empty chunks after the last content change nothing. */
  lemma {:induction false} EmptyChunks(s: Splitter, chunks: seq<string>)
    requires s.Settled() && forall i :: 0 <= i < |chunks| ==> chunks[i] == ""
    ensures Feed(s, chunks) == (s, NOTHING)
    decreases |chunks|
  {
    if chunks != [] {
      assert s.held + "" == s.held;
      DrainIdle(s);
      EmptyChunks(s, chunks[1..]);
      ThenUnit(NOTHING);
    }
  }

  lemma {:induction false} QuietContents(events: seq<ChatEvent>)
    requires AllQuiet(events)
    ensures forall i :: 0 <= i < |events| ==> Contents(events)[i] == ""
  {
    if events != [] {
      QuietContents(events[1..]);
    }
  }

  /** The streamed text is what the parser makes of the content before the backend
      separates reasoning, followed by everything after that, unchanged. */
  lemma {:induction false} RelayedText(s: Splitter, id: string, model: string, events: seq<ChatEvent>)
    requires s.Settled()
    requires ContentEnds(events[..FirstSeparated(events)])
    ensures var k := FirstSeparated(events);
      TextOf(Relayed(Some(s), id, model, events)) == Outcome(s, Contents(events[..k])).Then(TextOf(events[k..]))
    decreases |events|, 1
  {
    var k := FirstSeparated(events);
    if events == [] {
      assert Outcome(s, []) == NOTHING.Then(FlushOf(s));
      ThenUnit(FlushOf(s));
      var last := LastEvent(Some(s), id, model);
      if last != [] { assert last[1..] == []; }
    } else {
      RelayedFirst(Some(s), id, model, events);
      if k == 0 {
        assert events[..0] == [] && events[0..] == events;
        TextOfUnsplit(events[0].id, events[0].model, events[1..]);
        ThenUnit(FlushOf(s));
        ThenAssociates(FlushOf(s), events[0].delta.text, TextOf(events[1..]));
      } else {
        RelayedStep(s, id, model, events);
      }
    }
  }

  lemma RelayedStep(s: Splitter, id: string, model: string, events: seq<ChatEvent>)
    requires s.Settled() && events != [] && FirstSeparated(events) > 0
    requires ContentEnds(events[..FirstSeparated(events)])
    ensures var k := FirstSeparated(events);
      TextOf(Relayed(Some(s), id, model, events)) == Outcome(s, Contents(events[..k])).Then(TextOf(events[k..]))
    decreases |events|, 0
  {
    var k := FirstSeparated(events);
    var e, rest := events[0], events[1..];
    var c := e.delta.text.answer;
    var (s1, p1) := PushOf(s, c);
    PushSettles(s, c);
    ContentsPrefix(events, k);
    var later := Contents(rest[..k - 1]);
    OutcomeOfFirst(s, Contents(events[..k]));
    RelayedFirst(Some(s), id, model, events);
    RelayContent(s, e);
    var tail := TextOf(events[k..]);
    if e.finishReason == "" {
      RelayedText(s1, e.id, e.model, rest);
      ThenAssociates(p1, Outcome(s1, later), tail);
    } else {
      NothingAfterFinish(events[..k]);
      FinishedTail(s1, e.id, e.model, rest);
    }
  }

  /** After the finish reason the parser is empty and stays so. */
  lemma FinishedTail(s1: Splitter, id: string, model: string, rest: seq<ChatEvent>)
    requires s1.Settled() && AllQuiet(rest[..FirstSeparated(rest)])
    ensures var k := FirstSeparated(rest);
      && TextOf(Relayed(Some(s1.(held := "")), id, model, rest)) == TextOf(rest[k..])
      && Outcome(s1, Contents(rest[..k])) == FlushOf(s1)
  {
    QuietTail(s1.(held := ""), id, model, rest);
    QuietContents(rest[..FirstSeparated(rest)]);
    EmptyChunks(s1, Contents(rest[..FirstSeparated(rest)]));
    ThenUnit(FlushOf(s1));
  }

  lemma ContentsPrefix(events: seq<ChatEvent>, k: nat)
    requires 0 < k <= |events| && k == FirstSeparated(events)
    ensures var rest := events[1..];
      && FirstSeparated(rest) == k - 1
      && rest[..k - 1] == events[..k][1..] && events[k..] == rest[k - 1..]
      && Contents(events[..k]) == [events[0].delta.text.answer] + Contents(rest[..k - 1])
      && Contents(events[..k])[1..] == Contents(rest[..k - 1])
  {
    var rest := events[1..];
    assert rest[..k - 1] == events[..k][1..];
  }

  /** An event without separated reasoning goes through the parser whole. */
  lemma RelayContent(s: Splitter, e: ChatEvent)
    requires s.Settled() && e.delta.text.reasoning == ""
    ensures var (s1, p1) := PushOf(s, e.delta.text.answer);
      Relay(Some(s), e) == if e.finishReason == "" then (Some(s1), WithText(e, p1))
                           else (Some(s1.(held := "")), WithText(e, p1.Then(FlushOf(s1))))
  {
    if e.delta.text.answer == "" {
      assert s.held + "" == s.held;
      DrainIdle(s);
    }
  }

  lemma NothingAfterFinish(events: seq<ChatEvent>)
    requires ContentEnds(events) && events != [] && events[0].finishReason != ""
    ensures AllQuiet(events[1..])
  {
  }

  /** Text that is followed by the same text is the same text. */
  lemma ThenCancels(a: Parts, b: Parts, c: Parts)
    ensures a.Then(c) == b.Then(c) <==> a == b
  {
    if a.Then(c) == b.Then(c) {
      CatCancels(a.reasoning, b.reasoning, c.reasoning);
      CatCancels(a.answer, b.answer, c.answer);
    }
  }

  lemma CatCancels(a: string, b: string, c: string)
    requires a + c == b + c
    ensures a == b
  {
    assert |a| == |b|;
    assert a == (a + c)[..|a|] && b == (b + c)[..|b|];
  }

  /** For every sequence of chunks that sends no content after the finish reason:
      what the consumer receives is the declared split of all content sent before
      the backend separates reasoning itself, followed by everything from there on
      unchanged, if and only if no chunk boundary of that content is cut too late. */
  lemma StreamAgreesWithWhole(fallback: Phase, events: seq<ChatEvent>)
    requires !fallback.Deciding?
    requires ContentEnds(events[..FirstSeparated(events)])
    ensures var k := FirstSeparated(events);
      var chunks := Contents(events[..k]);
      TextOf(Relayed(Some(Fresh(fallback)), "", "", events))
        == SplitReply(fallback, Concat(chunks)).Then(TextOf(events[k..]))
      <==> !SomeCutTooLate(Fresh(fallback), chunks)
  {
    var k := FirstSeparated(events);
    var chunks := Contents(events[..k]);
    RelayedText(Fresh(fallback), "", "", events);
    StreamedAgreesWithSplit(fallback, chunks);
    ThenCancels(Streamed(fallback, chunks), SplitReply(fallback, Concat(chunks)), TextOf(events[k..]));
  }

  /** No chunk boundary is cut too late for the request's parser, if it has one. */
  ghost predicate CutInTime(c: Client, thinking: Option<bool>, chunks: seq<string>) {
    var split := SplitterFor(c, thinking);
    split.Some? ==> !SomeCutTooLate(split.value, chunks)
  }

  /** A backend that never separates reasoning: for every request and parser the stream adds
      up to what splitMessage makes of the whole message, if and only if no chunk boundary
      is cut too late. */
  lemma StreamAgreesWithSplitMessage(c: Client, thinking: Option<bool>, events: seq<ChatEvent>)
    requires FirstSeparated(events) == |events| && ContentEnds(events)
    ensures TextOf(Relayed(SplitterFor(c, thinking), "", "", events))
              == SplitMessageOf(c, thinking, Parts("", Concat(Contents(events))))
            <==> CutInTime(c, thinking, Contents(events))
  {
    var split := SplitterFor(c, thinking);
    if split.None? {
      TextOfUnsplit("", "", events);
      UnseparatedText(events);
    } else {
      UnseparatedAgrees(split.value.fallback, events);
    }
  }

  lemma UnseparatedAgrees(fallback: Phase, events: seq<ChatEvent>)
    requires !fallback.Deciding? && FirstSeparated(events) == |events| && ContentEnds(events)
    ensures TextOf(Relayed(Some(Fresh(fallback)), "", "", events)) == SplitReply(fallback, Concat(Contents(events)))
            <==> !SomeCutTooLate(Fresh(fallback), Contents(events))
  {
    assert events[..|events|] == events && events[|events|..] == [];
    StreamAgreesWithWhole(fallback, events);
    ThenUnit(SplitReply(fallback, Concat(Contents(events))));
  }

  /** In particular when at most 58 blanks lead the message. */
  lemma ShortLeadIsCutInTime(c: Client, thinking: Option<bool>, chunks: seq<string>)
    requires var text := Concat(chunks); |text| - |TrimLeft(text, BLANKS)| <= 58
    ensures CutInTime(c, thinking, chunks)
  {
    var split := SplitterFor(c, thinking);
    if split.Some? {
      ShortLeadAlwaysAgrees(split.value.fallback, chunks);
      StreamedAgreesWithSplit(split.value.fallback, chunks);
    }
  }

  // ---------------------------------------------------------------- content after the finish reason

  /** Where the parser stands after the finishing event: at the phase it has reached, with
      nothing held. */
  function AfterFinish(s: Splitter, chunks: seq<string>): (r: Splitter)
    requires !s.fallback.Deciding?
  {
    Feed(s, chunks).0.(held := "")
  }

  /** What the events after a finishing one come to. */
  function Remainder(s: Splitter, chunks: seq<string>, e: ChatEvent, after: seq<ChatEvent>): (r: Parts)
    requires !s.fallback.Deciding?
  {
    TextOf(Relayed(Some(AfterFinish(s, chunks)), e.id, e.model, after))
  }

  /** Whatever comes after the finish reason: everything up to it, held text included, is
      out with it, and the rest is parsed on from the phase reached. No byte is lost. */
  lemma {:induction false} FinishReleasesAll(s: Splitter, id: string, model: string, before: seq<ChatEvent>, e: ChatEvent, after: seq<ChatEvent>)
    requires s.Settled() && e.finishReason != "" && e.delta.text.reasoning == ""
    requires forall i :: 0 <= i < |before| ==> before[i].finishReason == "" && before[i].delta.text.reasoning == ""
    ensures var chunks := Contents(before) + [e.delta.text.answer];
      TextOf(Relayed(Some(s), id, model, before + ([e] + after))) == Outcome(s, chunks).Then(Remainder(s, chunks, e, after))
    decreases |before|
  {
    if before == [] {
      assert before + ([e] + after) == [e] + after && Contents(before) + [e.delta.text.answer] == [e.delta.text.answer];
      FinishesFirst(s, id, model, e, after);
    } else {
      var first, rest := before[0], before[1..];
      var tail := rest + ([e] + after);
      assert before + ([e] + after) == [first] + tail;
      var (s1, p1) := PushOf(s, first.delta.text.answer);
      PushSettles(s, first.delta.text.answer);
      ContentFirst(s, id, model, first, tail);
      FinishReleasesAll(s1, first.id, first.model, rest, e, after);
      var chunks := Contents(rest) + [e.delta.text.answer];
      assert Contents(before) + [e.delta.text.answer] == [first.delta.text.answer] + chunks;
      OneChunkMore(s, first.delta.text.answer, chunks);
      ThenAssociates(p1, Outcome(s1, chunks), Remainder(s1, chunks, e, after));
    }
  }

  /** An event that neither finishes nor separates is a push. */
  lemma ContentFirst(s: Splitter, id: string, model: string, e: ChatEvent, tail: seq<ChatEvent>)
    requires s.Settled() && e.finishReason == "" && e.delta.text.reasoning == ""
    ensures var (s1, p1) := PushOf(s, e.delta.text.answer);
      TextOf(Relayed(Some(s), id, model, [e] + tail)) == p1.Then(TextOf(Relayed(Some(s1), e.id, e.model, tail)))
  {
    RelayedFirst(Some(s), id, model, [e] + tail);
    assert ([e] + tail)[1..] == tail;
    RelayContent(s, e);
  }

  lemma FinishesFirst(s: Splitter, id: string, model: string, e: ChatEvent, after: seq<ChatEvent>)
    requires s.Settled() && e.finishReason != "" && e.delta.text.reasoning == ""
    ensures var chunks := [e.delta.text.answer];
      TextOf(Relayed(Some(s), id, model, [e] + after)) == Outcome(s, chunks).Then(Remainder(s, chunks, e, after))
  {
    RelayedFirst(Some(s), id, model, [e] + after);
    assert ([e] + after)[1..] == after;
    RelayContent(s, e);
    FinishNow(s, e.delta.text.answer);
  }

  lemma OneChunkMore(s: Splitter, chunk: string, chunks: seq<string>)
    requires !s.fallback.Deciding?
    ensures var (s1, p1) := PushOf(s, chunk);
      Outcome(s, [chunk] + chunks) == p1.Then(Outcome(s1, chunks)) && AfterFinish(s, [chunk] + chunks) == AfterFinish(s1, chunks)
  {
    assert ([chunk] + chunks)[1..] == chunks;
    OutcomeOfFirst(s, [chunk] + chunks);
  }

  lemma FinishNow(s: Splitter, chunk: string)
    requires !s.fallback.Deciding?
    ensures var (s1, p1) := PushOf(s, chunk);
      Outcome(s, [chunk]) == p1.Then(FlushOf(s1)) && AfterFinish(s, [chunk]) == s1.(held := "")
  {
    var (s1, p1) := PushOf(s, chunk);
    assert [chunk][1..] == [] && Feed(s1, []) == (s1, NOTHING);
    ThenUnit(p1);
  }

  lemma {:induction false} UnseparatedText(events: seq<ChatEvent>)
    requires forall i :: 0 <= i < |events| ==> events[i].delta.text.reasoning == ""
    ensures TextOf(events) == Parts("", Concat(Contents(events)))
  {
    if events != [] {
      UnseparatedText(events[1..]);
      assert Contents(events)[1..] == Contents(events[1..]);
    }
  }

  /** One event per chunk, with every field but the text as the chunk had it; at
      most one event is added, at the end, and it carries text only. */
  lemma {:induction false} RelayedKeepsTheRest(split: Option<Splitter>, id: string, model: string, events: seq<ChatEvent>)
    requires split.Some? ==> !split.value.fallback.Deciding?
    ensures var sent := Relayed(split, id, model, events);
      && |events| <= |sent| <= |events| + 1
      && (forall i :: 0 <= i < |events| ==> WithText(sent[i], events[i].delta.text) == events[i])
      && (|sent| > |events| ==>
            var last := sent[|events|];
            && last.delta == Delta("", last.delta.text, []) && last.delta.text != NOTHING
            && last.finishReason == "" && last.usage == None
            && (events != [] ==> last.id == events[|events| - 1].id && last.model == events[|events| - 1].model))
    decreases |events|
  {
    if events != [] {
      var (s, e) := Relay(split, events[0]);
      RelayedKeepsTheRest(s, e.id, e.model, events[1..]);
    }
  }

  /** The decoder loop, on frames that all decode and a consumer that stays, is
      the relay of their chunks. */
  lemma {:induction false} DecodedIsRelayed(split: Option<Splitter>, id: string, model: string, frames: seq<string>,
                                            decode: string -> Option<Chunk>, chunks: seq<Chunk>, patience: nat)
    requires split.Some? ==> !split.value.fallback.Deciding?
    requires |chunks| == |frames| < patience
    requires forall i :: 0 <= i < |frames| ==> frames[i] != "" && decode(frames[i]) == Some(chunks[i])
    ensures Decoded(split, id, model, frames, true, decode, patience)
            == (Relayed(split, id, model, EventsFromChunks(chunks)), Normal)
    decreases |frames|
  {
    if frames != [] {
      var (s, e) := Relay(split, EventFromChunk(chunks[0]));
      DecodedIsRelayed(s, e.id, e.model, frames[1..], decode, chunks[1..], patience - 1);
    }
  }

  // ---------------------------------------------------------------- how a stream ends

  /** The first frame with data that does not decode, or the length. */
  function FailsAt(frames: seq<string>, decode: string -> Option<Chunk>): (n: nat)
    ensures n <= |frames|
    ensures forall i :: 0 <= i < n ==> frames[i] == "" || decode(frames[i]).Some?
    ensures n < |frames| ==> frames[n] != "" && decode(frames[n]).None?
  {
    if frames == [] || (frames[0] != "" && decode(frames[0]).None?) then 0 else 1 + FailsAt(frames[1..], decode)
  }

  /** The chunks of the frames that carry one; a frame without data carries none. */
  function ChunksOf(frames: seq<string>, decode: string -> Option<Chunk>): (r: seq<Chunk>)
    requires forall i :: 0 <= i < |frames| ==> frames[i] == "" || decode(frames[i]).Some?
  {
    if frames == [] then []
    else (if frames[0] == "" then [] else [decode(frames[0]).value]) + ChunksOf(frames[1..], decode)
  }

  /** What is sent for chunks, without the last event. */
  function Sent(split: Option<Splitter>, chunks: seq<Chunk>): (r: seq<ChatEvent>)
    requires split.Some? ==> !split.value.fallback.Deciding?
    ensures |r| == |chunks|
    decreases |chunks|
  {
    if chunks == [] then []
    else
      var (s, e) := Relay(split, EventFromChunk(chunks[0]));
      [e] + Sent(s, chunks[1..])
  }

  /** Every frame decodes and the input ends cleanly: everything held is out at the end. */
  lemma {:induction false} EndsNormally(split: Option<Splitter>, id: string, model: string, frames: seq<string>,
                                        decode: string -> Option<Chunk>, patience: nat)
    requires split.Some? ==> !split.value.fallback.Deciding?
    requires patience > |frames| && FailsAt(frames, decode) == |frames|
    ensures Decoded(split, id, model, frames, true, decode, patience)
            == (Relayed(split, id, model, EventsFromChunks(ChunksOf(frames, decode))), Normal)
    decreases |frames|
  {
    if frames != [] {
      var rest := ChunksOf(frames[1..], decode);
      if frames[0] == "" {
        EndsNormally(split, id, model, frames[1..], decode, patience);
        Unit(rest);
      } else {
        var c := decode(frames[0]).value;
        var (s, e) := Relay(split, EventFromChunk(c));
        EndsNormally(s, e.id, e.model, frames[1..], decode, patience - 1);
        OneChunk(split, id, model, c, rest);
      }
    }
  }

  /** Something fails: what came before it has been sent. */
  lemma {:induction false} EndsInFailure(split: Option<Splitter>, id: string, model: string, frames: seq<string>, clean: bool,
                                         decode: string -> Option<Chunk>, patience: nat)
    requires split.Some? ==> !split.value.fallback.Deciding?
    requires patience > |frames| && (FailsAt(frames, decode) < |frames| || !clean)
    ensures Decoded(split, id, model, frames, clean, decode, patience)
            == (Sent(split, ChunksOf(frames[..FailsAt(frames, decode)], decode)), Failed)
    decreases |frames|
  {
    var n := FailsAt(frames, decode);
    if n == 0 {
      assert frames[..0] == [];
    } else {
      var front := frames[1..][..n - 1];
      assert frames[..n] == [frames[0]] + front && frames[..n][1..] == front;
      var rest := ChunksOf(front, decode);
      if frames[0] == "" {
        EndsInFailure(split, id, model, frames[1..], clean, decode, patience);
        Unit(rest);
      } else {
        var c := decode(frames[0]).value;
        var (s, e) := Relay(split, EventFromChunk(c));
        EndsInFailure(s, e.id, e.model, frames[1..], clean, decode, patience - 1);
        OneChunk(split, id, model, c, rest);
      }
    }
  }

  /** For a consumer that stays: the stream ends normally exactly when every frame with data
      decodes and the input ends cleanly, and fails otherwise. */
  lemma EndsNormallyIff(split: Option<Splitter>, frames: seq<string>, clean: bool, decode: string -> Option<Chunk>, patience: nat)
    requires split.Some? ==> !split.value.fallback.Deciding?
    requires patience > |frames|
    ensures Decoded(split, "", "", frames, clean, decode, patience).1
            == if clean && forall i :: 0 <= i < |frames| ==> frames[i] == "" || decode(frames[i]).Some? then Normal else Failed
  {
    var n := FailsAt(frames, decode);
    if n == |frames| && clean {
      EndsNormally(split, "", "", frames, decode, patience);
    } else {
      EndsInFailure(split, "", "", frames, clean, decode, patience);
      assert n < |frames| ==> !(frames[n] == "" || decode(frames[n]).Some?);
    }
  }

  lemma OneChunk(split: Option<Splitter>, id: string, model: string, c: Chunk, rest: seq<Chunk>)
    requires split.Some? ==> !split.value.fallback.Deciding?
    ensures var (s, e) := Relay(split, EventFromChunk(c));
      && Sent(split, [c] + rest) == [e] + Sent(s, rest)
      && Relayed(split, id, model, EventsFromChunks([c] + rest)) == [e] + Relayed(s, e.id, e.model, EventsFromChunks(rest))
  {
    assert ([c] + rest)[1..] == rest;
    var events := EventsFromChunks([c] + rest);
    assert events == [EventFromChunk(c)] + EventsFromChunks(rest);
    assert events[1..] == EventsFromChunks(rest);
  }

  /** A consumer that closes early gets the first events of those it would have got, and is
      gone exactly when there were more. */
  lemma {:induction false} PatienceCuts(split: Option<Splitter>, id: string, model: string, frames: seq<string>, clean: bool,
                                        decode: string -> Option<Chunk>, patience: nat, long: nat)
    requires split.Some? ==> !split.value.fallback.Deciding?
    requires long > |frames|
    ensures var full := Decoded(split, id, model, frames, clean, decode, long);
      Decoded(split, id, model, frames, clean, decode, patience)
      == if |full.0| <= patience then full else (full.0[..patience], ConsumerGone)
    decreases |frames|
  {
    if frames != [] {
      if frames[0] == "" {
        PatienceCuts(split, id, model, frames[1..], clean, decode, patience, long);
      } else if decode(frames[0]).Some? && patience > 0 {
        var (s, e) := Relay(split, EventFromChunk(decode(frames[0]).value));
        PatienceCuts(s, e.id, e.model, frames[1..], clean, decode, patience - 1, long - 1);
        var rest := Decoded(s, e.id, e.model, frames[1..], clean, decode, long - 1).0;
        if |rest| > patience - 1 { assert ([e] + rest)[..patience] == [e] + rest[..patience - 1]; }
      }
    }
  }

  function EventsFromChunks(chunks: seq<Chunk>): (r: seq<ChatEvent>)
    ensures |r| == |chunks|
  {
    if chunks == [] then [] else [EventFromChunk(chunks[0])] + EventsFromChunks(chunks[1..])
  }
}
