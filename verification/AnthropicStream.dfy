/**
 The Anthropic Messages adapter: the event loop of
 common/runtime/anthropic/stream.go, which turns Messages stream events into
 chat events, and toChatResponse of common/runtime/anthropic/convert.go, which
 converts a complete message. The theorem says exactly when a consumer that adds
 up the streamed events ends with what the complete message converts to.
 */
module AnthropicStream {
  import opened Options
  import opened Text

  // ---------------------------------------------------------------- values

  datatype Usage = Usage(input: int, output: int, cacheCreation: int, cacheRead: int) {
    function Prompt(): int { input + cacheCreation + cacheRead }
  }

  datatype Totals = Totals(prompt: int, completion: int, total: int)

  function TotalsOf(prompt: int, completion: int): Totals { Totals(prompt, completion, prompt + completion) }

  datatype ReasoningBlock = SignedThinking(thinking: string, signature: string) | RedactedThinking(data: string)

  /** One content block of a complete message. */
  datatype Block =
    | TextBlock(text: string)
    | ThinkingBlock(thinking: string, signature: string)
    | RedactedBlock(data: string)
    | ToolBlock(id: string, name: string, input: string)
    | OtherBlock

  datatype Message = Message(id: string, model: string, content: seq<Block>, stopReason: string, usage: Usage)

  datatype ToolCall = ToolCall(id: string, kind: string, name: string, arguments: string)

  /** A reply as a caller sees it. `open` is the reasoning not yet sealed by a
      signature; a complete message leaves none. */
  datatype Reply = Reply(id: string, model: string, role: string, content: string, reasoning: string, open: string,
                         blocks: seq<ReasoningBlock>, calls: seq<ToolCall>, finish: string, usage: Totals)

  function FinishReason(stop: string): (r: string) {
    match stop
    case "" => ""
    case "max_tokens" => "length"
    case "model_context_window_exceeded" => "length"
    case "tool_use" => "tool_calls"
    case "refusal" => "content_filter"
    case _ => "stop"
  }

  // ---------------------------------------------------------------- a complete message

  function WithBlock(r: Reply, b: Block): (r': Reply) {
    match b
    case TextBlock(text) => r.(content := r.content + text)
    case ThinkingBlock(thinking, signature) =>
      r.(reasoning := r.reasoning + thinking, blocks := r.blocks + [SignedThinking(thinking, signature)])
    case RedactedBlock(data) => r.(blocks := r.blocks + [RedactedThinking(data)])
    case ToolBlock(id, name, input) =>
      r.(calls := r.calls + [ToolCall(id, "function", name, if input == "" then "{}" else input)])
    case OtherBlock => r
  }

  function WithBlocks(r: Reply, content: seq<Block>): (r': Reply)
    decreases |content|
  {
    if content == [] then r else WithBlocks(WithBlock(r, content[0]), content[1..])
  }

  const NO_USAGE := Totals(0, 0, 0)

  function Began(id: string, model: string): Reply { Reply(id, model, "assistant", "", "", "", [], [], "", NO_USAGE) }

  function ToChatResponse(m: Message): (r: Reply) {
    WithBlocks(Began(m.id, m.model), m.content).(
      finish := FinishReason(m.stopReason), usage := TotalsOf(m.usage.Prompt(), m.usage.output))
  }

  // ---------------------------------------------------------------- the stream

  datatype BlockStart = TextStart(text: string) | ThinkingStart(thinking: string) | RedactedStart(data: string)
                      | ToolStart(id: string, name: string) | OtherStart
  datatype BlockDelta = TextDelta(text: string) | ThinkingDelta(thinking: string) | SignatureDelta(signature: string)
                      | InputDelta(json: string) | OtherDelta

  datatype StreamEvent =
    | MessageStart(id: string, model: string, usage: Usage)
    | ContentBlockStart(index: int, start: BlockStart)
    | ContentBlockDelta(index: int, delta: BlockDelta)
    | ContentBlockStop(index: int)
    | MessageDelta(stopReason: string, counts: Option<Usage>)
    | MessageStop
    | StreamError
    | OtherEvent

  datatype ToolCallDelta = ToolCallDelta(index: nat, id: string, kind: string, name: string, arguments: string)

  datatype ChatEvent = ChatEvent(id: string, model: string, role: string, content: string, reasoning: string,
                                 block: Option<ReasoningBlock>, calls: seq<ToolCallDelta>, finish: string, usage: Option<Totals>)

  /** The decoder's variables. */
  datatype Decoder = Decoder(id: string, model: string, input: Usage, tools: map<int, nat>, hasArgs: set<int>) {
    function Blank(): ChatEvent { ChatEvent(id, model, "", "", "", None, [], "", None) }
  }

  const FRESH := Decoder("", "", Usage(0, 0, 0, 0), map[], {})

  datatype Step = Skip | Emit(decoder: Decoder, event: ChatEvent) | Finish | Fail

  function OnStart(d: Decoder, index: int, start: BlockStart): (r: Step) {
    match start
    case TextStart(text) => if text == "" then Skip else Emit(d, d.Blank().(content := text))
    case ThinkingStart(thinking) => if thinking == "" then Skip else Emit(d, d.Blank().(reasoning := thinking))
    case RedactedStart(data) => if data == "" then Skip else Emit(d, d.Blank().(block := Some(RedactedThinking(data))))
    case ToolStart(id, name) =>
      var n := |d.tools|;
      Emit(d.(tools := d.tools[index := n]), d.Blank().(calls := [ToolCallDelta(n, id, "function", name, "")]))
    case OtherStart => Skip
  }

  function OnDelta(d: Decoder, index: int, delta: BlockDelta): (r: Step) {
    match delta
    case TextDelta(text) => Emit(d, d.Blank().(content := text))
    case ThinkingDelta(thinking) => if thinking == "" then Skip else Emit(d, d.Blank().(reasoning := thinking))
    case SignatureDelta(signature) =>
      if signature == "" then Skip else Emit(d, d.Blank().(block := Some(SignedThinking("", signature))))
    case InputDelta(json) =>
      if index !in d.tools || json == "" then Skip
      else Emit(d.(hasArgs := d.hasArgs + {index}), d.Blank().(calls := [ToolCallDelta(d.tools[index], "", "", "", json)]))
    case OtherDelta => Skip
  }

  function OnStop(d: Decoder, index: int): (r: Step) {
    if index !in d.tools || index in d.hasArgs then Skip
    else Emit(d.(hasArgs := d.hasArgs + {index}), d.Blank().(calls := [ToolCallDelta(d.tools[index], "", "", "", "{}")]))
  }

  function StepOf(d: Decoder, e: StreamEvent): (r: Step) {
    match e
    case MessageStart(id, model, usage) =>
      var d' := d.(id := id, model := model, input := usage);
      Emit(d', d'.Blank().(role := "assistant"))
    case ContentBlockStart(index, start) => OnStart(d, index, start)
    case ContentBlockDelta(index, delta) => OnDelta(d, index, delta)
    case ContentBlockStop(index) => OnStop(d, index)
    case MessageDelta(stopReason, counts) =>
      var output := if counts.Some? then counts.value.output else 0;
      var input := if counts.Some? && counts.value.Prompt() > 0 then counts.value else d.input;
      Emit(d.(input := input),
           d.Blank().(finish := FinishReason(stopReason), usage := Some(TotalsOf(input.Prompt(), output))))
    case MessageStop => Finish
    case StreamError => Fail
    case OtherEvent => Skip
  }

  datatype Ending = Complete | Broken | ConsumerGone

  /** The event loop: what is sent and how the stream ends, for a consumer that
      closes after `patience` events. A stream that ends before message_stop is broken. */
  function Decoded(d: Decoder, events: seq<StreamEvent>, patience: nat): (r: (seq<ChatEvent>, Ending))
    decreases |events|
  {
    if events == [] then ([], Broken)
    else match StepOf(d, events[0])
      case Finish => ([], Complete)
      case Fail => ([], Broken)
      case Skip => Decoded(d, events[1..], patience)
      case Emit(d', e) =>
        if patience == 0 then ([], ConsumerGone)
        else var rest := Decoded(d', events[1..], patience - 1); ([e] + rest.0, rest.1)
  }

  method DecodeStream(events: seq<StreamEvent>, patience: nat) returns (sent: seq<ChatEvent>, ending: Ending)
    ensures (sent, ending) == Decoded(FRESH, events, patience)
  {
    var d := FRESH;
    sent := [];
    ghost var rest := Decoded(d, events, patience);
    assert events[0..] == events && [] + rest.0 == rest.0;
    for i := 0 to |events|
      invariant |sent| <= patience
      invariant rest == Decoded(d, events[i..], patience - |sent|)
      invariant Decoded(FRESH, events, patience) == (sent + rest.0, rest.1)
    {
      assert events[i..][1..] == events[i + 1..];
      assert sent + [] == sent;
      match StepOf(d, events[i]) {
        case Finish => return sent, Complete;
        case Fail => return sent, Broken;
        case Skip =>
        case Emit(next, event) =>
          if |sent| == patience {
            return sent, ConsumerGone;
          }
          rest := Decoded(next, events[i + 1..], patience - |sent| - 1);
          assert sent + ([event] + rest.0) == (sent + [event]) + rest.0;
          d, sent := next, sent + [event];
      }
    }
    return sent, Broken;
  }

  // ---------------------------------------------------------------- the consumer

  /** Adding a tool-call delta: a new index starts a call, a known one extends it. */
  function AddCall(calls: seq<ToolCall>, d: ToolCallDelta): (r: seq<ToolCall>) {
    if d.index < |calls| then calls[d.index := calls[d.index].(arguments := calls[d.index].arguments + d.arguments)]
    else calls + [ToolCall(d.id, d.kind, d.name, d.arguments)]
  }

  function AddCalls(calls: seq<ToolCall>, ds: seq<ToolCallDelta>): (r: seq<ToolCall>)
    decreases |ds|
  {
    if ds == [] then calls else AddCalls(AddCall(calls, ds[0]), ds[1..])
  }

  /** Adding one chat event to a reply: text is appended, and a signature seals the
      reasoning received since the previous block. */
  function Absorb(r: Reply, e: ChatEvent): (r': Reply) {
    var open := r.open + e.reasoning;
    var sealed := match e.block
      case None => (open, r.blocks)
      case Some(SignedThinking(_, signature)) => ("", r.blocks + [SignedThinking(open, signature)])
      case Some(RedactedThinking(data)) => (open, r.blocks + [RedactedThinking(data)]);
    Reply(e.id, e.model, if e.role != "" then e.role else r.role, r.content + e.content, r.reasoning + e.reasoning,
          sealed.0, sealed.1, AddCalls(r.calls, e.calls),
          if e.finish != "" then e.finish else r.finish, if e.usage.Some? then e.usage.value else r.usage)
  }

  function AbsorbAll(r: Reply, events: seq<ChatEvent>): (r': Reply)
    decreases |events|
  {
    if events == [] then r else AbsorbAll(Absorb(r, events[0]), events[1..])
  }

  const EMPTY_REPLY := Reply("", "", "", "", "", "", [], [], "", NO_USAGE)

  // ---------------------------------------------------------------- cutting a message into events

  /** One content block as it is streamed: what its start carries, and its deltas. */
  datatype Cut =
    | CutText(start: string, deltas: seq<string>)
    | CutThinking(start: string, deltas: seq<string>, signature: string)
    | CutRedacted(data: string)
    | CutTool(id: string, name: string, fragments: seq<string>, input: string)
    | CutOther(fragments: seq<string>)

  /** The complete block the pieces belong to. */
  function Whole(c: Cut): (r: Block) {
    match c
    case CutText(start, deltas) => TextBlock(start + Concat(deltas))
    case CutThinking(start, deltas, signature) => ThinkingBlock(start + Concat(deltas), signature)
    case CutRedacted(data) => RedactedBlock(data)
    case CutTool(id, name, _, input) => ToolBlock(id, name, input)
    case CutOther(_) => OtherBlock
  }

  /** A tool's input is what its fragments spell; one without fragments has none, or `{}`. */
  predicate Fits(c: Cut) {
    c.CutTool? ==> c.input == Concat(c.fragments) || (Concat(c.fragments) == "" && c.input == "{}")
  }

  function StartOf(c: Cut): (r: BlockStart) {
    match c
    case CutText(start, _) => TextStart(start)
    case CutThinking(start, _, _) => ThinkingStart(start)
    case CutRedacted(data) => RedactedStart(data)
    case CutTool(id, name, _, _) => ToolStart(id, name)
    case CutOther(_) => OtherStart
  }

  function Each(index: int, pieces: seq<string>, make: string -> BlockDelta): (r: seq<StreamEvent>) {
    if pieces == [] then [] else [ContentBlockDelta(index, make(pieces[0]))] + Each(index, pieces[1..], make)
  }

  function AsText(s: string): BlockDelta { TextDelta(s) }
  function AsThinking(s: string): BlockDelta { ThinkingDelta(s) }
  function AsInput(s: string): BlockDelta { InputDelta(s) }

  function Middle(c: Cut, index: int): (r: seq<StreamEvent>) {
    match c
    case CutText(_, deltas) => Each(index, deltas, AsText)
    case CutThinking(_, deltas, signature) => Each(index, deltas, AsThinking) + [ContentBlockDelta(index, SignatureDelta(signature))]
    case CutRedacted(_) => []
    case CutTool(_, _, fragments, _) => Each(index, fragments, AsInput)
    case CutOther(fragments) => Each(index, fragments, AsInput)
  }

  function CutEvents(c: Cut, index: int): (r: seq<StreamEvent>) {
    [ContentBlockStart(index, StartOf(c))] + Middle(c, index) + [ContentBlockStop(index)]
  }

  function AllEvents(cuts: seq<Cut>, indices: seq<int>): (r: seq<StreamEvent>)
    requires |cuts| == |indices|
  {
    if cuts == [] then [] else CutEvents(cuts[0], indices[0]) + AllEvents(cuts[1..], indices[1..])
  }

  function Wholes(cuts: seq<Cut>): (r: seq<Block>)
    ensures |r| == |cuts|
  {
    if cuts == [] then [] else [Whole(cuts[0])] + Wholes(cuts[1..])
  }

  /** Events that carry nothing: pings and delta kinds the decoder does not know. */
  predicate Noise(e: StreamEvent) {
    e.OtherEvent? || (e.ContentBlockDelta? && e.delta.OtherDelta?)
  }

  function Denoised(events: seq<StreamEvent>): (r: seq<StreamEvent>) {
    if events == [] then []
    else if Noise(events[0]) then Denoised(events[1..])
    else [events[0]] + Denoised(events[1..])
  }

  lemma {:induction false} NoiseIsSkipped(d: Decoder, events: seq<StreamEvent>, patience: nat)
    ensures Decoded(d, events, patience) == Decoded(d, Denoised(events), patience)
    decreases |events|
  {
    if events != [] {
      var rest := events[1..];
      if !Noise(events[0]) {
        assert ([events[0]] + Denoised(rest))[1..] == Denoised(rest);
      }
      match StepOf(d, events[0])
      case Skip => NoiseIsSkipped(d, rest, patience);
      case Emit(d', _) => if patience > 0 { NoiseIsSkipped(d', rest, patience - 1); }
      case _ =>
    }
  }

  // ---------------------------------------------------------------- feeding events that end nothing

  predicate Running(e: StreamEvent) { !e.MessageStop? && !e.StreamError? }

  /** The decoder and what it has sent after events that do not end the stream. */
  function Feed(d: Decoder, events: seq<StreamEvent>): (r: (Decoder, seq<ChatEvent>))
    decreases |events|
  {
    if events == [] then (d, [])
    else match StepOf(d, events[0])
      case Emit(d', e) => var rest := Feed(d', events[1..]); (rest.0, [e] + rest.1)
      case _ => Feed(d, events[1..])
  }

  lemma {:induction false} FeedAppend(d: Decoder, xs: seq<StreamEvent>, ys: seq<StreamEvent>)
    ensures var a := Feed(d, xs); var b := Feed(a.0, ys);
      Feed(d, xs + ys) == (b.0, a.1 + b.1)
    decreases |xs|
  {
    if xs == [] {
      assert xs + ys == ys && [] + Feed(d, ys).1 == Feed(d, ys).1;
    } else {
      assert (xs + ys)[1..] == xs[1..] + ys;
      match StepOf(d, xs[0])
      case Emit(d', e) =>
        FeedAppend(d', xs[1..], ys);
        var a := Feed(d', xs[1..]);
        assert [e] + (a.1 + Feed(a.0, ys).1) == ([e] + a.1) + Feed(a.0, ys).1;
      case _ => FeedAppend(d, xs[1..], ys);
    }
  }

  lemma {:induction false} AbsorbAppend(r: Reply, xs: seq<ChatEvent>, ys: seq<ChatEvent>)
    ensures AbsorbAll(r, xs + ys) == AbsorbAll(AbsorbAll(r, xs), ys)
    decreases |xs|
  {
    if xs == [] {
      assert xs + ys == ys;
    } else {
      assert (xs + ys)[1..] == xs[1..] + ys;
      AbsorbAppend(Absorb(r, xs[0]), xs[1..], ys);
    }
  }

  /** A decoder and a consumer together: feeding events is absorbing what they send. */
  function Taken(d: Decoder, r: Reply, events: seq<StreamEvent>): (t: (Decoder, Reply)) {
    var fed := Feed(d, events);
    (fed.0, AbsorbAll(r, fed.1))
  }

  lemma TakenAppend(d: Decoder, r: Reply, xs: seq<StreamEvent>, ys: seq<StreamEvent>)
    ensures var t := Taken(d, r, xs); Taken(d, r, xs + ys) == Taken(t.0, t.1, ys)
  {
    FeedAppend(d, xs, ys);
    var a := Feed(d, xs);
    AbsorbAppend(r, a.1, Feed(a.0, ys).1);
  }

  lemma TakenOne(d: Decoder, r: Reply, e: StreamEvent)
    ensures Taken(d, r, [e]) == var step := StepOf(d, e); if step.Emit? then (step.decoder, Absorb(r, step.event)) else (d, r)
  {
    assert [e][1..] == [];
    var step := StepOf(d, e);
    if step.Emit? {
      var out := step.event;
      assert Feed(step.decoder, []) == (step.decoder, []) && [out] + [] == [out];
      assert Feed(d, [e]) == (step.decoder, [out]);
      assert [out][1..] == [];
      assert AbsorbAll(r, [out]) == AbsorbAll(Absorb(r, out), []);
    } else {
      assert Feed(d, [e]) == Feed(d, []);
      assert Feed(d, []) == (d, []);
    }
  }

  // ---------------------------------------------------------------- one block

  /** What the consumer makes of a streamed block. */
  function WithCut(r: Reply, c: Cut): (r': Reply) {
    match c
    case CutText(start, deltas) => r.(content := r.content + (start + Concat(deltas)))
    case CutThinking(start, deltas, signature) =>
      var text := start + Concat(deltas);
      var q := r.(reasoning := r.reasoning + text, open := r.open + text);
      if signature == "" then q else q.(open := "", blocks := r.blocks + [SignedThinking(q.open, signature)])
    case CutRedacted(data) => if data == "" then r else r.(blocks := r.blocks + [RedactedThinking(data)])
    case CutTool(id, name, fragments, _) =>
      r.(calls := r.calls + [ToolCall(id, "function", name, if Concat(fragments) == "" then "{}" else Concat(fragments))])
    case CutOther(_) => r
  }

  /** Decoder and consumer agree on the message and on the number of tool calls. */
  ghost predicate Together(d: Decoder, r: Reply) {
    && d.id == r.id && d.model == r.model
    && |d.tools| == |r.calls|
    && d.hasArgs <= d.tools.Keys
  }

  lemma {:induction false} TextPieces(d: Decoder, r: Reply, index: int, pieces: seq<string>)
    requires Together(d, r)
    ensures Taken(d, r, Each(index, pieces, AsText)) == (d, r.(content := r.content + Concat(pieces)))
    decreases |pieces|
  {
    if pieces == [] {
      assert r.content + "" == r.content;
    } else {
      var e := ContentBlockDelta(index, TextDelta(pieces[0]));
      TakenAppend(d, r, [e], Each(index, pieces[1..], AsText));
      TakenOne(d, r, e);
      var r1 := r.(content := r.content + pieces[0]);
      TextAbsorbed(d, r, pieces[0]);
      TextPieces(d, r1, index, pieces[1..]);
      assert r.content + pieces[0] + Concat(pieces[1..]) == r.content + Concat(pieces);
    }
  }

  lemma TextAbsorbed(d: Decoder, r: Reply, text: string)
    requires Together(d, r)
    ensures Absorb(r, d.Blank().(content := text)) == r.(content := r.content + text)
    ensures Absorb(r, d.Blank().(reasoning := text)) == r.(reasoning := r.reasoning + text, open := r.open + text)
  {
    assert r.content + "" == r.content && r.reasoning + "" == r.reasoning && r.open + "" == r.open;
  }

  lemma {:induction false} ThinkingPieces(d: Decoder, r: Reply, index: int, pieces: seq<string>)
    requires Together(d, r)
    ensures Taken(d, r, Each(index, pieces, AsThinking)) == (d, Thought(r, Concat(pieces)))
    decreases |pieces|
  {
    ThoughtTwice(r, "", "");
    if pieces != [] {
      var p := pieces[0];
      OneThinking(d, r, index, p);
      TakenAppend(d, r, [ContentBlockDelta(index, ThinkingDelta(p))], Each(index, pieces[1..], AsThinking));
      ThinkingPieces(d, Thought(r, p), index, pieces[1..]);
      ThoughtTwice(r, p, Concat(pieces[1..]));
    }
  }

  lemma OneThinking(d: Decoder, r: Reply, index: int, p: string)
    requires Together(d, r)
    ensures Taken(d, r, [ContentBlockDelta(index, ThinkingDelta(p))]) == (d, Thought(r, p))
  {
    TakenOne(d, r, ContentBlockDelta(index, ThinkingDelta(p)));
    TextAbsorbed(d, r, p);
    ThoughtTwice(r, "", "");
  }

  /** Input fragments of a block that is not a tool call of ours are dropped. */
  lemma {:induction false} ForeignPieces(d: Decoder, r: Reply, index: int, pieces: seq<string>)
    requires index !in d.tools
    ensures Taken(d, r, Each(index, pieces, AsInput)) == (d, r)
    decreases |pieces|
  {
    if pieces != [] {
      var e := ContentBlockDelta(index, InputDelta(pieces[0]));
      TakenAppend(d, r, [e], Each(index, pieces[1..], AsInput));
      TakenOne(d, r, e);
      ForeignPieces(d, r, index, pieces[1..]);
    }
  }

  /** The last call's arguments extended. */
  function Extended(r: Reply, n: nat, text: string): (r': Reply)
    requires n < |r.calls|
  {
    r.(calls := r.calls[n := r.calls[n].(arguments := r.calls[n].arguments + text)])
  }

  lemma CallExtended(d: Decoder, r: Reply, n: nat, text: string)
    requires Together(d, r) && n < |r.calls|
    ensures Absorb(r, d.Blank().(calls := [ToolCallDelta(n, "", "", "", text)])) == Extended(r, n, text)
  {
    var delta := ToolCallDelta(n, "", "", "", text);
    assert [delta][1..] == [];
    assert AddCalls(r.calls, [delta]) == AddCall(r.calls, delta);
    assert r.content + "" == r.content && r.reasoning + "" == r.reasoning && r.open + "" == r.open;
  }

  lemma {:induction false} InputPieces(d: Decoder, r: Reply, index: int, pieces: seq<string>)
    requires Together(d, r) && index in d.tools && d.tools[index] < |r.calls|
    ensures Taken(d, r, Each(index, pieces, AsInput))
            == (d.(hasArgs := if Concat(pieces) == "" then d.hasArgs else d.hasArgs + {index}),
                Extended(r, d.tools[index], Concat(pieces)))
    decreases |pieces|
  {
    var n := d.tools[index];
    if pieces == [] {
      ExtendedByNothing(r, n);
    } else {
      var p := pieces[0];
      OneInput(d, r, index, p);
      TakenAppend(d, r, [ContentBlockDelta(index, InputDelta(p))], Each(index, pieces[1..], AsInput));
      var d1 := if p == "" then d else d.(hasArgs := d.hasArgs + {index});
      InputPieces(d1, Extended(r, n, p), index, pieces[1..]);
      ExtendedTwice(r, n, p, Concat(pieces[1..]));
      assert d.hasArgs + {index} + {index} == d.hasArgs + {index};
    }
  }

  lemma OneInput(d: Decoder, r: Reply, index: int, p: string)
    requires Together(d, r) && index in d.tools && d.tools[index] < |r.calls|
    ensures Taken(d, r, [ContentBlockDelta(index, InputDelta(p))])
            == (if p == "" then d else d.(hasArgs := d.hasArgs + {index}), Extended(r, d.tools[index], p))
  {
    TakenOne(d, r, ContentBlockDelta(index, InputDelta(p)));
    CallExtended(d, r, d.tools[index], p);
    if p == "" { ExtendedByNothing(r, d.tools[index]); }
  }

  lemma ExtendedByNothing(r: Reply, n: nat)
    requires n < |r.calls|
    ensures Extended(r, n, "") == r
  {
    assert r.calls[n].arguments + "" == r.calls[n].arguments;
    assert r.calls[n := r.calls[n]] == r.calls;
  }

  lemma ExtendedTwice(r: Reply, n: nat, a: string, b: string)
    requires n < |r.calls|
    ensures Extended(Extended(r, n, a), n, b) == Extended(r, n, a + b)
  {
    assert r.calls[n].arguments + a + b == r.calls[n].arguments + (a + b);
  }

  lemma CutTextTaken(d: Decoder, r: Reply, c: Cut, index: int)
    requires Together(d, r) && c.CutText? && index !in d.tools
    ensures Taken(d, r, CutEvents(c, index)) == (d, WithCut(r, c))
  {
    var first, last := ContentBlockStart(index, TextStart(c.start)), ContentBlockStop(index);
    var r1 := r.(content := r.content + c.start);
    TakenOne(d, r, first);
    TextAbsorbed(d, r, c.start);
    if c.start == "" { assert r.content + "" == r.content; }
    TakenThree(d, r, [first], Middle(c, index), [last]);
    TextPieces(d, r1, index, c.deltas);
    var r2 := r1.(content := r1.content + Concat(c.deltas));
    TakenOne(d, r2, last);
    assert r.content + c.start + Concat(c.deltas) == r.content + (c.start + Concat(c.deltas));
  }

  lemma TakenThree(d: Decoder, r: Reply, a: seq<StreamEvent>, b: seq<StreamEvent>, c: seq<StreamEvent>)
    ensures var t := Taken(d, r, a); var u := Taken(t.0, t.1, b);
      Taken(d, r, a + b + c) == Taken(u.0, u.1, c)
  {
    TakenAppend(d, r, a + b, c);
    TakenAppend(d, r, a, b);
  }

  lemma CutThinkingTaken(d: Decoder, r: Reply, c: Cut, index: int)
    requires Together(d, r) && c.CutThinking? && index !in d.tools
    ensures Taken(d, r, CutEvents(c, index)) == (d, WithCut(r, c))
  {
    var first, last := ContentBlockStart(index, ThinkingStart(c.start)), ContentBlockStop(index);
    ThinkingStarted(d, r, index, c.start);
    TakenThree(d, r, [first], Middle(c, index), [last]);
    ThinkingMiddle(d, r, c, index);
    TakenOne(d, WithCut(r, c), last);
  }

  function Thought(r: Reply, text: string): (r': Reply) {
    r.(reasoning := r.reasoning + text, open := r.open + text)
  }

  lemma ThoughtTwice(r: Reply, a: string, b: string)
    ensures Thought(Thought(r, a), b) == Thought(r, a + b)
    ensures Thought(r, "") == r
  {
    assert r.reasoning + a + b == r.reasoning + (a + b) && r.open + a + b == r.open + (a + b);
    assert r.reasoning + "" == r.reasoning && r.open + "" == r.open;
  }

  lemma ThinkingStarted(d: Decoder, r: Reply, index: int, text: string)
    requires Together(d, r)
    ensures Taken(d, r, [ContentBlockStart(index, ThinkingStart(text))]) == (d, Thought(r, text))
  {
    TakenOne(d, r, ContentBlockStart(index, ThinkingStart(text)));
    TextAbsorbed(d, r, text);
    ThoughtTwice(r, "", "");
  }

  lemma ThinkingMiddle(d: Decoder, r: Reply, c: Cut, index: int)
    requires Together(d, r) && c.CutThinking?
    ensures Taken(d, Thought(r, c.start), Middle(c, index)) == (d, WithCut(r, c))
  {
    var r1, text := Thought(r, c.start), Concat(c.deltas);
    TakenAppend(d, r1, Each(index, c.deltas, AsThinking), [ContentBlockDelta(index, SignatureDelta(c.signature))]);
    ThinkingPieces(d, r1, index, c.deltas);
    ThoughtTwice(r, c.start, text);
    SignatureTaken(d, Thought(r, c.start + text), index, c.signature);
  }

  lemma SignatureTaken(d: Decoder, r: Reply, index: int, signature: string)
    requires Together(d, r)
    ensures Taken(d, r, [ContentBlockDelta(index, SignatureDelta(signature))])
            == (d, if signature == "" then r else r.(open := "", blocks := r.blocks + [SignedThinking(r.open, signature)]))
  {
    TakenOne(d, r, ContentBlockDelta(index, SignatureDelta(signature)));
    assert r.content + "" == r.content && r.reasoning + "" == r.reasoning && r.open + "" == r.open;
  }

  lemma CutRedactedTaken(d: Decoder, r: Reply, c: Cut, index: int)
    requires Together(d, r) && c.CutRedacted? && index !in d.tools
    ensures Taken(d, r, CutEvents(c, index)) == (d, WithCut(r, c))
  {
    var first, last := ContentBlockStart(index, RedactedStart(c.data)), ContentBlockStop(index);
    TakenOne(d, r, first);
    assert r.content + "" == r.content && r.reasoning + "" == r.reasoning && r.open + "" == r.open;
    TakenThree(d, r, [first], [], [last]);
    TakenOne(d, WithCut(r, c), last);
  }

  lemma CutOtherTaken(d: Decoder, r: Reply, c: Cut, index: int)
    requires Together(d, r) && c.CutOther? && index !in d.tools
    ensures Taken(d, r, CutEvents(c, index)) == (d, r)
  {
    var first, last := ContentBlockStart(index, OtherStart), ContentBlockStop(index);
    TakenOne(d, r, first);
    TakenThree(d, r, [first], Middle(c, index), [last]);
    ForeignPieces(d, r, index, c.fragments);
    TakenOne(d, r, last);
  }

  /** A tool call's pieces add up to one call, with `{}` for no input. */
  lemma CutToolTaken(d: Decoder, r: Reply, c: Cut, index: int)
    requires Together(d, r) && c.CutTool? && index !in d.tools
    ensures Taken(d, r, CutEvents(c, index))
            == (d.(tools := d.tools[index := |d.tools|], hasArgs := d.hasArgs + {index}), WithCut(r, c))
  {
    var first, last := ContentBlockStart(index, ToolStart(c.id, c.name)), ContentBlockStop(index);
    var n := |d.tools|;
    var d1 := d.(tools := d.tools[index := n]);
    var r1 := r.(calls := r.calls + [ToolCall(c.id, "function", c.name, "")]);
    ToolStarted(d, r, c.id, c.name, index);
    TakenThree(d, r, [first], Middle(c, index), [last]);
    InputPieces(d1, r1, index, c.fragments);
    var text := Concat(c.fragments);
    var d2 := d1.(hasArgs := if text == "" then d1.hasArgs else d1.hasArgs + {index});
    var r2 := Extended(r1, n, text);
    TakenOne(d2, r2, last);
    CallExtended(d2, r2, n, "{}");
    LastCall(r, ToolCall(c.id, "function", c.name, ""), text);
    if text == "" { LastCall(r, ToolCall(c.id, "function", c.name, ""), "{}"); ExtendedByNothing(r1, n); }
  }

  lemma ToolStarted(d: Decoder, r: Reply, id: string, name: string, index: int)
    requires Together(d, r) && index !in d.tools
    ensures var d1 := d.(tools := d.tools[index := |d.tools|]);
      var r1 := r.(calls := r.calls + [ToolCall(id, "function", name, "")]);
      Taken(d, r, [ContentBlockStart(index, ToolStart(id, name))]) == (d1, r1) && Together(d1, r1)
  {
    TakenOne(d, r, ContentBlockStart(index, ToolStart(id, name)));
    var delta := ToolCallDelta(|d.tools|, id, "function", name, "");
    assert [delta][1..] == [];
    assert AddCalls(r.calls, [delta]) == AddCall(r.calls, delta);
    assert r.content + "" == r.content && r.reasoning + "" == r.reasoning && r.open + "" == r.open;
  }

  lemma LastCall(r: Reply, call: ToolCall, text: string)
    requires call.arguments == ""
    ensures Extended(r.(calls := r.calls + [call]), |r.calls|, text) == r.(calls := r.calls + [call.(arguments := text)])
  {
    assert "" + text == text;
  }

  /** One streamed block, whatever its kind and however it is cut. */
  lemma CutTaken(d: Decoder, r: Reply, c: Cut, index: int)
    requires Together(d, r) && index !in d.tools
    ensures var t := Taken(d, r, CutEvents(c, index));
      && t.1 == WithCut(r, c) && Together(t.0, t.1) && t.0.input == d.input
      && t.0.tools.Keys <= d.tools.Keys + {index}
  {
    match c
    case CutText(_, _) => CutTextTaken(d, r, c, index);
    case CutThinking(_, _, _) => CutThinkingTaken(d, r, c, index);
    case CutRedacted(_) => CutRedactedTaken(d, r, c, index);
    case CutTool(_, _, _, _) => CutToolTaken(d, r, c, index);
    case CutOther(_) => CutOtherTaken(d, r, c, index);
  }

  function WithCuts(r: Reply, cuts: seq<Cut>): (r': Reply)
    decreases |cuts|
  {
    if cuts == [] then r else WithCuts(WithCut(r, cuts[0]), cuts[1..])
  }

  ghost predicate DistinctInts(s: seq<int>) { forall i, j :: 0 <= i < j < |s| ==> s[i] != s[j] }

  lemma {:induction false} CutsTaken(d: Decoder, r: Reply, cuts: seq<Cut>, indices: seq<int>)
    requires |cuts| == |indices| && DistinctInts(indices)
    requires Together(d, r) && forall i :: 0 <= i < |indices| ==> indices[i] !in d.tools
    ensures var t := Taken(d, r, AllEvents(cuts, indices));
      t.1 == WithCuts(r, cuts) && Together(t.0, t.1) && t.0.input == d.input
    decreases |cuts|
  {
    if cuts != [] {
      CutTaken(d, r, cuts[0], indices[0]);
      var t := Taken(d, r, CutEvents(cuts[0], indices[0]));
      TakenAppend(d, r, CutEvents(cuts[0], indices[0]), AllEvents(cuts[1..], indices[1..]));
      CutsTaken(t.0, t.1, cuts[1..], indices[1..]);
    }
  }

  // ---------------------------------------------------------------- the whole message

  /** A message as it is streamed, without noise. */
  datatype Script = Script(id: string, model: string, usage: Usage, cuts: seq<Cut>, indices: seq<int>,
                           stopReason: string, counts: Option<Usage>)

  function EventsOf(s: Script): (r: seq<StreamEvent>)
    requires |s.cuts| == |s.indices|
  {
    [MessageStart(s.id, s.model, s.usage)] + AllEvents(s.cuts, s.indices)
    + [MessageDelta(s.stopReason, s.counts)] + [MessageStop]
  }

  /** The complete message the script streams: its counts are the ones streamed last. */
  function MessageOf(s: Script): (r: Message) {
    var prompt := if s.counts.Some? && s.counts.value.Prompt() > 0 then s.counts.value else s.usage;
    Message(s.id, s.model, Wholes(s.cuts), s.stopReason,
            prompt.(output := if s.counts.Some? then s.counts.value.output else 0))
  }

  lemma {:induction false} FeedThenStop(d: Decoder, events: seq<StreamEvent>, patience: nat)
    requires forall i :: 0 <= i < |events| ==> Running(events[i])
    requires patience >= |events|
    ensures Decoded(d, events + [MessageStop], patience) == (Feed(d, events).1, Complete)
    decreases |events|
  {
    if events == [] {
      assert events + [MessageStop] == [MessageStop];
    } else {
      assert (events + [MessageStop])[1..] == events[1..] + [MessageStop];
      var step := StepOf(d, events[0]);
      if step.Emit? {
        FeedThenStop(step.decoder, events[1..], patience - 1);
      } else {
        FeedThenStop(d, events[1..], patience);
      }
    }
  }

  // ---------------------------------------------------------------- how a stream ends

  /** The first event that ends the stream, or the length. */
  function EndsAt(events: seq<StreamEvent>): (n: nat)
    ensures n <= |events| && (forall i :: 0 <= i < n ==> Running(events[i])) && (n < |events| ==> !Running(events[n]))
  {
    if events == [] || !Running(events[0]) then 0 else 1 + EndsAt(events[1..])
  }

  /** For a consumer that stays: everything before the end is sent, and the stream is
      complete exactly when its first ending event is a message_stop; an error event, or
      no ending at all, breaks it. */
  lemma {:induction false} HowItEnds(d: Decoder, events: seq<StreamEvent>, patience: nat)
    requires patience >= |events|
    ensures var n := EndsAt(events);
      && Decoded(d, events, patience).0 == Feed(d, events[..n]).1
      && (Decoded(d, events, patience).1 == Complete <==> n < |events| && events[n].MessageStop?)
      && (Decoded(d, events, patience).1 != Complete ==> Decoded(d, events, patience).1 == Broken)
    decreases |events|
  {
    var n := EndsAt(events);
    if events != [] && Running(events[0]) {
      var step := StepOf(d, events[0]);
      assert events[..n][1..] == events[1..][..n - 1] && events[..n][0] == events[0];
      RunningGoesOn(d, events[0]);
      if step.Emit? {
        HowItEnds(step.decoder, events[1..], patience - 1);
      } else {
        HowItEnds(d, events[1..], patience);
      }
    } else {
      assert events[..0] == [];
    }
  }

  lemma RunningGoesOn(d: Decoder, e: StreamEvent)
    requires Running(e)
    ensures StepOf(d, e).Skip? || StepOf(d, e).Emit?
  {
  }

  /** The ending, told from the events alone. */
  lemma CompleteIff(d: Decoder, events: seq<StreamEvent>, patience: nat)
    requires patience >= |events|
    ensures Decoded(d, events, patience).1 == Complete
            <==> exists i :: 0 <= i < |events| && events[i].MessageStop?
                   && forall j :: 0 <= j < i ==> !events[j].MessageStop? && !events[j].StreamError?
  {
    HowItEnds(d, events, patience);
    var n := EndsAt(events);
    if i :| 0 <= i < |events| && events[i].MessageStop?
            && forall j :: 0 <= j < i ==> !events[j].MessageStop? && !events[j].StreamError? {
      assert n <= i;
      assert n == i;
    }
  }

  /** A consumer that closes early gets the first events of those it would have got, and is
      gone exactly when there were more. */
  lemma {:induction false} PatienceCuts(d: Decoder, events: seq<StreamEvent>, patience: nat, long: nat)
    requires long >= |events|
    ensures var full := Decoded(d, events, long);
      Decoded(d, events, patience) == if |full.0| <= patience then full else (full.0[..patience], ConsumerGone)
    decreases |events|
  {
    if events != [] {
      var step := StepOf(d, events[0]);
      if step.Skip? {
        PatienceCuts(d, events[1..], patience, long);
      } else if step.Emit? && patience > 0 {
        PatienceCuts(step.decoder, events[1..], patience - 1, long - 1);
        var rest := Decoded(step.decoder, events[1..], long - 1).0;
        if |rest| > patience - 1 { assert ([step.event] + rest)[..patience] == [step.event] + rest[..patience - 1]; }
      }
    }
  }

  lemma {:induction false} EachRuns(index: int, pieces: seq<string>, make: string -> BlockDelta)
    ensures forall i :: 0 <= i < |Each(index, pieces, make)| ==> Running(Each(index, pieces, make)[i])
  {
    if pieces != [] { EachRuns(index, pieces[1..], make); }
  }

  lemma CutRuns(c: Cut, index: int)
    ensures forall i :: 0 <= i < |CutEvents(c, index)| ==> Running(CutEvents(c, index)[i])
  {
    match c
    case CutText(_, deltas) => EachRuns(index, deltas, AsText);
    case CutThinking(_, deltas, _) => EachRuns(index, deltas, AsThinking);
    case CutTool(_, _, fragments, _) => EachRuns(index, fragments, AsInput);
    case CutOther(fragments) => EachRuns(index, fragments, AsInput);
    case _ =>
  }

  lemma {:induction false} AllRun(cuts: seq<Cut>, indices: seq<int>)
    requires |cuts| == |indices|
    ensures forall i :: 0 <= i < |AllEvents(cuts, indices)| ==> Running(AllEvents(cuts, indices)[i])
  {
    if cuts != [] {
      CutRuns(cuts[0], indices[0]);
      AllRun(cuts[1..], indices[1..]);
    }
  }

  /** What the consumer ends with, for every message, cutting and noise. */
  lemma StreamAddsUp(s: Script, events: seq<StreamEvent>, patience: nat)
    requires |s.cuts| == |s.indices| && DistinctInts(s.indices)
    requires Denoised(events) == EventsOf(s) && patience >= |EventsOf(s)|
    ensures var (sent, ending) := Decoded(FRESH, events, patience);
      && ending == Complete
      && AbsorbAll(EMPTY_REPLY, sent) == WithCuts(Began(s.id, s.model), s.cuts).(
           finish := FinishReason(s.stopReason),
           usage := TotalsOf(MessageOf(s).usage.Prompt(), MessageOf(s).usage.output))
  {
    NoiseIsSkipped(FRESH, events, patience);
    var first, last := MessageStart(s.id, s.model, s.usage), MessageDelta(s.stopReason, s.counts);
    var body := [first] + AllEvents(s.cuts, s.indices) + [last];
    AllRun(s.cuts, s.indices);
    FeedThenStop(FRESH, body, patience);
    assert EventsOf(s) == body + [MessageStop];
    var d := FRESH.(id := s.id, model := s.model, input := s.usage);
    var r := Began(s.id, s.model);
    FirstTaken(s);
    TakenThree(FRESH, EMPTY_REPLY, [first], AllEvents(s.cuts, s.indices), [last]);
    CutsTaken(d, r, s.cuts, s.indices);
    var t := Taken(d, r, AllEvents(s.cuts, s.indices));
    CutsKeep(r, s.cuts);
    LastTaken(t.0, t.1, s);
  }

  lemma FirstTaken(s: Script)
    ensures Taken(FRESH, EMPTY_REPLY, [MessageStart(s.id, s.model, s.usage)])
            == (FRESH.(id := s.id, model := s.model, input := s.usage), Began(s.id, s.model))
  {
    TakenOne(FRESH, EMPTY_REPLY, MessageStart(s.id, s.model, s.usage));
  }

  lemma LastTaken(d: Decoder, r: Reply, s: Script)
    requires Together(d, r) && d.input == s.usage && r.finish == ""
    ensures Taken(d, r, [MessageDelta(s.stopReason, s.counts)]).1
            == r.(finish := FinishReason(s.stopReason),
                  usage := TotalsOf(MessageOf(s).usage.Prompt(), MessageOf(s).usage.output))
  {
    TakenOne(d, r, MessageDelta(s.stopReason, s.counts));
    assert r.content + "" == r.content && r.reasoning + "" == r.reasoning && r.open + "" == r.open;
  }

  lemma {:induction false} CutsKeep(r: Reply, cuts: seq<Cut>)
    ensures WithCuts(r, cuts).finish == r.finish
    decreases |cuts|
  {
    if cuts != [] { CutsKeep(WithCut(r, cuts[0]), cuts[1..]); }
  }

  // ---------------------------------------------------------------- agreement

  /** The blocks a client can hold on to: signatures and redacted data are there. */
  predicate Signed(c: Cut) {
    && (c.CutThinking? ==> c.signature != "")
    && (c.CutRedacted? ==> c.data != "")
  }

  lemma {:induction false} SignedAgree(r: Reply, cuts: seq<Cut>)
    requires r.open == "" && forall i :: 0 <= i < |cuts| ==> Fits(cuts[i]) && Signed(cuts[i])
    ensures WithCuts(r, cuts) == WithBlocks(r, Wholes(cuts))
    decreases |cuts|
  {
    if cuts != [] {
      assert Wholes(cuts)[1..] == Wholes(cuts[1..]);
      assert WithCut(r, cuts[0]) == WithBlock(r, Whole(cuts[0])) by { OneAgrees(r, cuts[0]); }
      SignedAgree(WithCut(r, cuts[0]), cuts[1..]);
    }
  }

  lemma OneAgrees(r: Reply, c: Cut)
    requires r.open == "" && Fits(c) && Signed(c)
    ensures WithCut(r, c) == WithBlock(r, Whole(c)) && WithCut(r, c).open == ""
  {
    if c.CutThinking? { assert "" + (c.start + Concat(c.deltas)) == c.start + Concat(c.deltas); }
  }

  /** A block without its signature or data is one block fewer in the stream. */
  lemma {:induction false} BlockCounts(r: Reply, q: Reply, cuts: seq<Cut>)
    ensures |WithCuts(r, cuts).blocks| - |r.blocks| <= |WithBlocks(q, Wholes(cuts)).blocks| - |q.blocks|
    ensures (exists i :: 0 <= i < |cuts| && !Signed(cuts[i])) ==>
      |WithCuts(r, cuts).blocks| - |r.blocks| < |WithBlocks(q, Wholes(cuts)).blocks| - |q.blocks|
    decreases |cuts|
  {
    if cuts != [] {
      assert Wholes(cuts)[1..] == Wholes(cuts[1..]);
      BlockCounts(WithCut(r, cuts[0]), WithBlock(q, Whole(cuts[0])), cuts[1..]);
      if i :| 0 <= i < |cuts| && !Signed(cuts[i]) {
        if i > 0 { assert !Signed(cuts[1..][i - 1]); }
      }
    }
  }

  /** For every message, every way of cutting its blocks into deltas and any noise in
      between: the consumer of the stream ends with exactly what toChatResponse makes
      of the complete message — content, reasoning, signed blocks, tool calls, finish
      reason and token totals — if and only if every thinking block carries a signature
      and every redacted block its data. */
  lemma StreamAgreesWithMessage(s: Script, events: seq<StreamEvent>, patience: nat)
    requires |s.cuts| == |s.indices| && DistinctInts(s.indices)
    requires forall i :: 0 <= i < |s.cuts| ==> Fits(s.cuts[i])
    requires Denoised(events) == EventsOf(s) && patience >= |EventsOf(s)|
    ensures Decoded(FRESH, events, patience).1 == Complete
    ensures AbsorbAll(EMPTY_REPLY, Decoded(FRESH, events, patience).0) == ToChatResponse(MessageOf(s))
            <==> forall i :: 0 <= i < |s.cuts| ==> Signed(s.cuts[i])
  {
    StreamAddsUp(s, events, patience);
    var r := Began(s.id, s.model);
    if forall i :: 0 <= i < |s.cuts| ==> Signed(s.cuts[i]) {
      SignedAgree(r, s.cuts);
    } else {
      BlockCounts(r, r, s.cuts);
    }
  }

  lemma {:induction false} QuietStays(events: seq<StreamEvent>)
    requires forall i :: 0 <= i < |events| ==> !Noise(events[i])
    ensures Denoised(events) == events
  {
    if events != [] {
      QuietStays(events[1..]);
      assert events == [events[0]] + events[1..];
    }
  }

  /** A message with one thinking block that was never signed. */
  const UNSIGNED := Script("msg_1", "m", Usage(1, 0, 0, 0), [CutThinking("a", [], "")], [0], "end_turn", None)

  /** Its stream delivers the reasoning and no block; the complete message converts to a
      block with an empty signature. */
  lemma UnsignedThinkingDiffers(patience: nat)
    requires patience >= |EventsOf(UNSIGNED)|
    ensures var streamed := AbsorbAll(EMPTY_REPLY, Decoded(FRESH, EventsOf(UNSIGNED), patience).0);
      var whole := ToChatResponse(MessageOf(UNSIGNED));
      && streamed.reasoning == whole.reasoning == "a"
      && streamed.blocks == [] && whole.blocks == [SignedThinking("a", "")]
  {
    var c := CutThinking("a", [], "");
    var cuts := UNSIGNED.cuts;
    assert cuts == [c] && cuts[1..] == [] && UNSIGNED.indices[1..] == [];
    assert Each(0, [], AsThinking) == [];
    assert AllEvents(cuts, UNSIGNED.indices) == CutEvents(c, 0) + [];
    QuietStays(EventsOf(UNSIGNED));
    StreamAddsUp(UNSIGNED, EventsOf(UNSIGNED), patience);
    var r := Began(UNSIGNED.id, UNSIGNED.model);
    assert Concat([]) == "" && "a" + "" == "a" && "" + "a" == "a";
    assert WithCuts(r, cuts) == WithCut(r, c);
    assert Wholes(cuts) == [Whole(c)] + Wholes([]) && [Whole(c)][1..] == [];
    assert WithBlocks(r, [Whole(c)]) == WithBlock(r, Whole(c));
  }

  // ---------------------------------------------------------------- reasons and totals

  /** Why a reply ended, in the OpenAI vocabulary. */
  lemma FinishReasons(stop: string)
    ensures FinishReason(stop) == "" <==> stop == ""
    ensures FinishReason(stop) == "length" <==> stop == "max_tokens" || stop == "model_context_window_exceeded"
    ensures FinishReason(stop) == "tool_calls" <==> stop == "tool_use"
    ensures FinishReason(stop) == "content_filter" <==> stop == "refusal"
    ensures FinishReason(stop) in {"", "length", "tool_calls", "content_filter", "stop"}
  {
  }

  /** Every input token counts, cached or not, and the total is input and output. */
  lemma TotalsAddUp(m: Message)
    ensures ToChatResponse(m).usage.prompt == m.usage.input + m.usage.cacheCreation + m.usage.cacheRead
    ensures ToChatResponse(m).usage.completion == m.usage.output
    ensures ToChatResponse(m).usage.total == m.usage.input + m.usage.cacheCreation + m.usage.cacheRead + m.usage.output
    ensures ToChatResponse(m).role == "assistant" && ToChatResponse(m).id == m.id && ToChatResponse(m).model == m.model
  {
    BlocksKeepTheRest(Began(m.id, m.model), m.content);
  }

  lemma {:induction false} BlocksKeepTheRest(r: Reply, content: seq<Block>)
    ensures WithBlocks(r, content).id == r.id && WithBlocks(r, content).model == r.model && WithBlocks(r, content).role == r.role
    decreases |content|
  {
    if content != [] { BlocksKeepTheRest(WithBlock(r, content[0]), content[1..]); }
  }
}
