/**
 What a Messages document says, told from the fields of the chat messages alone, and the
 agreement of buildRequest in common/runtime/anthropic/convert.go with it.
 */
module MessagesSpeech {
  import opened AnthropicStream
  import opened MessagesRequest
  import opened Options
  import opened Text
  import opened WhiteSpace

  // ---------------------------------------------------------------- what a message says

  function PartSays(f: Foreign, p: Part): (r: seq<Content>) {
    if p.TextPart? then (if p.text == "" then [] else [Say(p.text)])
    else if p.ImagePart? && p.url.Some? && f.image(p.url.value).Some? then [Picture(f.image(p.url.value).value)]
    else []
  }

  function PartsSay(f: Foreign, parts: seq<Part>): (r: seq<Content>) {
    if parts == [] then [] else PartSays(f, parts[0]) + PartsSay(f, parts[1..])
  }

  /** The text, then the parts, in order; nothing empty. */
  function Body(f: Foreign, m: ChatMessage): (r: seq<Content>) {
    (if m.content == "" then [] else [Say(m.content)]) + PartsSay(f, m.parts)
  }

  /** The reasoning blocks that carry a signature or data, in order. */
  function Signed(reasoning: seq<ReasoningBlock>): (r: seq<Content>) {
    if reasoning == [] then []
    else
      var b := reasoning[0];
      (if b.SignedThinking? && b.signature != "" then [Think(b.thinking, b.signature)]
       else if b.RedactedThinking? && b.data != "" then [Hidden(b.data)]
       else []) + Signed(reasoning[1..])
  }

  predicate Blank(s: string) { TrimSpace(s) == "" }

  /** A call's arguments, `{}` for none. */
  function Arguments(c: ToolCall): string { if Blank(c.arguments) then "{}" else c.arguments }

  function CallsSay(calls: seq<ToolCall>): (r: seq<Content>) {
    if calls == [] then [] else [Use(calls[0].id, calls[0].name, Arguments(calls[0]))] + CallsSay(calls[1..])
  }

  function PartTexts(parts: seq<Part>): (r: seq<string>) {
    if parts == [] then []
    else (if parts[0].TextPart? && parts[0].text != "" then [parts[0].text] else []) + PartTexts(parts[1..])
  }

  /** The texts of a message, nothing empty. */
  function Texts(m: ChatMessage): (r: seq<string>) { (if m.content == "" then [] else [m.content]) + PartTexts(m.parts) }

  /** The user says its text and pictures; the assistant its signed reasoning, its text and
      pictures, then its calls; a tool's result is one block the user says; system and
      developer messages say nothing. */
  function Says(f: Foreign, m: ChatMessage): (r: seq<(Role, Content)>) {
    match m.speaker
    case FromUser => Tagged(User, Body(f, m))
    case FromAssistant => Tagged(Assistant, Signed(m.reasoning) + Body(f, m) + CallsSay(m.calls))
    case FromTool => [(User, Outcome(m.toolCallId, Concat(Texts(m))))]
    case _ => []
  }

  /** They are the system prompt instead. */
  function Instructs(m: ChatMessage): (r: seq<string>) {
    if m.speaker.System? || m.speaker.Developer? then Texts(m) else []
  }

  /** A message Messages can express: known parts with readable images, images only from
      user and assistant, calls whose arguments are objects, tool results with an id. */
  predicate Expressible(f: Foreign, m: ChatMessage) {
    var images := m.speaker.FromUser? || m.speaker.FromAssistant?;
    && (forall i :: 0 <= i < |m.parts| ==> PartOk(f, m.parts[i], images))
    && (m.speaker.FromAssistant? ==> forall i :: 0 <= i < |m.calls| ==> f.isObject(Arguments(m.calls[i])))
    && (m.speaker.FromTool? ==> m.toolCallId != "")
    && !m.speaker.OtherSpeaker?
  }

  predicate PartOk(f: Foreign, p: Part, images: bool) {
    p.TextPart? || (images && p.ImagePart? && p.url.Some? && f.image(p.url.value).Some?)
  }

  function SaysAll(f: Foreign, messages: seq<ChatMessage>): (r: seq<(Role, Content)>) {
    if messages == [] then [] else Says(f, messages[0]) + SaysAll(f, messages[1..])
  }

  function InstructsAll(messages: seq<ChatMessage>): (r: seq<string>) {
    if messages == [] then [] else Instructs(messages[0]) + InstructsAll(messages[1..])
  }

  // ---------------------------------------------------------------- one message

  lemma {:induction false} PartsSayAppend(f: Foreign, a: seq<Part>, p: Part)
    ensures PartsSay(f, a + [p]) == PartsSay(f, a) + PartSays(f, p)
    decreases |a|
  {
    if a == [] {
      assert a + [p] == [p] && [p][1..] == [];
      Unit(PartSays(f, p));
    } else {
      assert (a + [p])[1..] == a[1..] + [p];
      PartsSayAppend(f, a[1..], p);
      Assoc(PartSays(f, a[0]), PartsSay(f, a[1..]), PartSays(f, p));
    }
  }

  lemma PartBlocksIs(f: Foreign, p: Part)
    ensures PartBlocks(f, p) == if PartOk(f, p, true) then Some(PartSays(f, p)) else None
  {
  }

  /** contentBlocks is the body, or nothing when a part is not known. */
  lemma {:induction false} ContentIs(f: Foreign, m: ChatMessage, i: nat)
    requires i <= |m.parts|
    ensures ContentBlocks(f, m, i)
            == if forall j :: 0 <= j < i ==> PartOk(f, m.parts[j], true)
               then Some((if m.content == "" then [] else [Say(m.content)]) + PartsSay(f, m.parts[..i])) else None
  {
    var head := if m.content == "" then [] else [Say(m.content)];
    if i == 0 {
      assert m.parts[..0] == [];
      Unit(head);
    } else {
      ContentIs(f, m, i - 1);
      PartBlocksIs(f, m.parts[i - 1]);
      assert m.parts[..i] == m.parts[..i - 1] + [m.parts[i - 1]];
      PartsSayAppend(f, m.parts[..i - 1], m.parts[i - 1]);
      Assoc(head, PartsSay(f, m.parts[..i - 1]), PartSays(f, m.parts[i - 1]));
    }
  }

  lemma BodyIs(f: Foreign, m: ChatMessage)
    ensures ContentBlocks(f, m, |m.parts|)
            == if forall j :: 0 <= j < |m.parts| ==> PartOk(f, m.parts[j], true) then Some(Body(f, m)) else None
  {
    ContentIs(f, m, |m.parts|);
    assert m.parts[..|m.parts|] == m.parts;
  }

  lemma {:induction false} SignedIs(reasoning: seq<ReasoningBlock>)
    ensures Replayed(reasoning) == Signed(reasoning)
    decreases |reasoning|
  {
    if reasoning != [] {
      var front, last := reasoning[..|reasoning| - 1], reasoning[|reasoning| - 1];
      SignedIs(front);
      Ends(reasoning);
      SignedAppend(front, last);
    }
  }

  lemma {:induction false} SignedAppend(a: seq<ReasoningBlock>, b: ReasoningBlock)
    ensures Signed(a + [b]) == Signed(a) + ReplayedOne(b)
    decreases |a|
  {
    if a == [] {
      assert a + [b] == [b] && [b][1..] == [];
      Unit(ReplayedOne(b));
    } else {
      assert (a + [b])[1..] == a[1..] + [b];
      SignedAppend(a[1..], b);
      Assoc(Signed([a[0]]), Signed(a[1..]), ReplayedOne(b));
      assert [a[0]][1..] == [];
      Unit(Signed([a[0]]));
    }
  }

  lemma {:induction false} CallsAppend(a: seq<ToolCall>, c: ToolCall)
    ensures CallsSay(a + [c]) == CallsSay(a) + [Use(c.id, c.name, Arguments(c))]
    decreases |a|
  {
    if a == [] {
      assert a + [c] == [c] && [c][1..] == [];
    } else {
      assert (a + [c])[1..] == a[1..] + [c];
      CallsAppend(a[1..], c);
    }
  }

  lemma {:induction false} CallsAre(f: Foreign, calls: seq<ToolCall>)
    ensures Uses(f, calls)
            == if forall i :: 0 <= i < |calls| ==> f.isObject(Arguments(calls[i])) then Some(CallsSay(calls)) else None
    decreases |calls|
  {
    if calls != [] {
      var front, last := calls[..|calls| - 1], calls[|calls| - 1];
      CallsAre(f, front);
      Ends(calls);
      CallsAppend(front, last);
      assert InputOf(last.arguments) == Arguments(last);
      assert forall i :: 0 <= i < |front| ==> calls[i] == front[i];
    }
  }

  predicate PartsOk(f: Foreign, parts: seq<Part>, images: bool) {
    forall i :: 0 <= i < |parts| ==> PartOk(f, parts[i], images)
  }

  lemma PartsOkHead(f: Foreign, parts: seq<Part>, images: bool)
    requires parts != []
    ensures PartsOk(f, parts, images) <==> PartOk(f, parts[0], images) && PartsOk(f, parts[1..], images)
  {
    assert forall i :: 0 < i < |parts| ==> parts[i] == parts[1..][i - 1];
    assert forall i :: 0 <= i < |parts| - 1 ==> parts[1..][i] == parts[i + 1];
  }

  lemma PartTextIs(f: Foreign, p: Part)
    requires PartOk(f, p, true)
    ensures AllText(PartSays(f, p)) <==> PartOk(f, p, false)
    ensures p.TextPart? ==> TextsOf(PartSays(f, p)) == if p.text != "" then [p.text] else []
  {
    if p.ImagePart? { assert !PartSays(f, p)[0].Say?; }
  }

  /** Blocks that are all text are the message's texts. */
  lemma {:induction false} PartTextsAre(f: Foreign, parts: seq<Part>)
    requires PartsOk(f, parts, true)
    ensures AllText(PartsSay(f, parts)) <==> PartsOk(f, parts, false)
    ensures AllText(PartsSay(f, parts)) ==> TextsOf(PartsSay(f, parts)) == PartTexts(parts)
    decreases |parts|
  {
    if parts != [] {
      PartsOkHead(f, parts, true);
      PartsOkHead(f, parts, false);
      PartTextsAre(f, parts[1..]);
      PartTextIs(f, parts[0]);
      AllTextAppend(PartSays(f, parts[0]), PartsSay(f, parts[1..]));
    }
  }

  lemma AllTextAppend(a: seq<Content>, b: seq<Content>)
    ensures AllText(a + b) <==> AllText(a) && AllText(b)
    ensures AllText(a + b) ==> TextsOf(a + b) == TextsOf(a) + TextsOf(b)
  {
    assert forall i :: 0 <= i < |a| ==> (a + b)[i] == a[i];
    assert forall i :: 0 <= i < |b| ==> (a + b)[|a| + i] == b[i];
  }

  lemma TextsAre(f: Foreign, m: ChatMessage)
    requires forall i :: 0 <= i < |m.parts| ==> PartOk(f, m.parts[i], true)
    ensures AllText(Body(f, m)) <==> forall i :: 0 <= i < |m.parts| ==> PartOk(f, m.parts[i], false)
    ensures AllText(Body(f, m)) ==> TextsOf(Body(f, m)) == Texts(m)
  {
    PartTextsAre(f, m.parts);
    AllTextAppend(if m.content == "" then [] else [Say(m.content)], PartsSay(f, m.parts));
  }

  predicate AllOk(f: Foreign, m: ChatMessage, images: bool) {
    forall i :: 0 <= i < |m.parts| ==> PartOk(f, m.parts[i], images)
  }

  /** A turn whose parts are all known. */
  lemma KnownTurn(f: Foreign, m: ChatMessage)
    requires AllOk(f, m, true)
    ensures var blocks := Body(f, m);
      TurnOf(f, m) == match m.speaker
        case System => if AllText(blocks) then Instruction(TextsOf(blocks)) else Rejected
        case Developer => if AllText(blocks) then Instruction(TextsOf(blocks)) else Rejected
        case FromUser => Speech(User, blocks)
        case FromAssistant =>
          if Uses(f, m.calls).None? then Rejected else Speech(Assistant, Replayed(m.reasoning) + blocks + Uses(f, m.calls).value)
        case FromTool =>
          if m.toolCallId == "" || !AllText(blocks) then Rejected else Speech(User, [Outcome(m.toolCallId, Concat(TextsOf(blocks)))])
        case OtherSpeaker(_) => Rejected
  {
    BodyIs(f, m);
  }

  /** One message: refused exactly when it cannot be expressed, and otherwise what its own
      fields say. */
  lemma TurnIs(f: Foreign, m: ChatMessage)
    ensures TurnOf(f, m).Rejected? <==> !Expressible(f, m)
    ensures TurnOf(f, m).Instruction? ==> (m.speaker.System? || m.speaker.Developer?) && TurnOf(f, m).texts == Instructs(m) && Says(f, m) == []
    ensures TurnOf(f, m).Speech? ==> Tagged(TurnOf(f, m).role, TurnOf(f, m).blocks) == Says(f, m) && Instructs(m) == []
  {
    if AllOk(f, m, true) {
      KnownTurn(f, m);
      TextsAre(f, m);
      if m.speaker.FromAssistant? {
        SignedIs(m.reasoning);
        CallsAre(f, m.calls);
      } else if m.speaker.FromTool? {
        OneOutcome(Outcome(m.toolCallId, Concat(Texts(m))));
      }
    } else {
      UnknownPart(f, m);
    }
  }

  lemma OneOutcome(c: Content)
    ensures Tagged(User, [c]) == [(User, c)]
  {
  }

  lemma UnknownPart(f: Foreign, m: ChatMessage)
    requires !AllOk(f, m, true)
    ensures TurnOf(f, m).Rejected? && !Expressible(f, m)
  {
    BodyIs(f, m);
    var i :| 0 <= i < |m.parts| && !PartOk(f, m.parts[i], true);
    assert !PartOk(f, m.parts[i], false);
  }

  // ---------------------------------------------------------------- all messages

  lemma {:induction false} SaysAppend(f: Foreign, a: seq<ChatMessage>, m: ChatMessage)
    ensures SaysAll(f, a + [m]) == SaysAll(f, a) + Says(f, m)
    ensures InstructsAll(a + [m]) == InstructsAll(a) + Instructs(m)
    decreases |a|
  {
    if a == [] {
      assert a + [m] == [m] && [m][1..] == [];
      Unit(Says(f, m));
      Unit(Instructs(m));
    } else {
      assert (a + [m])[1..] == a[1..] + [m];
      SaysAppend(f, a[1..], m);
      Assoc(Says(f, a[0]), SaysAll(f, a[1..]), Says(f, m));
      Assoc(Instructs(a[0]), InstructsAll(a[1..]), Instructs(m));
    }
  }

  lemma SaidIs(f: Foreign, messages: seq<ChatMessage>, i: nat)
    requires i <= |messages| && forall j :: 0 <= j < i ==> Expressible(f, messages[j])
    ensures SaidBy(Turns(f, messages), i) == SaysAll(f, messages[..i])
    ensures InstructedBy(Turns(f, messages), i) == InstructsAll(messages[..i])
  {
    TurnsSay(f, messages, Turns(f, messages), i);
  }

  /** The same for turns given one by one. */
  lemma {:induction false} TurnsSay(f: Foreign, messages: seq<ChatMessage>, turns: seq<Turn>, i: nat)
    requires |turns| == |messages| && i <= |messages|
    requires forall j :: 0 <= j < i ==> turns[j] == TurnOf(f, messages[j]) && Expressible(f, messages[j])
    ensures SaidBy(turns, i) == SaysAll(f, messages[..i])
    ensures InstructedBy(turns, i) == InstructsAll(messages[..i])
  {
    if i == 0 {
      assert messages[..0] == [];
    } else {
      TurnsSay(f, messages, turns, i - 1);
      var front, m := messages[..i - 1], messages[i - 1];
      assert messages[..i] == front + [m];
      SaysAppend(f, front, m);
      TurnAdds(f, m, turns, i - 1, SaysAll(f, front), InstructsAll(front));
    }
  }

  lemma TurnAdds(f: Foreign, m: ChatMessage, turns: seq<Turn>, i: nat, said: seq<(Role, Content)>, told: seq<string>)
    requires i < |turns| && turns[i] == TurnOf(f, m) && Expressible(f, m)
    requires SaidBy(turns, i) == said && InstructedBy(turns, i) == told
    ensures SaidBy(turns, i + 1) == said + Says(f, m) && InstructedBy(turns, i + 1) == told + Instructs(m)
  {
    TurnIs(f, m);
    Unit(said);
    Unit(told);
  }

  /** A request is accepted exactly when it has no seed and no structured output, a positive
      limit if any, every message can be expressed, someone says something, the tool choice
      is known and no extra field collides with a modeled one. */
  lemma AcceptedIff(f: Foreign, req: ChatRequest, stream: bool)
    ensures Built(f, req, stream).Some? <==>
      && req.seed.None? && (req.responseFormat.None? || req.responseFormat == Some("text"))
      && (req.maxTokens.None? || req.maxTokens.value > 0)
      && (forall i :: 0 <= i < |req.messages| ==> Expressible(f, req.messages[i]))
      && SaysAll(f, req.messages) != []
      && (req.toolChoice in {"", "auto", "none", "required"} || f.namedTool(req.toolChoice).Some?)
      && req.extra.Keys !! MODELED
  {
    var turns := Turns(f, req.messages);
    HeardIff(turns, |turns|);
    forall i | 0 <= i < |turns| ensures turns[i].Rejected? <==> !Expressible(f, req.messages[i]) { TurnIs(f, req.messages[i]); }
    if Heard(turns, |turns|).Some? {
      HeardSpec(turns, |turns|);
      SilentIff(Heard(turns, |turns|).value.said);
      SaidIs(f, req.messages, |turns|);
      assert req.messages[..|turns|] == req.messages;
    }
  }

  /** Every accepted request: the document alternates strictly, has no empty message, and
      block by block says what the messages' own fields say, in order; the system prompt is
      the system and developer text, in order. */
  lemma DocumentSaysTheMessages(f: Foreign, req: ChatRequest, stream: bool)
    requires Built(f, req, stream).Some?
    ensures var doc := Built(f, req, stream).value;
      && doc.messages != [] && Alternates(doc.messages)
      && Flat(doc.messages) == SaysAll(f, req.messages)
      && doc.system == Join(InstructsAll(req.messages))
  {
    AcceptedIff(f, req, stream);
    BuiltAlternates(f, req, stream);
    SaidIs(f, req.messages, |req.messages|);
    assert req.messages[..|req.messages|] == req.messages;
  }

  // ---------------------------------------------------------------- roles of blocks

  /** Who may say a block. */
  predicate InRole(p: (Role, Content)) {
    match p.1
    case Outcome(_, _) => p.0 == User
    case Use(_, _, _) => p.0 == Assistant
    case Think(_, _) => p.0 == Assistant
    case Hidden(_) => p.0 == Assistant
    case _ => true
  }

  lemma {:induction false} BodyIsPlain(f: Foreign, parts: seq<Part>)
    ensures forall i :: 0 <= i < |PartsSay(f, parts)| ==> PartsSay(f, parts)[i].Say? || PartsSay(f, parts)[i].Picture?
  {
    if parts != [] { BodyIsPlain(f, parts[1..]); }
  }

  lemma {:induction false} SaysInRole(f: Foreign, messages: seq<ChatMessage>)
    ensures forall i :: 0 <= i < |SaysAll(f, messages)| ==> InRole(SaysAll(f, messages)[i])
  {
    if messages != [] {
      SaysInRole(f, messages[1..]);
      OneInRole(f, messages[0]);
    }
  }

  lemma OneInRole(f: Foreign, m: ChatMessage)
    ensures forall i :: 0 <= i < |Says(f, m)| ==> InRole(Says(f, m)[i])
  {
    BodyIsPlain(f, m.parts);
    if m.speaker.FromAssistant? { assert forall p: (Role, Content) :: p.0 == Assistant && !p.1.Outcome? ==> InRole(p); NoOutcomes(f, m); }
  }

  lemma NoOutcomes(f: Foreign, m: ChatMessage)
    ensures forall i :: 0 <= i < |Signed(m.reasoning)| ==> !Signed(m.reasoning)[i].Outcome?
    ensures forall i :: 0 <= i < |CallsSay(m.calls)| ==> !CallsSay(m.calls)[i].Outcome?
  {
    SignedAreSigned(m.reasoning);
    CallsAreCalls(m.calls);
  }

  lemma {:induction false} SignedAreSigned(reasoning: seq<ReasoningBlock>)
    ensures forall i :: 0 <= i < |Signed(reasoning)| ==> Signed(reasoning)[i].Think? || Signed(reasoning)[i].Hidden?
  {
    if reasoning != [] { SignedAreSigned(reasoning[1..]); }
  }

  lemma {:induction false} CallsAreCalls(calls: seq<ToolCall>)
    ensures forall i :: 0 <= i < |CallsSay(calls)| ==> CallsSay(calls)[i].Use?
  {
    if calls != [] { CallsAreCalls(calls[1..]); }
  }

  /** In every document tool results stand under the user, and calls and reasoning under the
      assistant. */
  lemma BlocksStandInRole(f: Foreign, req: ChatRequest, stream: bool, i: nat)
    requires Built(f, req, stream).Some? && i < |Flat(Built(f, req, stream).value.messages)|
    ensures InRole(Flat(Built(f, req, stream).value.messages)[i])
  {
    DocumentSaysTheMessages(f, req, stream);
    SaysInRole(f, req.messages);
  }

  // ---------------------------------------------------------------- the other fields

  /** Texts joined by a blank line between two of them, and nowhere else. */
  lemma {:induction false} JoinIs(a: seq<string>, b: seq<string>)
    ensures Join([]) == "" && (a != [] && b != [] ==> Join(a + b) == Join(a) + "\n\n" + Join(b))
    ensures forall s :: Join([s]) == s
    decreases |a|
  {
    if a != [] && b != [] {
      assert (a + b)[1..] == a[1..] + b;
      if |a| == 1 {
        assert a[1..] == [] && a[1..] + b == b;
      } else {
        JoinIs(a[1..], b);
        Between(a[0], Join(a[1..]), Join(b));
      }
    }
  }

  lemma Between(a: string, b: string, c: string)
    ensures a + "\n\n" + (b + "\n\n" + c) == a + "\n\n" + b + "\n\n" + c
  {
  }

  /** The tool choice that is sent. */
  lemma ChoiceIs(f: Foreign, req: ChatRequest, stream: bool)
    requires Built(f, req, stream).Some?
    ensures var doc := Built(f, req, stream).value;
      && (req.toolChoice == "" <==> doc.choice == None)
      && (req.toolChoice == "auto" <==> doc.choice == Some(Auto))
      && (req.toolChoice == "none" <==> doc.choice == Some(NoTool))
      && (req.toolChoice == "required" <==> doc.choice == Some(AnyTool))
      && (doc.choice.Some? && doc.choice.value.OneTool? ==> f.namedTool(req.toolChoice) == Some(doc.choice.value.name))
  {
  }

  /** max_tokens is the caller's or 4096, on top of the budget when thinking is on. */
  lemma LimitIs(f: Foreign, req: ChatRequest, stream: bool)
    requires Built(f, req, stream).Some?
    ensures var doc := Built(f, req, stream).value;
      doc.maxTokens == if req.maxTokens.Some? then req.maxTokens.value
                       else 4096 + (if doc.thinking.Some? && doc.thinking.value.Enabled? then doc.thinking.value.budget else 0)
  {
  }

  /** Message `i` is the last of the assistant, calls tools and has no signed reasoning. */
  ghost predicate LacksAt(messages: seq<ChatMessage>, i: nat) {
    && i < |messages| && messages[i].speaker.FromAssistant? && messages[i].calls != [] && Signed(messages[i].reasoning) == []
    && forall j :: i < j < |messages| ==> !messages[j].speaker.FromAssistant?
  }

  ghost predicate LacksReasoning(messages: seq<ChatMessage>) { exists i: nat :: LacksAt(messages, i) }

  lemma LacksBefore(front: seq<ChatMessage>, m: ChatMessage, i: nat)
    requires !m.speaker.FromAssistant?
    ensures LacksAt(front + [m], i) <==> LacksAt(front, i)
  {
    var messages := front + [m];
    assert forall j :: 0 <= j < |front| ==> messages[j] == front[j];
    assert messages[|front|] == m;
  }

  lemma LacksNow(front: seq<ChatMessage>, m: ChatMessage, i: nat)
    requires m.speaker.FromAssistant?
    ensures LacksAt(front + [m], i) <==> i == |front| && m.calls != [] && Signed(m.reasoning) == []
  {
    assert (front + [m])[|front|] == m;
  }

  lemma {:induction false} LacksIs(messages: seq<ChatMessage>)
    ensures Unreplayable(messages) <==> LacksReasoning(messages)
    decreases |messages|
  {
    if messages != [] {
      var front, m := messages[..|messages| - 1], messages[|messages| - 1];
      Ends(messages);
      if m.speaker.FromAssistant? {
        SignedIs(m.reasoning);
        forall i: nat ensures LacksAt(messages, i) <==> i == |front| && m.calls != [] && Signed(m.reasoning) == [] {
          LacksNow(front, m, i);
        }
        if Unreplayable(messages) { assert LacksAt(messages, |front|); }
      } else {
        LacksIs(front);
        forall i: nat ensures LacksAt(messages, i) <==> LacksAt(front, i) { LacksBefore(front, m, i); }
      }
    }
  }

  /** Every other field is the caller's. */
  lemma PassedThrough(f: Foreign, req: ChatRequest, stream: bool)
    requires Built(f, req, stream).Some?
    ensures var doc := Built(f, req, stream).value;
      && doc.model == req.model && doc.temperature == req.temperature && doc.topP == req.topP && doc.stop == req.stop
      && doc.stream == stream && doc.extra == req.extra && |doc.tools| == |req.tools|
      && forall i :: 0 <= i < |doc.tools| ==>
           && doc.tools[i].name == req.tools[i].name && doc.tools[i].description == req.tools[i].description
           && doc.tools[i].schema == if req.tools[i].schema in {"", "null"} then EMPTY_SCHEMA else req.tools[i].schema
  {
  }

  /** When thinking is sent: not without a reasoning setting, disabled when that is off, and
      on otherwise, unless the last assistant turn lacks the reasoning it would have to send
      back, or a budget derived from an effort has no room of 1024 under the caller's limit. */
  lemma ThinkingIff(f: Foreign, req: ChatRequest, stream: bool)
    requires Built(f, req, stream).Some?
    ensures var sent := Built(f, req, stream).value.thinking;
      && (sent == Some(Disabled) <==> req.reasoning.Some? && !req.reasoning.value.enabled)
      && (sent.Some? && sent.value.Enabled? <==>
            && req.reasoning.Some? && req.reasoning.value.enabled && !LacksReasoning(req.messages)
            && (req.maxTokens.None? || req.reasoning.value.budgetTokens > 0
                || Budget(req.reasoning.value) < req.maxTokens.value || req.maxTokens.value > 1024))
  {
    LacksIs(req.messages);
  }

  /** An effort that is no known level, or none, counts as medium. */
  lemma {:induction false} UnknownEffortIsMedium(effort: string, i: nat)
    requires i <= |EFFORTS| && forall j :: i <= j < |EFFORTS| ==> EFFORTS[j] != effort
    ensures LevelOf(effort, i) == 2
    decreases |EFFORTS| - i
  {
    if i < |EFFORTS| { UnknownEffortIsMedium(effort, i + 1); }
  }
}
