/**
 Building a Messages request out of a chat request: buildRequest, contentBlocks,
 replayBlocks and thinkingFor of common/runtime/anthropic/convert.go, with the
 thinking budgets of common/runtime/types.go.
 */
module MessagesRequest {
  import opened AnthropicStream
  import opened Options
  import opened Text
  import opened WhiteSpace

  // ---------------------------------------------------------------- requests

  datatype Speaker = System | Developer | FromUser | FromAssistant | FromTool | OtherSpeaker(text: string)

  datatype Part = TextPart(text: string) | ImagePart(url: Option<string>) | OtherPart

  datatype ChatMessage = ChatMessage(speaker: Speaker, content: string, parts: seq<Part>, reasoning: seq<ReasoningBlock>,
                                     calls: seq<ToolCall>, toolCallId: string)

  datatype ReasoningConfig = ReasoningConfig(enabled: bool, effort: string, budgetTokens: int)

  /** A tool with its JSON schema as text; none is the empty text or `null`. */
  datatype Tool = Tool(name: string, description: string, schema: string)

  datatype ChatRequest = ChatRequest(
    model: string, seed: Option<int>, responseFormat: Option<string>, maxTokens: Option<int>,
    temperature: Option<real>, topP: Option<real>, stop: seq<string>, messages: seq<ChatMessage>,
    tools: seq<Tool>, toolChoice: string, reasoning: Option<ReasoningConfig>, extra: map<string, string>)

  /** Code outside the model: reading an image URL, the JSON object test, and the name in
      a named tool choice. */
  datatype Foreign = Foreign(image: string -> Option<string>, isObject: string -> bool, namedTool: string -> Option<string>)

  // ---------------------------------------------------------------- documents

  datatype Role = User | Assistant

  datatype Content =
    | Say(text: string)
    | Picture(source: string)
    | Think(thinking: string, signature: string)
    | Hidden(data: string)
    | Use(id: string, name: string, input: string)
    | Outcome(id: string, text: string)

  datatype Spoken = Spoken(role: Role, content: seq<Content>)

  datatype Thinking = Disabled | Enabled(budget: int)

  datatype ToolChoice = Auto | NoTool | AnyTool | OneTool(name: string)

  /** The fields this package writes, and beside them the caller's own. */
  datatype Document = Document(
    model: string, maxTokens: int, system: string, messages: seq<Spoken>,
    temperature: Option<real>, topP: Option<real>, stop: seq<string>,
    tools: seq<Tool>, choice: Option<ToolChoice>, stream: bool, thinking: Option<Thinking>, extra: map<string, string>)

  // ---------------------------------------------------------------- one message

  function PartBlocks(f: Foreign, p: Part): (r: Option<seq<Content>>) {
    match p
    case TextPart(text) => Some(if text == "" then [] else [Say(text)])
    case ImagePart(url) =>
      if url.None? || f.image(url.value).None? then None else Some([Picture(f.image(url.value).value)])
    case OtherPart => None
  }

  /** The blocks of the message's text and its first `i` parts. */
  function ContentBlocks(f: Foreign, m: ChatMessage, i: nat): (r: Option<seq<Content>>)
    requires i <= |m.parts|
  {
    if i == 0 then Some(if m.content == "" then [] else [Say(m.content)])
    else match (ContentBlocks(f, m, i - 1), PartBlocks(f, m.parts[i - 1]))
      case (Some(before), Some(more)) => Some(before + more)
      case _ => None
  }

  /** The reasoning that can be sent back: only what carries its signature or its data. */
  function Replayed(reasoning: seq<ReasoningBlock>): (r: seq<Content>) {
    if reasoning == [] then []
    else Replayed(reasoning[..|reasoning| - 1]) + ReplayedOne(reasoning[|reasoning| - 1])
  }

  function ReplayedOne(b: ReasoningBlock): (r: seq<Content>) {
    match b
    case SignedThinking(thinking, signature) => if signature == "" then [] else [Think(thinking, signature)]
    case RedactedThinking(data) => if data == "" then [] else [Hidden(data)]
  }

  function InputOf(arguments: string): (r: string) { if TrimSpace(arguments) == "" then "{}" else arguments }

  function Uses(f: Foreign, calls: seq<ToolCall>): (r: Option<seq<Content>>) {
    if calls == [] then Some([])
    else
      var front, last := Uses(f, calls[..|calls| - 1]), calls[|calls| - 1];
      var input := InputOf(last.arguments);
      if front.None? || !f.isObject(input) then None else Some(front.value + [Use(last.id, last.name, input)])
  }

  predicate AllText(blocks: seq<Content>) { forall i :: 0 <= i < |blocks| ==> blocks[i].Say? }

  function TextsOf(blocks: seq<Content>): (r: seq<string>)
    requires AllText(blocks)
    ensures |r| == |blocks| && forall i :: 0 <= i < |r| ==> r[i] == blocks[i].text
  {
    seq(|blocks|, i requires 0 <= i < |blocks| => blocks[i].text)
  }

  /** What one message contributes. */
  datatype Turn = Rejected | Instruction(texts: seq<string>) | Speech(role: Role, blocks: seq<Content>)

  function TurnOf(f: Foreign, m: ChatMessage): (r: Turn) {
    var content := ContentBlocks(f, m, |m.parts|);
    if content.None? then Rejected
    else
      var blocks := content.value;
      match m.speaker
      case System => if AllText(blocks) then Instruction(TextsOf(blocks)) else Rejected
      case Developer => if AllText(blocks) then Instruction(TextsOf(blocks)) else Rejected
      case FromUser => Speech(User, blocks)
      case FromAssistant =>
        var uses := Uses(f, m.calls);
        if uses.None? then Rejected else Speech(Assistant, Replayed(m.reasoning) + blocks + uses.value)
      case FromTool =>
        if m.toolCallId == "" || !AllText(blocks) then Rejected
        else Speech(User, [Outcome(m.toolCallId, Concat(TextsOf(blocks)))])
      case OtherSpeaker(_) => Rejected
  }

  // ---------------------------------------------------------------- all messages

  /** A message joins the last one when the role is the same; an empty one is dropped. */
  function Joined(said: seq<Spoken>, role: Role, blocks: seq<Content>): (r: seq<Spoken>) {
    var n := |said|;
    if blocks == [] then said
    else if n > 0 && said[n - 1].role == role then said[n - 1 := Spoken(role, said[n - 1].content + blocks)]
    else said + [Spoken(role, blocks)]
  }

  datatype Talk = Talk(system: seq<string>, said: seq<Spoken>)

  /** A message that could be expressed is added. */
  function Hear(t: Talk, turn: Turn): (r: Talk)
    requires !turn.Rejected?
  {
    match turn
    case Instruction(texts) => t.(system := t.system + texts)
    case Speech(role, blocks) => t.(said := Joined(t.said, role, blocks))
  }

  function Turns(f: Foreign, messages: seq<ChatMessage>): (r: seq<Turn>)
    ensures |r| == |messages| && forall i :: 0 <= i < |r| ==> r[i] == TurnOf(f, messages[i])
  {
    seq(|messages|, i requires 0 <= i < |messages| => TurnOf(f, messages[i]))
  }

  /** The document after the first `i` messages. */
  function Heard(turns: seq<Turn>, i: nat): (r: Option<Talk>)
    requires i <= |turns|
  {
    if i == 0 then Some(Talk([], []))
    else if Heard(turns, i - 1).None? || turns[i - 1].Rejected? then None
    else Some(Hear(Heard(turns, i - 1).value, turns[i - 1]))
  }

  function Join(texts: seq<string>): (r: string) {
    if texts == [] then "" else if |texts| == 1 then texts[0] else texts[0] + "\n\n" + Join(texts[1..])
  }

  // ---------------------------------------------------------------- thinking

  const DEFAULT_MAX_TOKENS := 4096
  const MIN_BUDGET := 1024

  const EFFORTS: seq<string> := ["minimal", "low", "medium", "high", "xhigh"]
  const BUDGETS: seq<int> := [1024, 2048, 8192, 16384, 32768]

  function LevelOf(effort: string, i: nat): (r: nat)
    requires i <= |EFFORTS|
    ensures r < |BUDGETS|
    decreases |EFFORTS| - i
  {
    if i == |EFFORTS| then 2 else if EFFORTS[i] == effort then i else LevelOf(effort, i + 1)
  }

  /** The thinking budget: the caller's, or the level's, or the medium level's. */
  function Budget(c: ReasoningConfig): (r: int) {
    if c.budgetTokens > 0 then c.budgetTokens
    else BUDGETS[LevelOf(if c.effort == "" then "medium" else c.effort, 0)]
  }

  /** The first level whose budget is not below `budget`, or the highest. */
  function LevelFor(budget: int, i: nat): (r: nat)
    requires i < |BUDGETS|
    ensures r < |EFFORTS|
    decreases |BUDGETS| - i
  {
    if i == |BUDGETS| - 1 || budget <= BUDGETS[i] then i else LevelFor(budget, i + 1)
  }

  function EffortLevel(c: ReasoningConfig): (r: string) {
    if c.effort != "" || c.budgetTokens <= 0 then c.effort else EFFORTS[LevelFor(c.budgetTokens, 0)]
  }

  /** The level covers the budget unless none does, and every lower level does not. */
  lemma {:induction false} LevelIsSmallest(budget: int, i: nat)
    requires i < |BUDGETS|
    ensures var r := LevelFor(budget, i);
      && i <= r && (r < |BUDGETS| - 1 ==> budget <= BUDGETS[r])
      && forall j :: i <= j < r ==> BUDGETS[j] < budget
    decreases |BUDGETS| - i
  {
    if i < |BUDGETS| - 1 && budget > BUDGETS[i] { LevelIsSmallest(budget, i + 1); }
  }

  /** A given effort stands; nothing given is no effort; a budget alone is the lowest level that covers it. */
  lemma EffortLevelIs(c: ReasoningConfig, k: nat)
    requires k < |EFFORTS|
    ensures c.effort != "" ==> EffortLevel(c) == c.effort
    ensures EffortLevel(c) == "" <==> c.effort == "" && c.budgetTokens <= 0
    ensures c.effort == "" && c.budgetTokens > 0 ==>
      (k < |BUDGETS| - 1 ==> c.budgetTokens <= BUDGETS[k]) ==>
      (forall j :: 0 <= j < k ==> BUDGETS[j] < c.budgetTokens) ==> EffortLevel(c) == EFFORTS[k]
  {
    LevelIsSmallest(c.budgetTokens, 0);
  }

  lemma {:induction false} LevelBack(i: nat, k: nat)
    requires i <= k < |BUDGETS|
    ensures LevelFor(BUDGETS[k], i) == k && LevelOf(EFFORTS[k], i) == k
    decreases k - i
  {
    if i < k { LevelBack(i + 1, k); }
  }

  /** An effort turned into a budget and read as a budget again is the same effort. */
  lemma EffortSurvivesBudget(k: nat)
    requires k < |EFFORTS|
    ensures EffortLevel(ReasoningConfig(true, "", Budget(ReasoningConfig(true, EFFORTS[k], 0)))) == EFFORTS[k]
  {
    LevelBack(0, k);
  }

  /** The last assistant turn called tools without reasoning that can be sent back. */
  function Unreplayable(messages: seq<ChatMessage>): (r: bool) {
    if messages == [] then false
    else
      var m := messages[|messages| - 1];
      if m.speaker.FromAssistant? then m.calls != [] && Replayed(m.reasoning) == []
      else Unreplayable(messages[..|messages| - 1])
  }

  function ThinkingOf(c: ReasoningConfig, asked: Option<int>, maxTokens: int, unreplayable: bool): (r: (Option<Thinking>, int)) {
    if !c.enabled then (Some(Disabled), maxTokens)
    else if unreplayable then (None, maxTokens)
    else
      var budget := Budget(c);
      if asked.None? then (Some(Enabled(budget)), budget + DEFAULT_MAX_TOKENS)
      else if c.budgetTokens > 0 || budget < maxTokens then (Some(Enabled(budget)), maxTokens)
      else if maxTokens - 1 < MIN_BUDGET then (None, maxTokens)
      else (Some(Enabled(maxTokens - 1)), maxTokens)
  }

  function ThinkingFor(req: ChatRequest, maxTokens: int): (r: (Option<Thinking>, int)) {
    if req.reasoning.None? then (None, maxTokens)
    else ThinkingOf(req.reasoning.value, req.maxTokens, maxTokens, Unreplayable(req.messages))
  }

  // ---------------------------------------------------------------- the request

  const MODELED: set<string> := {"model", "max_tokens", "system", "messages", "temperature", "top_p", "stop_sequences",
                                 "tools", "tool_choice", "stream", "thinking"}

  const EMPTY_SCHEMA := "{\"type\":\"object\",\"properties\":{}}"

  /** A tool without a schema takes no arguments. */
  function Described(t: Tool): (r: Tool) {
    if t.schema == "" || t.schema == "null" then t.(schema := EMPTY_SCHEMA) else t
  }

  function DescribedAll(tools: seq<Tool>): (r: seq<Tool>)
    ensures |r| == |tools| && forall i :: 0 <= i < |r| ==> r[i] == Described(tools[i])
  {
    seq(|tools|, i requires 0 <= i < |tools| => Described(tools[i]))
  }

  /** None: a choice that is none of the known ones. Some(None): no choice made. */
  function ChoiceOf(f: Foreign, choice: string): (r: Option<Option<ToolChoice>>) {
    if choice == "" then Some(None)
    else if choice == "auto" then Some(Some(Auto))
    else if choice == "none" then Some(Some(NoTool))
    else if choice == "required" then Some(Some(AnyTool))
    else
      var named := f.namedTool(choice);
      if named.None? then None else Some(Some(OneTool(named.value)))
  }

  /** What can be told before looking at the messages. */
  predicate Supported(req: ChatRequest) {
    && req.seed.None? && (req.responseFormat.Some? ==> req.responseFormat.value == "text")
    && (req.maxTokens.Some? ==> req.maxTokens.value > 0)
  }

  /** What is told after them. */
  predicate Finishable(f: Foreign, req: ChatRequest) {
    ChoiceOf(f, req.toolChoice).Some? && req.extra.Keys !! MODELED
  }

  function Room(req: ChatRequest): (r: int) { if req.maxTokens.Some? then req.maxTokens.value else DEFAULT_MAX_TOKENS }

  function Written(f: Foreign, req: ChatRequest, stream: bool, talk: Talk): (r: Document)
    requires ChoiceOf(f, req.toolChoice).Some?
  {
    var (thinking, limit) := ThinkingFor(req, Room(req));
    Document(req.model, limit, Join(talk.system), talk.said, req.temperature, req.topP, req.stop,
             DescribedAll(req.tools), ChoiceOf(f, req.toolChoice).value, stream, thinking, req.extra)
  }

  function Built(f: Foreign, req: ChatRequest, stream: bool): (r: Option<Document>) {
    var turns := Turns(f, req.messages);
    var talk := Heard(turns, |turns|);
    if !Supported(req) || talk.None? || talk.value.said == [] || !Finishable(f, req) then None
    else Some(Written(f, req, stream, talk.value))
  }

  /** The loop over the messages, ending at the first one that cannot be expressed. */
  method HearAll(turns: seq<Turn>) returns (r: Option<Talk>)
    ensures r == Heard(turns, |turns|)
  {
    var t := Talk([], []);
    for i := 0 to |turns|
      invariant Heard(turns, i) == Some(t)
    {
      if turns[i].Rejected? {
        RejectionStays(turns, i + 1, |turns|);
        return None;
      }
      t := Hear(t, turns[i]);
    }
    r := Some(t);
  }

  lemma {:induction false} RejectionStays(turns: seq<Turn>, i: nat, j: nat)
    requires i <= j <= |turns| && Heard(turns, i) == None
    ensures Heard(turns, j) == None
    decreases j
  {
    if i < j { RejectionStays(turns, i, j - 1); }
  }

  /** The loop back to the last assistant turn. */
  method FindUnreplayable(messages: seq<ChatMessage>) returns (r: bool)
    ensures r == Unreplayable(messages)
  {
    var i := |messages|;
    assert messages[..i] == messages;
    while i > 0
      invariant 0 <= i <= |messages|
      invariant Unreplayable(messages) == Unreplayable(messages[..i])
    {
      var m := messages[i - 1];
      assert messages[..i][..i - 1] == messages[..i - 1];
      if m.speaker.FromAssistant? {
        return m.calls != [] && Replayed(m.reasoning) == [];
      }
      i := i - 1;
    }
    r := false;
  }

  method DescribeTools(tools: seq<Tool>) returns (r: seq<Tool>)
    ensures r == DescribedAll(tools)
  {
    r := [];
    for i := 0 to |tools|
      invariant r == DescribedAll(tools)[..i]
    {
      var schema := tools[i].schema;
      if |schema| == 0 || schema == "null" {
        schema := EMPTY_SCHEMA;
      }
      r := r + [Tool(tools[i].name, tools[i].description, schema)];
    }
  }

  /** mergeExtra: the caller's fields are added one by one, in whatever order the map
      yields them, and none may replace a modeled one. */
  method MergeExtra(extra: map<string, string>, modeled: set<string>) returns (r: Option<map<string, string>>)
    ensures r == if extra.Keys !! modeled then Some(extra) else None
  {
    var body: map<string, string> := map[];
    var todo := extra.Keys;
    while todo != {}
      invariant todo <= extra.Keys && body.Keys == extra.Keys - todo
      invariant forall k :: k in body ==> body[k] == extra[k] && k !in modeled
      decreases |todo|
    {
      var key :| key in todo;
      if key in modeled {
        return None;
      }
      body := body[key := extra[key]];
      todo := todo - {key};
    }
    assert body == extra;
    r := Some(body);
  }

  method BuildRequest(f: Foreign, req: ChatRequest, stream: bool) returns (r: Option<Document>)
    ensures r == Built(f, req, stream)
  {
    if req.seed.Some? || (req.responseFormat.Some? && req.responseFormat.value != "text") {
      return None;
    }
    if req.maxTokens.Some? && req.maxTokens.value <= 0 {
      return None;
    }
    var talk := HearAll(Turns(f, req.messages));
    if talk.None? || |talk.value.said| == 0 {
      return None;
    }
    r := FinishRequest(f, req, stream, talk.value);
  }

  /** Everything after the messages. */
  method FinishRequest(f: Foreign, req: ChatRequest, stream: bool, talk: Talk) returns (r: Option<Document>)
    ensures r == if Finishable(f, req) then Some(Written(f, req, stream, talk)) else None
  {
    var tools := DescribeTools(req.tools);
    var thinking, limit := None, Room(req);
    if req.reasoning.Some? {
      var unreplayable := FindUnreplayable(req.messages);
      var t := ThinkingOf(req.reasoning.value, req.maxTokens, Room(req), unreplayable);
      thinking, limit := t.0, t.1;
    }
    var choice := ChoiceOf(f, req.toolChoice);
    if choice.None? {
      return None;
    }
    var extra := MergeExtra(req.extra, MODELED);
    if extra.None? {
      return None;
    }
    r := Some(Document(req.model, limit, Join(talk.system), talk.said, req.temperature, req.topP, req.stop,
                       tools, choice.value, stream, thinking, extra.value));
  }

  // ---------------------------------------------------------------- alternation

  /** Blocks with the role that says them. */
  function Tagged(role: Role, blocks: seq<Content>): (r: seq<(Role, Content)>)
    ensures |r| == |blocks| && forall i :: 0 <= i < |r| ==> r[i] == (role, blocks[i])
  {
    seq(|blocks|, i requires 0 <= i < |blocks| => (role, blocks[i]))
  }

  function Flat(said: seq<Spoken>): (r: seq<(Role, Content)>) {
    if said == [] then [] else Flat(said[..|said| - 1]) + Tagged(said[|said| - 1].role, said[|said| - 1].content)
  }

  /** What the first `i` messages say, system text aside, block by block. */
  function SaidBy(turns: seq<Turn>, i: nat): (r: seq<(Role, Content)>)
    requires i <= |turns|
  {
    if i == 0 then []
    else
      var turn := turns[i - 1];
      SaidBy(turns, i - 1) + (if turn.Speech? then Tagged(turn.role, turn.blocks) else [])
  }

  /** The system text of the first `i` messages. */
  function InstructedBy(turns: seq<Turn>, i: nat): (r: seq<string>)
    requires i <= |turns|
  {
    if i == 0 then [] else InstructedBy(turns, i - 1) + (if turns[i - 1].Instruction? then turns[i - 1].texts else [])
  }

  ghost predicate Alternates(said: seq<Spoken>) {
    && (forall i :: 0 <= i < |said| ==> said[i].content != [])
    && (forall i :: 0 < i < |said| ==> said[i - 1].role != said[i].role)
  }

  lemma TaggedAppend(role: Role, a: seq<Content>, b: seq<Content>)
    ensures Tagged(role, a + b) == Tagged(role, a) + Tagged(role, b)
  {
  }

  lemma JoinedSpec(said: seq<Spoken>, role: Role, blocks: seq<Content>)
    requires Alternates(said)
    ensures Alternates(Joined(said, role, blocks)) && Flat(Joined(said, role, blocks)) == Flat(said) + Tagged(role, blocks)
  {
    var n := |said|;
    var r := Joined(said, role, blocks);
    if blocks == [] {
      assert Tagged(role, blocks) == [] && Flat(said) + [] == Flat(said);
    } else if n > 0 && said[n - 1].role == role {
      assert r[..n - 1] == said[..n - 1];
      TaggedAppend(role, said[n - 1].content, blocks);
      Assoc(Flat(said[..n - 1]), Tagged(role, said[n - 1].content), Tagged(role, blocks));
    } else {
      assert r[..n] == said;
    }
  }

  lemma {:induction false} HeardSpec(turns: seq<Turn>, i: nat)
    requires i <= |turns| && Heard(turns, i).Some?
    ensures var said := Heard(turns, i).value.said; Alternates(said) && Flat(said) == SaidBy(turns, i)
    ensures Heard(turns, i).value.system == InstructedBy(turns, i)
  {
    if i > 0 {
      HeardSpec(turns, i - 1);
      var turn := turns[i - 1];
      if turn.Speech? {
        JoinedSpec(Heard(turns, i - 1).value.said, turn.role, turn.blocks);
        assert InstructedBy(turns, i - 1) + [] == InstructedBy(turns, i - 1);
      } else {
        assert SaidBy(turns, i - 1) + [] == SaidBy(turns, i - 1);
      }
    }
  }

  /** Every accepted request: roles strictly alternate, no message is empty, there is at
      least one, and block by block they say what the messages say, in order; the system
      prompt is all system text, in order. */
  lemma BuiltAlternates(f: Foreign, req: ChatRequest, stream: bool)
    requires Built(f, req, stream).Some?
    ensures var doc := Built(f, req, stream).value;
      doc.messages != [] && Alternates(doc.messages) && Flat(doc.messages) == SaidBy(Turns(f, req.messages), |req.messages|)
    ensures Built(f, req, stream).value.system == Join(InstructedBy(Turns(f, req.messages), |req.messages|))
  {
    HeardSpec(Turns(f, req.messages), |req.messages|);
  }

  lemma {:induction false} HeardIff(turns: seq<Turn>, i: nat)
    requires i <= |turns|
    ensures Heard(turns, i).Some? <==> forall j :: 0 <= j < i ==> !turns[j].Rejected?
  {
    if i > 0 { HeardIff(turns, i - 1); }
  }

  lemma SilentIff(said: seq<Spoken>)
    requires Alternates(said)
    ensures Flat(said) == [] <==> said == []
  {
    if said != [] { FlatHead(said); }
  }

  /** How many blocks at the start have one role. */
  function RunLength(s: seq<(Role, Content)>): (r: nat)
    ensures r <= |s|
  {
    if s == [] then 0 else if |s| == 1 || s[0].0 != s[1].0 then 1 else 1 + RunLength(s[1..])
  }

  lemma {:induction false} FlatHead(said: seq<Spoken>)
    requires said != []
    ensures Flat(said) == Tagged(said[0].role, said[0].content) + Flat(said[1..])
  {
    var n := |said|;
    if n == 1 {
      assert said[..0] == [] && said[1..] == [];
      assert [] + Tagged(said[0].role, said[0].content) == Tagged(said[0].role, said[0].content) + [];
    } else {
      var front := said[..n - 1];
      FlatHead(front);
      Ends(said);
      assert said[1..][..n - 2] == front[1..];
      Assoc(Tagged(said[0].role, said[0].content), Flat(front[1..]), Tagged(said[n - 1].role, said[n - 1].content));
    }
  }

  lemma {:induction false} RunOf(role: Role, blocks: seq<Content>, rest: seq<(Role, Content)>)
    requires blocks != [] && (rest == [] || rest[0].0 != role)
    ensures RunLength(Tagged(role, blocks) + rest) == |blocks|
    decreases |blocks|
  {
    var s := Tagged(role, blocks) + rest;
    if |blocks| > 1 {
      assert s[1..] == Tagged(role, blocks[1..]) + rest;
      RunOf(role, blocks[1..], rest);
    }
  }

  lemma FirstRun(said: seq<Spoken>)
    requires Alternates(said) && said != []
    ensures Flat(said) != [] && Flat(said)[0].0 == said[0].role
    ensures RunLength(Flat(said)) == |said[0].content|
    ensures Alternates(said[1..])
  {
    FlatHead(said);
    var rest := said[1..];
    if rest != [] {
      FlatHead(rest);
      assert Flat(rest)[0] == (rest[0].role, rest[0].content[0]);
      assert said[1 - 1].role != said[1].role;
    }
    RunOf(said[0].role, said[0].content, Flat(rest));
    forall i | 0 < i < |rest| ensures rest[i - 1].role != rest[i].role {
      assert said[i + 1 - 1].role != said[i + 1].role;
    }
  }

  /** There is only one such document: alternation leaves no choice of where to cut. */
  lemma {:induction false} OneAlternation(a: seq<Spoken>, b: seq<Spoken>)
    requires Alternates(a) && Alternates(b) && Flat(a) == Flat(b)
    ensures a == b
    decreases |a|
  {
    if a != [] { FirstRun(a); }
    if b != [] { FirstRun(b); }
    if a != [] && b != [] {
      SameStart(a, b);
      OneAlternation(a[1..], b[1..]);
      assert a == [a[0]] + a[1..] && b == [b[0]] + b[1..];
    }
  }

  lemma SameStart(a: seq<Spoken>, b: seq<Spoken>)
    requires a != [] && b != [] && Flat(a) == Flat(b) && a[0].role == b[0].role && |a[0].content| == |b[0].content|
    ensures a[0] == b[0] && Flat(a[1..]) == Flat(b[1..])
  {
    FlatHead(a);
    FlatHead(b);
    var n, s := |a[0].content|, Flat(a);
    assert s[n..] == Flat(a[1..]) && s[n..] == Flat(b[1..]);
    forall i | 0 <= i < n ensures a[0].content[i] == b[0].content[i] {
      assert s[i] == (a[0].role, a[0].content[i]) && s[i] == (b[0].role, b[0].content[i]);
    }
  }

  // ---------------------------------------------------------------- budgets

  /** A budget derived from an effort lies between the minimum and max_tokens, and so does
      the upper bound of any budget when the caller gave no max_tokens; max_tokens is never
      lowered. */
  lemma BudgetFits(f: Foreign, req: ChatRequest, stream: bool)
    requires Built(f, req, stream).Some? && Built(f, req, stream).value.thinking.Some? && Built(f, req, stream).value.thinking.value.Enabled?
    ensures var doc := Built(f, req, stream).value; var budget := doc.thinking.value.budget;
      && req.reasoning.Some?
      && (req.reasoning.value.budgetTokens <= 0 ==> MIN_BUDGET <= budget < doc.maxTokens)
      && (req.maxTokens.None? ==> budget < doc.maxTokens)
      && (req.maxTokens.Some? ==> doc.maxTokens == req.maxTokens.value)
      && (req.reasoning.value.budgetTokens > 0 ==> budget == req.reasoning.value.budgetTokens)
  {
  }

  /** Thinking fits under max_tokens exactly when the caller did not ask for a budget that
      reaches its own limit. */
  lemma BudgetFitsIff(f: Foreign, req: ChatRequest, stream: bool)
    requires Built(f, req, stream).Some? && Built(f, req, stream).value.thinking.Some? && Built(f, req, stream).value.thinking.value.Enabled?
    ensures req.reasoning.Some?
    ensures Built(f, req, stream).value.thinking.value.budget < Built(f, req, stream).value.maxTokens
            <==> req.maxTokens.None? || req.reasoning.value.budgetTokens < req.maxTokens.value
  {
    BudgetFits(f, req, stream);
  }

  const HELLO := ChatMessage(FromUser, "hi", [], [], [], "")

  /** A caller may ask for as much thinking as output: the request is accepted and sent
      with a budget that reaches max_tokens. */
  lemma BudgetMayReachTheLimit(f: Foreign, stream: bool)
    ensures var req := ChatRequest("m", None, None, Some(2048), None, None, [], [HELLO], [], "",
                                   Some(ReasoningConfig(true, "", 2048)), map[]);
      Built(f, req, stream).Some? && Built(f, req, stream).value.thinking == Some(Enabled(2048))
      && Built(f, req, stream).value.maxTokens == 2048
  {
    var req := ChatRequest("m", None, None, Some(2048), None, None, [], [HELLO], [], "",
                           Some(ReasoningConfig(true, "", 2048)), map[]);
    var turns := Turns(f, req.messages);
    assert turns[0] == Speech(User, [Say("hi")]);
    assert Heard(turns, 0) == Some(Talk([], []));
    assert Heard(turns, 1).Some? && Heard(turns, 1).value.said == [Spoken(User, [Say("hi")])];
    assert [HELLO][..0] == [];
    assert !Unreplayable([]) && !Unreplayable(req.messages);
  }

  // ---------------------------------------------------------------- replaying an answer

  /** The answer of a model sent back as the assistant's turn. */
  function AsTurn(r: Reply): (m: ChatMessage) { ChatMessage(FromAssistant, r.content, [], r.blocks, r.calls, "") }

  /** A block of an answer as a block of a request. */
  function Sent(b: Block): (r: seq<Content>) {
    match b
    case TextBlock(text) => [Say(text)]
    case ThinkingBlock(thinking, signature) => ReplayedOne(SignedThinking(thinking, signature))
    case RedactedBlock(data) => ReplayedOne(RedactedThinking(data))
    case ToolBlock(id, name, input) => [Use(id, name, InputOf(input))]
    case OtherBlock => []
  }

  function SentAll(content: seq<Block>): (r: seq<Content>) {
    if content == [] then [] else Sent(content[0]) + SentAll(content[1..])
  }

  function Where(content: seq<Block>, keep: Block -> bool): (r: seq<Block>) {
    if content == [] then []
    else (if keep(content[0]) then [content[0]] else []) + Where(content[1..], keep)
  }

  function TextIn(content: seq<Block>): (r: string) {
    if content == [] then "" else (if content[0].TextBlock? then content[0].text else "") + TextIn(content[1..])
  }

  predicate Reasons(b: Block) { b.ThinkingBlock? || b.RedactedBlock? }
  predicate Calls(b: Block) { b.ToolBlock? }

  lemma ReplayedSnoc(blocks: seq<ReasoningBlock>, b: ReasoningBlock)
    ensures Replayed(blocks + [b]) == Replayed(blocks) + ReplayedOne(b)
  {
    assert (blocks + [b])[..|blocks|] == blocks;
  }

  lemma UsesSnoc(f: Foreign, calls: seq<ToolCall>, c: ToolCall)
    requires Uses(f, calls).Some? && f.isObject(InputOf(c.arguments))
    ensures Uses(f, calls + [c]) == Some(Uses(f, calls).value + [Use(c.id, c.name, InputOf(c.arguments))])
  {
    assert (calls + [c])[..|calls|] == calls;
  }

  ghost predicate Callable(f: Foreign, content: seq<Block>) {
    forall i :: 0 <= i < |content| && content[i].ToolBlock? ==> f.isObject(InputOf(content[i].input))
  }

  lemma EmptyInput()
    ensures InputOf("{}") == "{}" && InputOf("") == "{}"
  {
    Untrimmed("{}");
  }

  /** What a reply gathers from its blocks, sent back. */
  lemma {:induction false} GatherReplays(f: Foreign, r: Reply, content: seq<Block>)
    requires Uses(f, r.calls).Some? && Callable(f, content)
    ensures var q := WithBlocks(r, content);
      && q.content == r.content + TextIn(content)
      && Replayed(q.blocks) == Replayed(r.blocks) + SentAll(Where(content, Reasons))
      && Uses(f, q.calls) == Some(Uses(f, r.calls).value + SentAll(Where(content, Calls)))
    decreases |content|
  {
    if content == [] {
      assert r.content + "" == r.content;
      assert Replayed(r.blocks) + [] == Replayed(r.blocks) && Uses(f, r.calls).value + [] == Uses(f, r.calls).value;
    } else {
      var b, rest := content[0], content[1..];
      var r1 := WithBlock(r, b);
      OneReplays(f, r, b);
      assert Callable(f, rest);
      GatherReplays(f, r1, rest);
      SentHead(b, rest, Reasons);
      SentHead(b, rest, Calls);
      assert Where(content, Reasons) == (if Reasons(b) then [b] else []) + Where(rest, Reasons);
      assert Where(content, Calls) == (if Calls(b) then [b] else []) + Where(rest, Calls);
      Assoc(Replayed(r.blocks), if Reasons(b) then Sent(b) else [], SentAll(Where(rest, Reasons)));
      Assoc(Uses(f, r.calls).value, if Calls(b) then Sent(b) else [], SentAll(Where(rest, Calls)));
      Assoc(r.content, if b.TextBlock? then b.text else "", TextIn(rest));
    }
  }

  lemma SentHead(b: Block, rest: seq<Block>, keep: Block -> bool)
    ensures SentAll((if keep(b) then [b] else []) + Where(rest, keep))
            == (if keep(b) then Sent(b) else []) + SentAll(Where(rest, keep))
  {
    var tail := Where(rest, keep);
    if keep(b) {
      assert ([b] + tail)[1..] == tail;
    } else {
      assert [] + tail == tail && [] + SentAll(tail) == SentAll(tail);
    }
  }

  lemma OneReplays(f: Foreign, r: Reply, b: Block)
    requires Uses(f, r.calls).Some? && (b.ToolBlock? ==> f.isObject(InputOf(b.input)))
    ensures var q := WithBlock(r, b);
      && q.content == r.content + (if b.TextBlock? then b.text else "")
      && Replayed(q.blocks) == Replayed(r.blocks) + (if Reasons(b) then Sent(b) else [])
      && Uses(f, q.calls) == Some(Uses(f, r.calls).value + (if Calls(b) then Sent(b) else []))
  {
    assert r.content + "" == r.content;
    assert Replayed(r.blocks) + [] == Replayed(r.blocks) && Uses(f, r.calls).value + [] == Uses(f, r.calls).value;
    match b
    case TextBlock(_) =>
    case ThinkingBlock(thinking, signature) => ReplayedSnoc(r.blocks, SignedThinking(thinking, signature));
    case RedactedBlock(data) => ReplayedSnoc(r.blocks, RedactedThinking(data));
    case ToolBlock(id, name, input) =>
      EmptyInput();
      UsesSnoc(f, r.calls, ToolCall(id, "function", name, if input == "" then "{}" else input));
    case OtherBlock =>
  }

  lemma TurnOfReply(f: Foreign, r: Reply)
    requires Uses(f, r.calls).Some?
    ensures TurnOf(f, AsTurn(r))
            == Speech(Assistant, Replayed(r.blocks) + (if r.content == "" then [] else [Say(r.content)]) + Uses(f, r.calls).value)
  {
  }

  lemma GatheredFresh(f: Foreign, m: Message)
    requires Callable(f, m.content)
    ensures var q := ToChatResponse(m);
      && q.content == TextIn(m.content)
      && Replayed(q.blocks) == SentAll(Where(m.content, Reasons))
      && Uses(f, q.calls) == Some(SentAll(Where(m.content, Calls)))
  {
    Unit(TextIn(m.content));
    Unit(SentAll(Where(m.content, Reasons)));
    Unit(SentAll(Where(m.content, Calls)));
    var r := Began(m.id, m.model);
    assert Replayed(r.blocks) == [] && Uses(f, r.calls) == Some([]) && r.content == "";
    GatherReplays(f, r, m.content);
  }

  /** Sending a converted answer back gives its signed reasoning, then its text, then its
      tool calls, each in the order they were answered: nothing signed is lost. */
  lemma AnswerReplays(f: Foreign, m: Message)
    requires Callable(f, m.content)
    ensures TurnOf(f, AsTurn(ToChatResponse(m)))
            == Speech(Assistant, SentAll(Where(m.content, Reasons))
                                 + (if TextIn(m.content) == "" then [] else [Say(TextIn(m.content))])
                                 + SentAll(Where(m.content, Calls)))
  {
    GatheredFresh(f, m);
    TurnOfReply(f, ToChatResponse(m));
  }
}
