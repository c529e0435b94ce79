/**
 The fallback reasoning parser of common/runtime/openai/reasoning.go: it cuts
 `<think>…</think>` out of a reply chunk by chunk, holding back only a partial
 tag. `SplitReply` says what the parser is for, on a whole reply; the theorems
 say exactly when the streamed form agrees with it.
 */
module ThinkSplitter {
  import opened Text

  const OPEN := "<think>"
  const CLOSE := "</think>"
  const MAX_LEAD := 64
  const BLANKS: set<char> := {' ', '\t', '\r', '\n'}
  const NEWLINES: set<char> := {'\r', '\n'}

  datatype Phase = Deciding | Inside | Answer

  /** Reasoning and answer text released by one or more steps. */
  datatype Parts = Parts(reasoning: string, answer: string) {
    function Then(next: Parts): (r: Parts) {
      Parts(reasoning + next.reasoning, answer + next.answer)
    }
  }

  const NOTHING := Parts("", "")

  lemma ThenAssociates(a: Parts, b: Parts, c: Parts)
    ensures a.Then(b).Then(c) == a.Then(b.Then(c))
  {
    assert a.reasoning + b.reasoning + c.reasoning == a.reasoning + (b.reasoning + c.reasoning);
    assert a.answer + b.answer + c.answer == a.answer + (b.answer + c.answer);
  }

  lemma ThenUnit(a: Parts)
    ensures NOTHING.Then(a) == a == a.Then(NOTHING)
  {
    assert "" + a.reasoning == a.reasoning == a.reasoning + "";
    assert "" + a.answer == a.answer == a.answer + "";
  }

  /** The parser's fields, as a value. */
  datatype Splitter = Splitter(state: Phase, fallback: Phase, held: string, trimLead: bool) {

    /** What holds between two pushes. */
    predicate Settled() {
      && !fallback.Deciding?
      && (state.Deciding? ==> |held| <= MAX_LEAD && TrimLeft(held, BLANKS) < OPEN && !trimLead)
      && (state.Inside? ==> held < CLOSE && !trimLead)
      && (state.Answer? ==> held == "")
    }
  }

  function Fresh(fallback: Phase): Splitter { Splitter(Deciding, fallback, "", false) }

  // ---------------------------------------------------------------- specification

  /** The reply once the reasoning is known to have started: up to the first
      closing tag it is reasoning, after it and the newlines that follow, answer. */
  function SplitInside(body: string): (r: Parts) {
    var i := Index(body, CLOSE);
    if i < 0 then Parts(body, "") else Parts(body[..i], TrimLeft(body[i + |CLOSE|..], NEWLINES))
  }

  /** The split of a whole reply. */
  function SplitReply(fallback: Phase, text: string): (r: Parts) {
    var lead := TrimLeft(text, BLANKS);
    if OPEN <= lead then SplitInside(lead[|OPEN|..])
    else if fallback.Inside? then SplitInside(text)
    else Parts("", text)
  }

  /** `text` is reasoning, closing tag, newlines, answer. */
  ghost predicate Reassembles(text: string, p: Parts, gap: string) {
    && text == p.reasoning + CLOSE + gap + p.answer
    && (forall i :: 0 <= i < |gap| ==> gap[i] in NEWLINES)
    && (p.answer != "" ==> p.answer[0] !in NEWLINES)
  }

  /** Nothing is lost but the closing tag and the newlines after it (`gap`), and
      no closing tag is left in the reasoning. */
  lemma SplitInsideReassembles(body: string) returns (gap: string)
    ensures Index(SplitInside(body).reasoning, CLOSE) < 0
    ensures Index(body, CLOSE) < 0 ==> SplitInside(body) == Parts(body, "")
    ensures Index(body, CLOSE) >= 0 ==> Reassembles(body, SplitInside(body), gap)
  {
    gap := "";
    var i := Index(body, CLOSE);
    if i >= 0 {
      BeforeFirst(body, CLOSE);
      IndexSpec(body, CLOSE);
      ThreePieces(body, i, CLOSE);
      var rest := body[i + |CLOSE|..];
      gap := Gap(rest);
      Assoc(body[..i] + CLOSE, gap, TrimLeft(rest, NEWLINES));
    }
  }

  lemma Gap(rest: string) returns (gap: string)
    ensures rest == gap + TrimLeft(rest, NEWLINES)
    ensures forall i :: 0 <= i < |gap| ==> gap[i] in NEWLINES
    ensures var a := TrimLeft(rest, NEWLINES); a != "" ==> a[0] !in NEWLINES
  {
    TrimLeftSpec(rest, NEWLINES);
    gap := rest[..|rest| - |TrimLeft(rest, NEWLINES)|];
  }

  lemma ThreePieces(s: string, i: nat, pat: string)
    requires At(s, pat, i)
    ensures s == s[..i] + pat + s[i + |pat|..]
  {
  }

  // ---------------------------------------------------------------- the parser

  /** `s` ends in the first `n` bytes of `tag`. */
  predicate EndsIn(s: string, tag: string, n: int) {
    0 <= n <= |tag| && n <= |s| && s[|s| - n..] == tag[..n]
  }

  /** The largest n at most `n` for which `text` ends in the first n bytes of `tag`. */
  function Overlap(text: string, tag: string, n: nat): (r: nat)
    ensures r <= n
  {
    if n == 0 || EndsIn(text, tag, n) then n else Overlap(text, tag, n - 1)
  }

  function PartialSuffixOf(text: string, tag: string): (r: nat)
    requires tag != ""
    ensures r < |tag| && r <= |text|
  {
    Overlap(text, tag, if |tag| - 1 <= |text| then |tag| - 1 else |text|)
  }

  lemma {:induction false} OverlapSpec(text: string, tag: string, n: nat)
    ensures EndsIn(text, tag, Overlap(text, tag, n))
    ensures forall m :: Overlap(text, tag, n) < m <= n ==> !EndsIn(text, tag, m)
  {
    if n != 0 && !EndsIn(text, tag, n) { OverlapSpec(text, tag, n - 1); }
  }

  /** The longest proper prefix of `tag` that `text` ends in. */
  lemma PartialSuffixSpec(text: string, tag: string)
    requires tag != ""
    ensures EndsIn(text, tag, PartialSuffixOf(text, tag))
    ensures forall m :: PartialSuffixOf(text, tag) < m < |tag| ==> !EndsIn(text, tag, m)
  {
    OverlapSpec(text, tag, if |tag| - 1 <= |text| then |tag| - 1 else |text|);
  }

  /** The source's loop, counting down. */
  method PartialSuffix(text: string, tag: string) returns (n: nat)
    requires tag != ""
    ensures n == PartialSuffixOf(text, tag)
    ensures EndsIn(text, tag, n)
    ensures forall m :: n < m < |tag| && m <= |text| ==> !EndsIn(text, tag, m)
  {
    n := if |tag| - 1 <= |text| then |tag| - 1 else |text|;
    while n > 0
      invariant n < |tag| && n <= |text|
      invariant Overlap(text, tag, n) == PartialSuffixOf(text, tag)
      invariant forall m :: n < m < |tag| && m <= |text| ==> !EndsIn(text, tag, m)
    {
      if EndsIn(text, tag, n) { return; }
      n := n - 1;
    }
  }

  /** The phases only move forward. */
  function Rank(state: Phase): nat {
    match state case Deciding => 2 case Inside => 1 case Answer => 0
  }

  /** Everything one push does once the chunk is appended to the held text. */
  function Drain(s: Splitter): (r: (Splitter, Parts))
    requires !s.fallback.Deciding?
    ensures r.0.fallback == s.fallback
    decreases Rank(s.state)
  {
    match s.state
    case Deciding =>
      var lead := TrimLeft(s.held, BLANKS);
      if OPEN <= lead then Drain(s.(held := lead[|OPEN|..], state := Inside))
      else if lead <= OPEN && |s.held| <= MAX_LEAD then (s, NOTHING)
      else Drain(s.(state := s.fallback))
    case Inside =>
      var i := Index(s.held, CLOSE);
      if i >= 0 then
        var (s', p) := Drain(s.(held := s.held[i + |CLOSE|..], state := Answer, trimLead := true));
        (s', Parts(s.held[..i], "").Then(p))
      else
        var cut := |s.held| - PartialSuffixOf(s.held, CLOSE);
        (s.(held := s.held[cut..]), Parts(s.held[..cut], ""))
    case Answer =>
      var held := if s.trimLead then TrimLeft(s.held, NEWLINES) else s.held;
      (s.(held := "", trimLead := s.trimLead && held == ""), Parts("", held))
  }

  lemma DrainOpen(s: Splitter, cut: nat)
    requires !s.fallback.Deciding? && s.state.Inside? && Index(s.held, CLOSE) < 0
    requires cut == |s.held| - PartialSuffixOf(s.held, CLOSE)
    ensures Drain(s) == (s.(held := s.held[cut..]), Parts(s.held[..cut], ""))
  {
  }

  lemma DrainClosing(s: Splitter, i: nat)
    requires !s.fallback.Deciding? && s.state.Inside? && Index(s.held, CLOSE) == i
    ensures i + |CLOSE| <= |s.held|
    ensures var (s', p) := Drain(s.(held := s.held[i + |CLOSE|..], state := Answer, trimLead := true));
      Drain(s) == (s', Parts(s.held[..i], "").Then(p))
  {
  }

  /** The answer phase never waits and never goes back to reasoning. */
  lemma DrainAnswer(s: Splitter)
    requires !s.fallback.Deciding? && s.state.Answer?
    ensures var held := if s.trimLead then TrimLeft(s.held, NEWLINES) else s.held;
      Drain(s) == (s.(held := "", trimLead := s.trimLead && held == ""), Parts("", held))
  {
  }

  function PushOf(s: Splitter, text: string): (r: (Splitter, Parts))
    requires !s.fallback.Deciding?
  {
    Drain(s.(held := s.held + text))
  }

  function FlushOf(s: Splitter): (r: Parts) {
    var state := if s.state.Deciding? then s.fallback else s.state;
    if state.Inside? then Parts(s.held, "")
    else Parts("", if s.trimLead then TrimLeft(s.held, NEWLINES) else s.held)
  }

  /** All chunks of a reply in order. */
  function Feed(s: Splitter, chunks: seq<string>): (r: (Splitter, Parts))
    requires !s.fallback.Deciding?
    ensures r.0.fallback == s.fallback
    decreases chunks
  {
    if chunks == [] then (s, NOTHING) else
      var (s1, p1) := PushOf(s, chunks[0]);
      var (s2, p2) := Feed(s1, chunks[1..]);
      (s2, p1.Then(p2))
  }

  /** The whole reply, streamed: every chunk pushed, then one flush. */
  function Streamed(fallback: Phase, chunks: seq<string>): (r: Parts)
    requires !fallback.Deciding?
  {
    var (s, p) := Feed(Fresh(fallback), chunks);
    p.Then(FlushOf(s))
  }

  // ---------------------------------------------------------------- the source's object

  /** thinkSplitter, with the fields push and flush update in place. */
  class Parser {
    var state: Phase
    const fallback: Phase
    var held: string
    var trimLead: bool

    constructor (fallback: Phase)
      ensures Value() == Fresh(fallback)
    {
      this.state, this.fallback, this.held, this.trimLead := Deciding, fallback, "", false;
    }

    ghost function Value(): Splitter
      reads this
    {
      Splitter(state, fallback, held, trimLead)
    }

    /** One turn of the loop of push: what it releases, and whether it goes on. */
    method Turn() returns (released: Parts, more: bool)
      requires !fallback.Deciding?
      modifies this
      ensures more ==> Rank(state) < Rank(old(state))
      ensures more ==> Drain(old(Value())) == (Drain(Value()).0, released.Then(Drain(Value()).1))
      ensures !more ==> Drain(old(Value())) == (Value(), released)
    {
      ghost var now := Value();
      match state {
        case Deciding =>
          var lead := TrimLeft(held, BLANKS);
          if OPEN <= lead {
            held, state := lead[|OPEN|..], Inside;
            ThenUnit(Drain(Value()).1);
            return NOTHING, true;
          }
          if lead <= OPEN && |held| <= MAX_LEAD {
            return NOTHING, false;
          }
          state := fallback;
          ThenUnit(Drain(Value()).1);
          return NOTHING, true;
        case Inside =>
          var i := Index(held, CLOSE);
          if i >= 0 {
            DrainClosing(now, i);
            released := Parts(held[..i], "");
            held, state, trimLead := held[i + |CLOSE|..], Answer, true;
            return released, true;
          }
          var keep := PartialSuffix(held, CLOSE);
          DrainOpen(now, |held| - keep);
          released := Parts(held[..|held| - keep], "");
          held := held[|held| - keep..];
          return released, false;
        case Answer =>
          DrainAnswer(now);
          if trimLead {
            held := TrimLeft(held, NEWLINES);
            if held == "" {
              return NOTHING, false;
            }
            trimLead := false;
          }
          released := Parts("", held);
          held := "";
          return released, false;
      }
    }

    /** Feeds one chunk and returns what can be released. */
    method Push(text: string) returns (released: Parts)
      requires !fallback.Deciding?
      modifies this
      ensures (Value(), released) == PushOf(old(Value()), text)
    {
      held := held + text;
      ghost var start := Value();
      released := NOTHING;
      ThenUnit(Drain(start).1);
      var more := true;
      while more
        invariant more ==> Drain(start) == (Drain(Value()).0, released.Then(Drain(Value()).1))
        invariant !more ==> Drain(start) == (Value(), released)
        decreases if more then 1 + Rank(state) else 0
      {
        ghost var before := released;
        var part;
        part, more := Turn();
        released := released.Then(part);
        if more { ThenAssociates(before, part, Drain(Value()).1); }
      }
    }

    /** Releases whatever Push was still holding at the end of the reply. */
    method Flush() returns (released: Parts)
      modifies this
      ensures released == FlushOf(old(Value()))
      ensures Value() == old(Value()).(held := "")
    {
      var text := held;
      held := "";
      var phase := state;
      if phase.Deciding? {
        phase := fallback;
      }
      if phase.Inside? {
        return Parts(text, "");
      }
      if trimLead {
        text := TrimLeft(text, NEWLINES);
      }
      return Parts("", text);
    }
  }
}
