/**
 From the bytes of a streamed reply to its text: the SSE reader of
 common/runtime/openai/sse.go under the chunk decoder of
 common/runtime/openai/stream.go.
 */
module ChatBytes {
  import opened Options
  import opened Text
  import opened ThinkSplitter
  import opened ChatStream
  import Sse

  function DataOf(frames: seq<Sse.Frame>): (r: seq<string>)
    ensures |r| == |frames| && forall i :: 0 <= i < |r| ==> r[i] == frames[i].data
  {
    seq(|frames|, i requires 0 <= i < |frames| => frames[i].data)
  }

  /** What a consumer is sent for the bytes of a stream, and how it ends. */
  function DecodedBytes(c: Client, thinking: Option<bool>, bytes: string, limits: Sse.Limits,
                        decode: string -> Option<Chunk>, patience: nat): (r: (seq<ChatEvent>, Ending))
  {
    var (frames, end) := Sse.Events(bytes, limits);
    Decoded(SplitterFor(c, thinking), "", "", DataOf(frames), end.Clean?, decode, patience)
  }

  /** The blocks mean frames that carry these chunks. */
  ghost predicate Carry(blocks: seq<Sse.Block>, chunks: seq<Chunk>, decode: string -> Option<Chunk>) {
    var frames := Sse.Meaning(blocks);
    && |frames| == |chunks|
    && forall i :: 0 <= i < |frames| ==> frames[i].data != "" && decode(frames[i].data) == Some(chunks[i])
  }

  // ---------------------------------------------------------------- the chunks' own fields

  /** What a chunk says: the content, the reasoning and the finish reason of its first
      choice, and nothing without one. */
  function Content(c: Chunk): string { if c.choices == [] then "" else c.choices[0].content }

  function Separated(c: Chunk): string {
    if c.choices == [] then ""
    else if c.choices[0].reasoningContent != "" then c.choices[0].reasoningContent
    else c.choices[0].reasoning
  }

  function Finish(c: Chunk): string {
    if c.choices == [] || c.choices[0].finishReason.None? then "" else c.choices[0].finishReason.value
  }

  function Pieces(chunks: seq<Chunk>): (r: seq<string>)
    ensures |r| == |chunks| && forall i :: 0 <= i < |r| ==> r[i] == Content(chunks[i])
  {
    seq(|chunks|, i requires 0 <= i < |chunks| => Content(chunks[i]))
  }

  function Reasonings(chunks: seq<Chunk>): (r: seq<string>)
    ensures |r| == |chunks| && forall i :: 0 <= i < |r| ==> r[i] == Separated(chunks[i])
  {
    seq(|chunks|, i requires 0 <= i < |chunks| => Separated(chunks[i]))
  }

  /** The event of a chunk has the chunk's own texts, each on its side. */
  lemma EventText(c: Chunk)
    ensures EventFromChunk(c).delta.text == Parts(Separated(c), Content(c))
    ensures EventFromChunk(c).finishReason == Finish(c)
  {
  }

  lemma {:induction false} EventsOf(chunks: seq<Chunk>)
    ensures forall i :: 0 <= i < |chunks| ==> EventsFromChunks(chunks)[i] == EventFromChunk(chunks[i])
  {
    if chunks != [] { EventsOf(chunks[1..]); }
  }

  lemma {:induction false} ContentsAre(chunks: seq<Chunk>)
    ensures Contents(EventsFromChunks(chunks)) == Pieces(chunks)
  {
    if chunks != [] {
      ContentsAre(chunks[1..]);
      EventText(chunks[0]);
      assert EventsFromChunks(chunks)[1..] == EventsFromChunks(chunks[1..]);
      assert Pieces(chunks) == [Content(chunks[0])] + Pieces(chunks[1..]);
    }
  }

  lemma {:induction false} TextIs(chunks: seq<Chunk>)
    ensures TextOf(EventsFromChunks(chunks)) == Parts(Concat(Reasonings(chunks)), Concat(Pieces(chunks)))
  {
    if chunks != [] {
      TextIs(chunks[1..]);
      EventText(chunks[0]);
      assert EventsFromChunks(chunks)[1..] == EventsFromChunks(chunks[1..]);
      assert Pieces(chunks)[1..] == Pieces(chunks[1..]) && Reasonings(chunks)[1..] == Reasonings(chunks[1..]);
    }
  }

  lemma {:induction false} EventsSlice(chunks: seq<Chunk>, k: nat)
    requires k <= |chunks|
    ensures EventsFromChunks(chunks)[..k] == EventsFromChunks(chunks[..k])
    ensures EventsFromChunks(chunks)[k..] == EventsFromChunks(chunks[k..])
  {
    EventsOf(chunks);
    EventsOf(chunks[..k]);
    EventsOf(chunks[k..]);
  }

  /** The chunk from which on the backend separates reasoning itself; none: the length. */
  ghost predicate SeparatesFrom(chunks: seq<Chunk>, k: nat) {
    && k <= |chunks| && (forall i :: 0 <= i < k ==> Separated(chunks[i]) == "")
    && (k < |chunks| ==> Separated(chunks[k]) != "")
  }

  /** No content follows a finish reason. */
  ghost predicate EndsOnce(chunks: seq<Chunk>) {
    forall i, j :: 0 <= i < j < |chunks| && Finish(chunks[i]) != "" ==> Content(chunks[j]) == ""
  }

  lemma SeparationFound(chunks: seq<Chunk>, k: nat)
    requires SeparatesFrom(chunks, k)
    ensures FirstSeparated(EventsFromChunks(chunks)) == k
  {
    var events := EventsFromChunks(chunks);
    EventsOf(chunks);
    forall i | 0 <= i < |chunks| ensures events[i].delta.text.reasoning == Separated(chunks[i]) { EventText(chunks[i]); }
  }

  lemma EndsOnceFound(chunks: seq<Chunk>)
    requires EndsOnce(chunks)
    ensures ContentEnds(EventsFromChunks(chunks))
  {
    var events := EventsFromChunks(chunks);
    EventsOf(chunks);
    forall i | 0 <= i < |chunks|
      ensures events[i].delta.text.answer == Content(chunks[i]) && events[i].finishReason == Finish(chunks[i])
    {
      EventText(chunks[i]);
    }
  }

  // ---------------------------------------------------------------- from bytes to text

  /** What the reply comes to, told from the chunks alone: what was sent before the backend
      separated reasoning, split as one message; then everything as it was sent. */
  function Told(c: Client, thinking: Option<bool>, chunks: seq<Chunk>, k: nat): (r: Parts)
    requires k <= |chunks|
  {
    var before, after := chunks[..k], chunks[k..];
    SplitMessageOf(c, thinking, Parts("", Concat(Pieces(before)))).Then(Parts(Concat(Reasonings(after)), Concat(Pieces(after))))
  }

  lemma RelayedIsTold(c: Client, thinking: Option<bool>, chunks: seq<Chunk>, k: nat)
    requires SeparatesFrom(chunks, k) && EndsOnce(chunks[..k])
    ensures TextOf(Relayed(SplitterFor(c, thinking), "", "", EventsFromChunks(chunks))) == Told(c, thinking, chunks, k)
            <==> CutInTime(c, thinking, Pieces(chunks[..k]))
  {
    var events := EventsFromChunks(chunks);
    var split := SplitterFor(c, thinking);
    SeparationFound(chunks, k);
    EventsSlice(chunks, k);
    EndsOnceFound(chunks[..k]);
    ContentsAre(chunks[..k]);
    TextIs(chunks[k..]);
    if split.None? {
      UnsplitIsTold(chunks, k);
    } else {
      StreamAgreesWithWhole(split.value.fallback, events);
    }
  }

  lemma UnsplitIsTold(chunks: seq<Chunk>, k: nat)
    requires SeparatesFrom(chunks, k)
    ensures TextOf(Relayed(None, "", "", EventsFromChunks(chunks)))
            == Parts("", Concat(Pieces(chunks[..k]))).Then(Parts(Concat(Reasonings(chunks[k..])), Concat(Pieces(chunks[k..]))))
  {
    TextOfUnsplit("", "", EventsFromChunks(chunks));
    TextIs(chunks);
    PiecesSplit(chunks, k);
    NothingJoined(Reasonings(chunks[..k]));
    Unit(Concat(Reasonings(chunks[k..])));
  }

  lemma PiecesSplit(chunks: seq<Chunk>, k: nat)
    requires k <= |chunks|
    ensures Concat(Pieces(chunks)) == Concat(Pieces(chunks[..k])) + Concat(Pieces(chunks[k..]))
    ensures Concat(Reasonings(chunks)) == Concat(Reasonings(chunks[..k])) + Concat(Reasonings(chunks[k..]))
  {
    PiecesAppend(chunks[..k], chunks[k..]);
    assert chunks[..k] + chunks[k..] == chunks;
    ConcatAppend(Pieces(chunks[..k]), Pieces(chunks[k..]));
    ConcatAppend(Reasonings(chunks[..k]), Reasonings(chunks[k..]));
  }

  lemma PiecesAppend(a: seq<Chunk>, b: seq<Chunk>)
    ensures Pieces(a + b) == Pieces(a) + Pieces(b) && Reasonings(a + b) == Reasonings(a) + Reasonings(b)
  {
  }

  lemma {:induction false} NothingJoined(parts: seq<string>)
    requires forall i :: 0 <= i < |parts| ==> parts[i] == ""
    ensures Concat(parts) == ""
  {
    if parts != [] { NothingJoined(parts[1..]); }
  }

  /** For every reply, every cutting into chunks and every way of sending these as events
      (every spelling of a field, comment lines, either line ending, a last event left
      unfinished): the text that comes out of the bytes is what the chunks tell, if and
      only if no chunk boundary is cut too late. */
  lemma BytesTellTheReply(c: Client, thinking: Option<bool>, blocks: seq<Sse.Block>, last: seq<Sse.Item>, cut: bool,
                          limits: Sse.Limits, decode: string -> Option<Chunk>, chunks: seq<Chunk>, k: nat, patience: nat)
    requires forall i :: 0 <= i < |blocks| ==> Sse.Sendable(blocks[i], limits)
    requires Sse.Sendable(Sse.Block(last, false), limits)
    requires Carry(blocks + [Sse.Block(last, false)], chunks, decode) && |chunks| < patience
    requires SeparatesFrom(chunks, k) && EndsOnce(chunks[..k])
    ensures var (sent, ending) :=
        DecodedBytes(c, thinking, Sse.PrintAll(blocks) + Sse.PrintLast(last, cut), limits, decode, patience);
      && ending == Normal
      && (TextOf(sent) == Told(c, thinking, chunks, k) <==> CutInTime(c, thinking, Pieces(chunks[..k])))
  {
    BytesAreRelayed(c, thinking, blocks, last, cut, limits, decode, chunks, patience);
    RelayedIsTold(c, thinking, chunks, k);
  }

  /** Bytes that carry chunks are the relay of those chunks, and end normally. */
  lemma BytesAreRelayed(c: Client, thinking: Option<bool>, blocks: seq<Sse.Block>, last: seq<Sse.Item>, cut: bool,
                        limits: Sse.Limits, decode: string -> Option<Chunk>, chunks: seq<Chunk>, patience: nat)
    requires forall i :: 0 <= i < |blocks| ==> Sse.Sendable(blocks[i], limits)
    requires Sse.Sendable(Sse.Block(last, false), limits)
    requires Carry(blocks + [Sse.Block(last, false)], chunks, decode) && |chunks| < patience
    ensures DecodedBytes(c, thinking, Sse.PrintAll(blocks) + Sse.PrintLast(last, cut), limits, decode, patience)
            == (Relayed(SplitterFor(c, thinking), "", "", EventsFromChunks(chunks)), Normal)
  {
    Sse.RoundTrip(blocks, last, cut, limits);
    var frames := Sse.Meaning(blocks + [Sse.Block(last, false)]);
    DecodedIsRelayed(SplitterFor(c, thinking), "", "", DataOf(frames), decode, chunks, patience);
  }

  /** A backend that never separates reasoning: the text is what splitMessage makes of all
      content, again if and only if no chunk boundary is cut too late. */
  lemma BytesAgreeWithSplitMessage(c: Client, thinking: Option<bool>, blocks: seq<Sse.Block>, last: seq<Sse.Item>, cut: bool,
                                   limits: Sse.Limits, decode: string -> Option<Chunk>, chunks: seq<Chunk>, patience: nat)
    requires forall i :: 0 <= i < |blocks| ==> Sse.Sendable(blocks[i], limits)
    requires Sse.Sendable(Sse.Block(last, false), limits)
    requires Carry(blocks + [Sse.Block(last, false)], chunks, decode) && |chunks| < patience
    requires (forall i :: 0 <= i < |chunks| ==> Separated(chunks[i]) == "") && EndsOnce(chunks)
    ensures var (sent, ending) :=
        DecodedBytes(c, thinking, Sse.PrintAll(blocks) + Sse.PrintLast(last, cut), limits, decode, patience);
      && ending == Normal
      && (TextOf(sent) == SplitMessageOf(c, thinking, Parts("", Concat(Pieces(chunks)))) <==> CutInTime(c, thinking, Pieces(chunks)))
  {
    ToldWhole(c, thinking, chunks);
    BytesTellTheReply(c, thinking, blocks, last, cut, limits, decode, chunks, |chunks|, patience);
  }

  lemma ToldWhole(c: Client, thinking: Option<bool>, chunks: seq<Chunk>)
    ensures chunks[..|chunks|] == chunks
    ensures Told(c, thinking, chunks, |chunks|) == SplitMessageOf(c, thinking, Parts("", Concat(Pieces(chunks))))
  {
    var n := |chunks|;
    assert chunks[..n] == chunks && chunks[n..] == [];
    assert Concat(Pieces([])) == "" && Concat(Reasonings([])) == "";
    ThenUnit(SplitMessageOf(c, thinking, Parts("", Concat(Pieces(chunks)))));
  }

  // ---------------------------------------------------------------- everything but the text

  /** Every frame that decodes becomes one event with the chunk's id, model, role, tool calls,
      finish reason and usage. */
  lemma EventsCarryTheChunks(split: Option<Splitter>, frames: seq<string>, decode: string -> Option<Chunk>, chunks: seq<Chunk>,
                             patience: nat, i: nat)
    requires split.Some? ==> !split.value.fallback.Deciding?
    requires |chunks| == |frames| < patience && i < |chunks|
    requires forall n :: 0 <= n < |frames| ==> frames[n] != "" && decode(frames[n]) == Some(chunks[n])
    ensures var sent := Decoded(split, "", "", frames, true, decode, patience).0;
      && |chunks| <= |sent| <= |chunks| + 1
      && sent[i].id == chunks[i].id && sent[i].model == chunks[i].model && sent[i].usage == chunks[i].usage
      && sent[i].finishReason == Finish(chunks[i])
      && (chunks[i].choices == [] ==> sent[i].delta.role == "" && sent[i].delta.toolCalls == [])
      && (chunks[i].choices != [] ==>
            sent[i].delta.role == chunks[i].choices[0].role && sent[i].delta.toolCalls == chunks[i].choices[0].toolCalls)
  {
    DecodedIsRelayed(split, "", "", frames, decode, chunks, patience);
    RelayedKeepsTheRest(split, "", "", EventsFromChunks(chunks));
    EventsOf(chunks);
  }
}
