/**
 What the chunk-by-chunk parser does to a whole reply, for every reply and every
 way of cutting it.
 */
module ThinkSplitterTheorems {
  import opened Text
  import opened ThinkSplitter

  // ---------------------------------------------------------------- one push

  /** Every push ends in a settled state, so no more than 64 bytes are ever held
      while deciding, no more than 7 inside the reasoning, and none in the answer. */
  lemma PushSettles(s: Splitter, text: string)
    requires !s.fallback.Deciding?
    requires !s.state.Answer? ==> !s.trimLead
    ensures PushOf(s, text).0.Settled()
    ensures var h := PushOf(s, text).0;
      && (h.state.Deciding? ==> |h.held| <= 64)
      && (h.state.Inside? ==> |h.held| <= 7)
      && (h.state.Answer? ==> h.held == "")
  {
    DrainSettles(s.(held := s.held + text));
  }

  lemma DrainSettles(s: Splitter)
    requires !s.fallback.Deciding?
    requires !s.state.Answer? ==> !s.trimLead
    ensures Drain(s).0.Settled()
    decreases Rank(s.state)
  {
    match s.state
    case Deciding =>
      var lead := TrimLeft(s.held, BLANKS);
      if OPEN <= lead { DrainSettles(s.(held := lead[|OPEN|..], state := Inside)); }
      else if lead <= OPEN && |s.held| <= MAX_LEAD { }
      else { DrainSettles(s.(state := s.fallback)); }
    case Inside =>
      var i := Index(s.held, CLOSE);
      if i >= 0 {
        DrainSettles(s.(held := s.held[i + |CLOSE|..], state := Answer, trimLead := true));
      } else {
        PartialSuffixSpec(s.held, CLOSE);
        DrainOpen(s, |s.held| - PartialSuffixOf(s.held, CLOSE));
      }
    case Answer =>
  }

  /** A settled parser has nothing more to release. */
  lemma DrainIdle(s: Splitter)
    requires s.Settled()
    ensures Drain(s) == (s, NOTHING)
  {
    match s.state
    case Deciding =>
    case Inside =>
      IndexNone(s.held, CLOSE);
      assert s.held == CLOSE[..|s.held|];
      assert EndsIn(s.held, CLOSE, |s.held|);
      LargestOverlap(s.held, CLOSE, |s.held|);
    case Answer =>
  }

  // ---------------------------------------------------------------- inside the reasoning

  /** No tag of `body + y` starts before the bytes kept back from `body`. */
  lemma NoEarlyTag(body: string, y: string, tag: string, j: nat)
    requires tag != "" && Index(body, tag) < 0
    requires j < |body| - PartialSuffixOf(body, tag)
    ensures !At(body + y, tag, j)
  {
    IndexSpec(body, tag);
    PartialSuffixSpec(body, tag);
    if j + |tag| <= |body| {
      assert (body + y)[j..j + |tag|] == body[j..j + |tag|];
      assert !At(body, tag, j);
    } else if At(body + y, tag, j) {
      TailOfTag(body, y, tag, j);
    }
  }

  /** A tag straddling the seam shows its first bytes at the end of `body`. */
  lemma TailOfTag(body: string, y: string, tag: string, j: nat)
    requires At(body + y, tag, j) && j <= |body| < j + |tag|
    ensures EndsIn(body, tag, |body| - j)
  {
    var n := |body| - j;
    forall m | 0 <= m < n ensures body[j..][m] == tag[m] {
      assert (body + y)[j..j + |tag|][m] == (body + y)[j + m];
    }
    assert body[j..] == tag[..n];
  }

  /** The kept bytes are also all that can start a tag in `body + y`. */
  lemma OverlapFuses(body: string, h: string, y: string, tag: string)
    requires tag != "" && h == body[|body| - PartialSuffixOf(body, tag)..]
    ensures PartialSuffixOf(body + y, tag) == PartialSuffixOf(h + y, tag)
  {
    var k := |h|;
    forall n | 0 <= n < |tag| ensures EndsIn(body + y, tag, n) <==> EndsIn(h + y, tag, n) {
      SuffixFuses(body, k, y, tag, n);
    }
    SameOverlap(body + y, h + y, tag);
  }

  lemma SameOverlap(a: string, b: string, tag: string)
    requires tag != ""
    requires forall n :: 0 <= n < |tag| ==> (EndsIn(a, tag, n) <==> EndsIn(b, tag, n))
    ensures PartialSuffixOf(a, tag) == PartialSuffixOf(b, tag)
  {
    PartialSuffixSpec(a, tag);
    PartialSuffixSpec(b, tag);
    LargestOverlap(a, tag, PartialSuffixOf(b, tag));
    LargestOverlap(b, tag, PartialSuffixOf(a, tag));
  }

  lemma LargestOverlap(text: string, tag: string, n: nat)
    requires n < |tag| && EndsIn(text, tag, n)
    ensures n <= PartialSuffixOf(text, tag)
  {
    PartialSuffixSpec(text, tag);
  }

  lemma SuffixBeforeSeam(body: string, y: string, tag: string, n: nat)
    requires |y| <= n <= |tag| && EndsIn(body + y, tag, n)
    ensures EndsIn(body, tag, n - |y|)
  {
    var m := n - |y|;
    var at := |body| - m;
    forall i | 0 <= i < m ensures body[at..][i] == tag[i] {
      assert (body + y)[|body + y| - n..][i] == body[at + i];
    }
    assert body[at..] == tag[..m];
  }

  lemma SuffixFuses(body: string, k: nat, y: string, tag: string, n: nat)
    requires tag != "" && n < |tag| && k == PartialSuffixOf(body, tag)
    ensures EndsIn(body + y, tag, n) <==> EndsIn(body[|body| - k..] + y, tag, n)
  {
    if n <= k + |y| {
      SameTail(body, k, y, n);
    } else if EndsIn(body + y, tag, n) {
      SuffixBeforeSeam(body, y, tag, n);
      LargestOverlap(body, tag, n - |y|);
    }
  }

  lemma SameTail(body: string, k: nat, y: string, n: nat)
    requires k <= |body| && n <= k + |y|
    ensures var h := body[|body| - k..] + y; (body + y)[|body + y| - n..] == h[|h| - n..]
  {
    assert body + y == body[..|body| - k] + (body[|body| - k..] + y);
  }

  /** Draining and then pushing `y` does what draining with `y` appended does. */
  ghost predicate Fuses(s: Splitter, y: string)
    requires !s.fallback.Deciding?
  {
    var (s1, p1) := Drain(s);
    var (s2, p2) := PushOf(s1, y);
    Drain(s.(held := s.held + y)) == (s2, p1.Then(p2))
  }

  lemma FusesBy(s: Splitter, y: string, s1: Splitter, p1: Parts, s2: Splitter, p2: Parts)
    requires !s.fallback.Deciding? && s1.fallback == s.fallback
    requires Drain(s) == (s1, p1) && PushOf(s1, y) == (s2, p2)
    requires Drain(s.(held := s.held + y)) == (s2, p1.Then(p2))
    ensures Fuses(s, y)
  {
  }

  lemma AnswerFuses(s: Splitter, y: string)
    requires !s.fallback.Deciding? && s.state.Answer?
    ensures Fuses(s, y)
  {
    var (s1, p1) := Drain(s);
    var (s2, p2) := PushOf(s1, y);
    assert s1.held + y == y;
    if s.trimLead {
      TrimLeftAppend(s.held, y, NEWLINES);
      var t, u := TrimLeft(s.held, NEWLINES), TrimLeft(y, NEWLINES);
      if t == "" { assert t + u == u; }
    }
    var (w, q) := Drain(s.(held := s.held + y));
    assert q == p1.Then(p2);
    assert w == s2;
  }

  lemma InsideFuses(s: Splitter, y: string)
    requires !s.fallback.Deciding? && s.state.Inside?
    ensures Fuses(s, y)
  {
    var body := s.held;
    var i := Index(body, CLOSE);
    if i >= 0 {
      ClosedFuses(s, y);
    } else {
      var cut := |body| - PartialSuffixOf(body, CLOSE);
      var h := body[cut..];
      assert body + y == body[..cut] + (h + y);
      forall j | 0 <= j < cut ensures !At(body[..cut] + (h + y), CLOSE, j) { NoEarlyTag(body, y, CLOSE, j); }
      IndexShift(body[..cut], h + y, CLOSE);
      if Index(h + y, CLOSE) >= 0 {
        ClosingFuses(s, y, cut);
      } else {
        OverlapFuses(body, h, y, CLOSE);
        OpenFuses(s, y, cut);
      }
    }
  }

  /** The tag was already closed before `y` came. */
  lemma ClosedFuses(s: Splitter, y: string)
    requires !s.fallback.Deciding? && s.state.Inside? && Index(s.held, CLOSE) >= 0
    ensures Fuses(s, y)
  {
    var i := Index(s.held, CLOSE);
    IndexAppend(s.held, y, CLOSE);
    var rest := s.held[i + |CLOSE|..];
    var all := s.held + y;
    assert all[i + |CLOSE|..] == rest + y;
    assert all[..i] == s.held[..i];
    var after := s.(held := rest, state := Answer, trimLead := true);
    AnswerFuses(after, y);
    var (s1, p1) := Drain(after);
    ThenAssociates(Parts(s.held[..i], ""), p1, PushOf(s1, y).1);
  }

  /** `y` brings the closing tag, perhaps only its end. */
  lemma ClosingFuses(s: Splitter, y: string, cut: nat)
    requires !s.fallback.Deciding? && s.state.Inside? && Index(s.held, CLOSE) < 0
    requires cut == |s.held| - PartialSuffixOf(s.held, CLOSE)
    requires Index(s.held[cut..] + y, CLOSE) >= 0
    requires Index(s.held + y, CLOSE) == cut + Index(s.held[cut..] + y, CLOSE)
    ensures Fuses(s, y)
  {
    var part := s.held[cut..] + y;
    var i := Index(part, CLOSE);
    SeamPieces(s.held, y, cut, i);
    SeamPieces(s.held, y, cut, i + |CLOSE|);
    DrainOpen(s, cut);
    var s1 := s.(held := s.held[cut..]);
    assert s1.(held := s1.held + y) == s.(held := part);
    SameClosing(s, s.held[..cut], part, s.held + y, i);
    FusesBy(s, y, s1, Parts(s.held[..cut], ""), Drain(s.(held := part)).0, Drain(s.(held := part)).1);
  }

  /** Text in front of the part that holds the closing tag is released as reasoning. */
  lemma SameClosing(s: Splitter, front: string, part: string, all: string, i: nat)
    requires !s.fallback.Deciding? && s.state.Inside?
    requires Index(part, CLOSE) == i && Index(all, CLOSE) == |front| + i
    requires all[..|front| + i] == front + part[..i] && all[|front| + i + |CLOSE|..] == part[i + |CLOSE|..]
    ensures var (s2, p2) := Drain(s.(held := part));
      Drain(s.(held := all)) == (s2, Parts(front, "").Then(p2))
  {
    DrainClosing(s.(held := part), i);
    DrainClosing(s.(held := all), |front| + i);
    var rest := s.(held := part[i + |CLOSE|..], state := Answer, trimLead := true);
    assert s.(held := all).(held := all[|front| + i + |CLOSE|..], state := Answer, trimLead := true) == rest;
    var a, b := Parts(front, ""), Parts(part[..i], "");
    assert a.Then(b) == Parts(all[..|front| + i], "");
    ThenAssociates(a, b, Drain(rest).1);
  }

  /** `held + y` seen as what was released before the seam and what comes after it. */
  lemma SeamPieces(held: string, y: string, cut: nat, n: nat)
    requires cut <= |held| && n <= |held[cut..] + y|
    ensures var part := held[cut..] + y;
      (held + y)[..cut + n] == held[..cut] + part[..n] && (held + y)[cut + n..] == part[n..]
  {
    assert held + y == held[..cut] + (held[cut..] + y);
  }

  /** The tag is still open after `y`. */
  lemma OpenFuses(s: Splitter, y: string, cut: nat)
    requires !s.fallback.Deciding? && s.state.Inside? && Index(s.held, CLOSE) < 0
    requires cut == |s.held| - PartialSuffixOf(s.held, CLOSE)
    requires Index(s.held + y, CLOSE) < 0 && Index(s.held[cut..] + y, CLOSE) < 0
    requires PartialSuffixOf(s.held + y, CLOSE) == PartialSuffixOf(s.held[cut..] + y, CLOSE)
    ensures Fuses(s, y)
  {
    var part := s.held[cut..] + y;
    var k := |part| - PartialSuffixOf(part, CLOSE);
    SeamPieces(s.held, y, cut, k);
    DrainOpen(s, cut);
    DrainOpen(s.(held := part), k);
    DrainOpen(s.(held := s.held + y), cut + k);
    var s1 := s.(held := s.held[cut..]);
    assert s1.(held := s1.held + y) == s.(held := part);
    var a, b := Parts(s.held[..cut], ""), Parts(part[..k], "");
    assert a.Then(b) == Parts((s.held + y)[..cut + k], "");
    FusesBy(s, y, s1, a, s.(held := part[k..]), b);
  }

  // ---------------------------------------------------------------- deciding

  /** The text so far is cut between byte 64 and the end of its opening tag: the
      parser has stopped waiting for a tag that does come. */
  predicate CutTooLate(soFar: string, whole: string) {
    && OPEN <= TrimLeft(whole, BLANKS)
    && MAX_LEAD < |soFar| < |whole| - |TrimLeft(whole, BLANKS)| + |OPEN|
  }

  lemma DecidingFuses(s: Splitter, y: string)
    requires !s.fallback.Deciding? && s.state.Deciding? && !s.trimLead
    requires !CutTooLate(s.held, s.held + y)
    ensures Fuses(s, y)
  {
    var x := s.held;
    var lead, all := TrimLeft(x, BLANKS), TrimLeft(x + y, BLANKS);
    TrimLeftAppend(x, y, BLANKS);
    if OPEN <= lead {
      assert all == lead + y && OPEN <= all;
      assert all[|OPEN|..] == lead[|OPEN|..] + y;
      InsideFuses(s.(held := lead[|OPEN|..], state := Inside), y);
    } else if lead <= OPEN && |x| <= MAX_LEAD {
      ThenUnit(PushOf(s, y).1);
    } else {
      StillUndecided(x, y);
      match s.fallback {
        case Inside => InsideFuses(s.(state := Inside), y);
        case Answer => AnswerFuses(s.(state := Answer), y);
      }
    }
  }

  /** Once the parser has given up on an opening tag, more text cannot bring one
      unless the cut came too late. */
  lemma StillUndecided(x: string, y: string)
    requires !(OPEN <= TrimLeft(x, BLANKS))
    requires !(TrimLeft(x, BLANKS) <= OPEN && |x| <= MAX_LEAD)
    requires !CutTooLate(x, x + y)
    ensures var all := TrimLeft(x + y, BLANKS);
      !(OPEN <= all) && !(all <= OPEN && |x + y| <= MAX_LEAD)
  {
    var lead, all := TrimLeft(x, BLANKS), TrimLeft(x + y, BLANKS);
    TrimLeftAppend(x, y, BLANKS);
    if lead <= OPEN {
      assert |x| > MAX_LEAD;
      TrimLeftSpec(x + y, BLANKS);
      TrimLeftSpec(x, BLANKS);
    } else {
      assert all == lead + y;
      if OPEN <= all { PrefixesCompare(OPEN, lead, y); }
    }
  }

  lemma PrefixesCompare(p: string, q: string, y: string)
    requires p <= q + y
    ensures p <= q || q <= p
  {
    if |p| <= |q| { assert p == (q + y)[..|p|] == q[..|p|]; }
    else { assert q == (q + y)[..|q|] == p[..|q|]; }
  }

  // ---------------------------------------------------------------- every chunking

  /** Some chunk boundary of the reply is cut too late. */
  ghost predicate SomeCutTooLate(s: Splitter, chunks: seq<string>) {
    s.state.Deciding? &&
    exists k :: 0 <= k <= |chunks| && CutTooLate(s.held + Concat(chunks[..k]), s.held + Concat(chunks))
  }

  lemma {:induction false} FeedFuses(s: Splitter, chunks: seq<string>)
    requires s.Settled() && !SomeCutTooLate(s, chunks)
    ensures Feed(s, chunks) == PushOf(s, Concat(chunks))
    decreases |chunks|
  {
    if chunks == [] {
      assert s.held + "" == s.held;
      DrainIdle(s);
    } else {
      var c, rest := chunks[0], chunks[1..];
      var (s1, p1) := PushOf(s, c);
      PushSettles(s, c);
      if SomeCutTooLate(s1, rest) {
        LaterCut(s, chunks);
      } else {
        FeedFuses(s1, rest);
        FirstChunkFuses(s, chunks);
      }
    }
  }

  /** A cut too late for the parser after the first chunk is one for the whole reply. */
  lemma LaterCut(s: Splitter, chunks: seq<string>)
    requires s.Settled() && chunks != []
    requires SomeCutTooLate(PushOf(s, chunks[0]).0, chunks[1..])
    ensures SomeCutTooLate(s, chunks)
  {
    var c, rest := chunks[0], chunks[1..];
    var s1 := PushOf(s, c).0;
    DecidingOnlyHolds(s, c);
    var k :| 0 <= k <= |rest| && CutTooLate(s1.held + Concat(rest[..k]), s1.held + Concat(rest));
    assert chunks[..k + 1] == [c] + rest[..k];
    assert s.held + Concat(chunks[..k + 1]) == s1.held + Concat(rest[..k]);
    assert s.held + Concat(chunks) == s1.held + Concat(rest);
  }

  /** A parser that is still deciding has only been holding. */
  lemma DecidingOnlyHolds(s: Splitter, c: string)
    requires s.Settled()
    requires PushOf(s, c).0.state.Deciding?
    ensures s.state.Deciding? && PushOf(s, c) == (s.(held := s.held + c), NOTHING)
  {
    var t := s.(held := s.held + c);
    if t.state.Deciding? {
      var lead := TrimLeft(t.held, BLANKS);
      if OPEN <= lead { NeverBack(t.(held := lead[|OPEN|..], state := Inside)); }
      else if !(lead <= OPEN && |t.held| <= MAX_LEAD) { NeverBack(t.(state := t.fallback)); }
    } else {
      NeverBack(t);
    }
  }

  lemma NeverBack(s: Splitter)
    requires !s.fallback.Deciding? && !s.state.Deciding?
    ensures !Drain(s).0.state.Deciding?
  {
    if s.state.Inside? && Index(s.held, CLOSE) >= 0 { DrainClosing(s, Index(s.held, CLOSE)); }
  }

  lemma FirstChunkFuses(s: Splitter, chunks: seq<string>)
    requires s.Settled() && chunks != [] && !SomeCutTooLate(s, chunks)
    ensures var (s1, p1) := PushOf(s, chunks[0]);
      var (s2, p2) := PushOf(s1, Concat(chunks[1..]));
      PushOf(s, Concat(chunks)) == (s2, p1.Then(p2))
  {
    var c, y := chunks[0], Concat(chunks[1..]);
    var t := s.(held := s.held + c);
    if s.state.Deciding? { FirstCut(s, chunks); }
    AnyFuses(t, y);
    PushPush(s, c, y);
  }

  lemma PushPush(s: Splitter, c: string, y: string)
    requires !s.fallback.Deciding? && Fuses(s.(held := s.held + c), y)
    ensures var (s1, p1) := PushOf(s, c);
      var (s2, p2) := PushOf(s1, y);
      PushOf(s, c + y) == (s2, p1.Then(p2))
  {
    assert s.held + c + y == s.held + (c + y);
  }

  lemma FirstCut(s: Splitter, chunks: seq<string>)
    requires s.state.Deciding? && chunks != [] && !SomeCutTooLate(s, chunks)
    ensures !CutTooLate(s.held + chunks[0], s.held + chunks[0] + Concat(chunks[1..]))
  {
    assert chunks[..1] == [chunks[0]];
    assert Concat(chunks[..1]) == chunks[0] + Concat(chunks[..1][1..]) == chunks[0];
    assert s.held + chunks[0] + Concat(chunks[1..]) == s.held + Concat(chunks);
    assert !CutTooLate(s.held + Concat(chunks[..1]), s.held + Concat(chunks));
  }

  lemma AnyFuses(t: Splitter, y: string)
    requires !t.fallback.Deciding?
    requires t.state.Deciding? ==> !t.trimLead && !CutTooLate(t.held, t.held + y)
    ensures Fuses(t, y)
  {
    match t.state
    case Deciding => DecidingFuses(t, y);
    case Inside => InsideFuses(t, y);
    case Answer => AnswerFuses(t, y);
  }

  /** One push of a whole reply and a flush give the declared split. */
  lemma WholeReply(fallback: Phase, text: string)
    requires !fallback.Deciding?
    ensures Streamed(fallback, [text]) == SplitReply(fallback, text)
  {
    var s := Fresh(fallback).(held := text);
    assert Fresh(fallback).held + text == text;
    var (s1, p1) := Drain(s);
    assert Feed(Fresh(fallback), [text]) == (s1, p1) by {
      ThenUnit(p1);
      assert [text][1..] == [];
    }
    DrainThenFlush(s);
  }

  function Released(s: Splitter): (r: Parts)
    requires !s.fallback.Deciding?
  {
    var (s1, p1) := Drain(s);
    p1.Then(FlushOf(s1))
  }

  lemma InsideReleases(s: Splitter)
    requires !s.fallback.Deciding? && s.state.Inside? && !s.trimLead
    ensures Released(s) == SplitInside(s.held)
  {
    var i := Index(s.held, CLOSE);
    if i >= 0 {
      var rest := s.held[i + |CLOSE|..];
      DrainClosing(s, i);
    } else {
      var cut := |s.held| - PartialSuffixOf(s.held, CLOSE);
      DrainOpen(s, cut);
      assert s.held == s.held[..cut] + s.held[cut..];
    }
  }

  lemma DrainThenFlush(s: Splitter)
    requires !s.fallback.Deciding? && s.state.Deciding? && !s.trimLead
    ensures Released(s) == SplitReply(s.fallback, s.held)
  {
    var lead := TrimLeft(s.held, BLANKS);
    if OPEN <= lead {
      InsideReleases(s.(held := lead[|OPEN|..], state := Inside));
    } else if lead <= OPEN && |s.held| <= MAX_LEAD {
      if s.fallback.Inside? {
        NoCloseInLead(s.held);
      }
    } else if s.fallback.Inside? {
      InsideReleases(s.(state := Inside));
    } else {
      var t := s.(state := Answer);
      assert Drain(s) == Drain(t) == (t.(held := ""), Parts("", s.held));
      ThenUnit(Parts("", s.held));
    }
  }

  lemma NoCloseInLead(text: string)
    requires TrimLeft(text, BLANKS) <= OPEN
    ensures Index(text, CLOSE) < 0
  {
    TrimLeftSpec(text, BLANKS);
    var w := |text| - |TrimLeft(text, BLANKS)|;
    forall j | 0 <= j <= |text| - |CLOSE| ensures !At(text, CLOSE, j) {
      assert text[j] in BLANKS;
      assert text[j..j + |CLOSE|][0] == text[j];
    }
    IndexNone(text, CLOSE);
  }

  // ---------------------------------------------------------------- a cut too late

  function Outcome(s: Splitter, chunks: seq<string>): (r: Parts)
    requires !s.fallback.Deciding?
  {
    var (s', p) := Feed(s, chunks);
    p.Then(FlushOf(s'))
  }

  lemma SplitInsideShrinks(body: string)
    ensures var p := SplitInside(body); |p.reasoning| + |p.answer| <= |body|
  {
  }

  /** Reading the opening tag as text gives another split than removing it. */
  lemma TagMatters(fallback: Phase, whole: string)
    requires !fallback.Deciding? && OPEN <= TrimLeft(whole, BLANKS)
    ensures SplitReply(fallback, whole) != if fallback.Inside? then SplitInside(whole) else Parts("", whole)
  {
    var lead := TrimLeft(whole, BLANKS);
    var w := |whole| - |lead|;
    var body := lead[|OPEN|..];
    SplitInsideShrinks(body);
    TrimLeftSpec(whole, BLANKS);
    HeadMatters(whole, w, body);
  }

  lemma HeadMatters(whole: string, w: nat, body: string)
    requires w + |OPEN| <= |whole| && body == whole[w + |OPEN|..]
    requires forall i :: 0 <= i < w ==> whole[i] in BLANKS
    requires whole[w..w + |OPEN|] == OPEN
    ensures SplitInside(whole) != SplitInside(body)
  {
    var head := whole[..w + |OPEN|];
    assert whole == head + body;
    forall j | 0 <= j < |head| ensures !At(head + body, CLOSE, j) { NoCloseInHead(whole, w, j); }
    IndexShift(head, body, CLOSE);
    assert |SplitInside(whole).reasoning| == |head| + |SplitInside(body).reasoning|;
  }

  lemma NoCloseInHead(whole: string, w: nat, j: nat)
    requires w + |OPEN| <= |whole| && j < w + |OPEN|
    requires forall i :: 0 <= i < w ==> whole[i] in BLANKS
    requires whole[w..w + |OPEN|] == OPEN
    ensures !At(whole, CLOSE, j)
  {
    if j + |CLOSE| <= |whole| {
      var here := whole[j..j + |CLOSE|];
      assert here[0] == whole[j] && here[1] == whole[j + 1];
      if j >= w {
        assert whole[j] == whole[w..w + |OPEN|][j - w] == OPEN[j - w];
        if j == w { assert whole[j + 1] == whole[w..w + |OPEN|][1] == OPEN[1]; }
      }
    }
  }

  /** A prefix that ends before the opening tag does shows at most part of it. */
  lemma LeadOfPrefix(x: string, y: string)
    requires OPEN <= TrimLeft(x + y, BLANKS)
    requires |x| < |x + y| - |TrimLeft(x + y, BLANKS)| + |OPEN|
    ensures TrimLeft(x, BLANKS) < OPEN
  {
    TrimLeftAppend(x, y, BLANKS);
    var lead, all := TrimLeft(x, BLANKS), TrimLeft(x + y, BLANKS);
    if lead != "" {
      assert lead == all[..|lead|];
      assert OPEN == all[..|OPEN|];
      assert lead == OPEN[..|lead|];
    }
  }

  lemma {:induction false} LateCutDiffers(s: Splitter, chunks: seq<string>)
    requires s.Settled() && SomeCutTooLate(s, chunks)
    ensures Outcome(s, chunks) != SplitReply(s.fallback, s.held + Concat(chunks))
    decreases |chunks|
  {
    var whole := s.held + Concat(chunks);
    var k :| 0 <= k <= |chunks| && CutTooLate(s.held + Concat(chunks[..k]), whole);
    assert chunks[..0] == [] && s.held + Concat([]) == s.held;
    var c, rest := chunks[0], chunks[1..];
    var x, y := s.held + c, Concat(rest);
    assert whole == x + y;
    assert chunks[..k] == [c] + rest[..k - 1];
    assert s.held + Concat(chunks[..k]) == x + Concat(rest[..k - 1]);
    LeadOfPrefix(x, y);
    var t := s.(held := x);
    var (s1, p1) := PushOf(s, c);
    PushSettles(s, c);
    if |x| <= MAX_LEAD {
      assert (s1, p1) == (t, NOTHING);
      assert CutTooLate(s1.held + Concat(rest[..k - 1]), s1.held + Concat(rest));
      LateCutDiffers(s1, rest);
      OutcomeOfFirst(s, chunks);
      ThenUnit(Outcome(s1, rest));
    } else {
      GivesUp(s, chunks);
      TagMatters(s.fallback, whole);
    }
  }

  lemma OutcomeOfFirst(s: Splitter, chunks: seq<string>)
    requires !s.fallback.Deciding? && chunks != []
    ensures var (s1, p1) := PushOf(s, chunks[0]);
      Outcome(s, chunks) == p1.Then(Outcome(s1, chunks[1..]))
  {
    var (s1, p1) := PushOf(s, chunks[0]);
    var (s2, p2) := Feed(s1, chunks[1..]);
    ThenAssociates(p1, p2, FlushOf(s2));
  }

  /** Past 64 bytes without a full tag, everything is read in the fallback state. */
  lemma GivesUp(s: Splitter, chunks: seq<string>)
    requires s.Settled() && s.state.Deciding? && chunks != []
    requires |s.held + chunks[0]| > MAX_LEAD && TrimLeft(s.held + chunks[0], BLANKS) < OPEN
    ensures var whole := s.held + Concat(chunks);
      Outcome(s, chunks) == if s.fallback.Inside? then SplitInside(whole) else Parts("", whole)
  {
    var x, rest := s.held + chunks[0], chunks[1..];
    var y := Concat(rest);
    var t := s.(held := x, state := s.fallback);
    var (s1, p1) := PushOf(s, chunks[0]);
    assert (s1, p1) == Drain(t);
    NeverBack(t);
    PushSettles(s, chunks[0]);
    FeedFuses(s1, rest);
    AnyFuses(t, y);
    var (s2, p2) := PushOf(s1, y);
    OutcomeOfFirst(s, chunks);
    ThenAssociates(p1, p2, FlushOf(s2));
    var all := t.(held := x + y);
    assert Outcome(s, chunks) == Released(all);
    assert x + y == s.held + Concat(chunks);
    if s.fallback.Inside? {
      InsideReleases(all);
    } else {
      ThenUnit(Parts("", all.held));
      assert Drain(all) == (all.(held := ""), Parts("", all.held));
    }
  }

  // ---------------------------------------------------------------- main theorems

  /** For every reply and every way of cutting it into chunks, pushing the chunks
      and flushing gives the declared split of the whole reply if and only if no
      chunk boundary falls after byte 64 and before the end of the opening tag. */
  lemma StreamedAgreesWithSplit(fallback: Phase, chunks: seq<string>)
    requires !fallback.Deciding?
    ensures Streamed(fallback, chunks) == SplitReply(fallback, Concat(chunks))
            <==> !SomeCutTooLate(Fresh(fallback), chunks)
  {
    var s := Fresh(fallback);
    var text := Concat(chunks);
    assert s.held + text == text;
    if SomeCutTooLate(s, chunks) {
      LateCutDiffers(s, chunks);
    } else {
      FeedFuses(s, chunks);
      DrainThenFlush(s.(held := text));
    }
  }

  /** Hence at most 58 blanks before the tag are always safe … */
  lemma ShortLeadAlwaysAgrees(fallback: Phase, chunks: seq<string>)
    requires !fallback.Deciding?
    requires var text := Concat(chunks); |text| - |TrimLeft(text, BLANKS)| <= 58
    ensures Streamed(fallback, chunks) == SplitReply(fallback, Concat(chunks))
  {
    var s := Fresh(fallback);
    assert s.held + Concat(chunks) == Concat(chunks);
    StreamedAgreesWithSplit(fallback, chunks);
  }

  /** … and with 59 or more some way of cutting the same reply is not. */
  lemma LongLeadCanDisagree(fallback: Phase, text: string)
    requires !fallback.Deciding?
    requires OPEN <= TrimLeft(text, BLANKS) && |text| - |TrimLeft(text, BLANKS)| >= 59
    ensures var chunks := [text[..65], text[65..]];
      Concat(chunks) == text && Streamed(fallback, chunks) != SplitReply(fallback, text)
  {
    var chunks := [text[..65], text[65..]];
    assert Concat([text[65..]]) == text[65..] + Concat([text[65..]][1..]);
    assert chunks[1..] == [text[65..]];
    assert Concat(chunks) == text;
    var s := Fresh(fallback);
    assert chunks[..1] == [text[..65]];
    assert Concat(chunks[..1]) == text[..65] + Concat(chunks[..1][1..]);
    assert s.held + Concat(chunks[..1]) == text[..65] && s.held + Concat(chunks) == text;
    assert CutTooLate(s.held + Concat(chunks[..1]), s.held + Concat(chunks));
    StreamedAgreesWithSplit(fallback, chunks);
  }
}
