/**
 The bounded header filter both ends of the tunnel apply
 (common/runtime/messages_upstream.go) and its wire form
 (common/tunnelwire/messages.go). The filter is greedy under three budgets and
 walks the raw names, while its second application walks the canonical ones; it is
 idempotent all the same, so decoding an encoded header set is filtering once.
 */
module UpstreamHeader {
  import opened BoundedFilter
  import opened ByteOrder
  import opened Options
  import opened Text
  import opened WhiteSpace

  // ---------------------------------------------------------------- names and values

  predicate Lower(c: char) { 'a' <= c <= 'z' }
  predicate Upper(c: char) { 'A' <= c <= 'Z' }

  /** A byte of a header name. */
  predicate TokenChar(c: char) {
    Lower(c) || Upper(c) || '0' <= c <= '9' || c in "!#$%&'*+-.^_`|~"
  }

  predicate Token(s: string) { forall i :: 0 <= i < |s| ==> TokenChar(s[i]) }

  predicate ValidName(s: string) { 0 < |s| <= 256 && Token(s) }

  predicate ValidValue(s: string) {
    forall i :: 0 <= i < |s| ==> !((s[i] < ' ' && s[i] != '\t') || s[i] == '\U{7f}')
  }

  function ToUpper(c: char): char { if Lower(c) then (c as int - 32) as char else c }
  function ToLower(c: char): char { if Upper(c) then (c as int + 32) as char else c }

  /** The first letter of every dash-separated part is upper case, the others are lower case. */
  function Capitalized(s: string, upper: bool): (r: string)
    ensures |r| == |s|
  {
    if s == "" then ""
    else [if upper then ToUpper(s[0]) else ToLower(s[0])] + Capitalized(s[1..], s[0] == '-')
  }

  /** http.CanonicalHeaderKey: a name with a byte no header name has is left alone. */
  function Canonical(s: string): (r: string)
    ensures |r| == |s|
  {
    if Token(s) then Capitalized(s, true) else s
  }

  /** A letter at the start or after a dash is upper case and any other is lower case;
      nothing else changes. */
  lemma {:induction false} CapitalizedAt(s: string, upper: bool, i: nat)
    requires i < |s|
    ensures var c, r := s[i] as int, Capitalized(s, upper)[i] as int;
      if (if i == 0 then upper else s[i - 1] == '-')
      then r == (if 97 <= c <= 122 then c - 32 else c)
      else r == (if 65 <= c <= 90 then c + 32 else c)
  {
    if i > 0 {
      var rest := s[1..];
      CapitalizedAt(rest, s[0] == '-', i - 1);
      assert s[i] == rest[i - 1] && Capitalized(s, upper)[i] == Capitalized(rest, s[0] == '-')[i - 1];
      if i > 1 { assert s[i - 1] == rest[i - 2]; }
    }
  }

  lemma {:induction false} CapitalizedTwice(s: string, upper: bool)
    requires Token(s)
    ensures Token(Capitalized(s, upper)) && Capitalized(Capitalized(s, upper), upper) == Capitalized(s, upper)
  {
    if s != "" {
      CapitalizedTwice(s[1..], s[0] == '-');
      var r := Capitalized(s, upper);
      assert r[1..] == Capitalized(s[1..], s[0] == '-');
      assert TokenChar(s[0]) && (r[0] == '-' <==> s[0] == '-');
    }
  }

  lemma CanonicalTwice(s: string)
    ensures Canonical(Canonical(s)) == Canonical(s) && (ValidName(s) ==> ValidName(Canonical(s)))
  {
    if Token(s) { CapitalizedTwice(s, true); }
  }

  const EXCLUDED: set<string> := {
    "Connection", "Keep-Alive", "Proxy-Authenticate", "Proxy-Authorization", "Proxy-Connection",
    "Te", "Trailer", "Transfer-Encoding", "Upgrade",
    "Content-Length", "Content-Encoding", "Content-Type", "Content-Range",
    "Set-Cookie", "Set-Cookie2", "Alt-Svc", "Strict-Transport-Security",
    "Date", "Server", "Via", "Vary", "Cache-Control", "Expires", "Etag",
    "Last-Modified", "Age", "Report-To", "Nel", "Content-Security-Policy",
    "Www-Authenticate" }

  const CORS := "Access-Control-"

  // ---------------------------------------------------------------- the names Connection marks

  /** strings.Split at commas. */
  function Split(s: string): (r: seq<string>)
    decreases |s|
  {
    var i := Index(s, ",");
    if i < 0 then [s] else [s[..i]] + Split(s[i + 1..])
  }

  function Marked(parts: seq<string>): (r: set<string>) {
    set i | 0 <= i < |parts| :: Canonical(TrimSpace(parts[i]))
  }

  function MarkedBy(values: seq<string>): (r: set<string>) {
    if values == [] then {} else MarkedBy(values[..|values| - 1]) + Marked(Split(values[|values| - 1]))
  }

  function Hop(h: Header): (r: set<string>) {
    if "Connection" in h then MarkedBy(h["Connection"]) else {}
  }

  // ---------------------------------------------------------------- the filter

  predicate Eligible(hop: set<string>, name: string) {
    var canonical := Canonical(name);
    canonical !in EXCLUDED && canonical !in hop && !(CORS <= canonical) && ValidName(name)
  }

  function Admit(hop: set<string>, name: string): (r: Option<string>) {
    if Eligible(hop, name) then Some(Canonical(name)) else None
  }

  function Admitter(hop: set<string>): (r: Rename) { name => Admit(hop, name) }

  function ValueRule(): (r: string -> bool) { value => ValidValue(value) }

  /** SanitizeUpstreamHeader. A nil result is the empty header. */
  ghost function Sanitized(h: Header): (r: Header) { Passed(Admitter(Hop(h)), ValueRule(), h) }

  /** A header set that passes unchanged. */
  ghost predicate InOrder(h: Header) { Admissible(Admitter({}), ValueRule(), h) }

  lemma AdmitSettles(hop: set<string>, name: string)
    requires Admit(hop, name).Some?
    ensures var c := Admit(hop, name).value; Admit(hop, c) == Some(c) && Admit({}, c) == Some(c)
  {
    CanonicalTwice(name);
  }

  lemma AdmittersSettle(hop: set<string>)
    ensures Settles(Admitter(hop), Admitter(hop)) && Settles(Admitter(hop), Admitter({}))
  {
    forall n | Admitter(hop)(n).Some?
      ensures var c := Admitter(hop)(n); Admitter(hop)(c.value) == c && Admitter({})(c.value) == c
    {
      AdmitSettles(hop, n);
    }
  }

  /** Whatever the upstream or a peer sent, what passes is within every bound, has only
      canonical and allowed names with clean values, and nothing the Connection header
      marked. */
  lemma SanitizedIsInOrder(h: Header)
    ensures InOrder(Sanitized(h)) && forall n :: n in Sanitized(h) ==> n !in Hop(h)
  {
    var hop := Hop(h);
    AdmittersSettle(hop);
    PassedIsAdmissible(Admitter(hop), Admitter({}), ValueRule(), h);
    PassedIsAdmissible(Admitter(hop), Admitter(hop), ValueRule(), h);
    forall n | n in Sanitized(h) ensures n !in hop {
      assert GoodEntry(Admitter(hop), ValueRule(), n, Sanitized(h)[n]);
      assert Admit(hop, n) == Some(n);
    }
  }

  /** Nothing of the connection or the origin gets through, no cookie, and no line break
      in a value that could split a response. */
  lemma NothingLeaks(h: Header, n: string, i: nat)
    requires n in Sanitized(h) && i < |Sanitized(h)[n]|
    ensures n !in EXCLUDED && n !in Hop(h) && !(CORS <= n) && ValidName(n) && Canonical(n) == n
    ensures forall j :: 0 <= j < |Sanitized(h)[n][i]| ==> Sanitized(h)[n][i][j] != '\r' && Sanitized(h)[n][i][j] != '\n'
  {
    SanitizedIsInOrder(h);
    var values := Sanitized(h)[n];
    assert GoodEntry(Admitter({}), ValueRule(), n, values);
    assert Admit({}, n) == Some(n);
    assert ValueRule()(values[i]);
    assert ValidValue(values[i]);
  }

  /** What being in order means, told without the filter: canonical names that are valid,
      not excluded and no CORS header, one to sixteen clean values each, and the three
      budgets. Together with `KeptWholeIff`: exactly these header sets pass whole. */
  lemma InOrderIff(h: Header)
    ensures InOrder(h) <==>
      && (forall n :: n in h ==>
            && 0 < |n| <= 256 && Token(n) && Canonical(n) == n && n !in EXCLUDED && !(CORS <= n)
            && 0 < |h[n]| <= 16 && forall i :: 0 <= i < |h[n]| ==> ValidValue(h[n][i]))
      && |h| <= 128 && Bytes(h) <= 32768
  {
    forall n | n in h
      ensures GoodEntry(Admitter({}), ValueRule(), n, h[n]) <==>
        && 0 < |n| <= 256 && Token(n) && Canonical(n) == n && n !in EXCLUDED && !(CORS <= n)
        && 0 < |h[n]| <= 16 && forall i :: 0 <= i < |h[n]| ==> ValidValue(h[n][i])
    {
      EntryIs(n, h[n]);
    }
  }

  lemma EntryIs(n: string, values: seq<string>)
    ensures GoodEntry(Admitter({}), ValueRule(), n, values) <==>
      && 0 < |n| <= 256 && Token(n) && Canonical(n) == n && n !in EXCLUDED && !(CORS <= n)
      && 0 < |values| <= 16 && forall i :: 0 <= i < |values| ==> ValidValue(values[i])
  {
    assert Admitter({})(n) == Admit({}, n);
    assert forall v :: ValueRule()(v) == ValidValue(v);
    assert Admit({}, n) == Some(n) <==> Eligible({}, n) && Canonical(n) == n;
  }

  /** No set in order has a Connection header, so nothing is marked the second time. */
  lemma NothingMarked(h: Header)
    requires InOrder(h)
    ensures Hop(h) == {}
  {
    forall n | n in h ensures n !in EXCLUDED {
      assert GoodEntry(Admitter({}), ValueRule(), n, h[n]);
      assert Admit({}, n) == Some(n);
    }
  }

  /** The filter's fixed points are exactly the header sets in order. */
  lemma KeptWholeIff(h: Header)
    ensures Sanitized(h) == h <==> InOrder(h)
  {
    if Sanitized(h) == h { SanitizedIsInOrder(h); }
    if InOrder(h) {
      NothingMarked(h);
      AdmissibleIsKept(Admitter({}), ValueRule(), h);
    }
  }

  /** Filtering twice is filtering once. */
  lemma SanitizeIsIdempotent(h: Header)
    ensures Sanitized(Sanitized(h)) == Sanitized(h)
  {
    SanitizedIsInOrder(h);
    KeptWholeIff(Sanitized(h));
  }

  // ---------------------------------------------------------------- the loops

  /** upstreamHeaderName: a byte loop. */
  method UpstreamHeaderName(name: string) returns (ok: bool)
    ensures ok == ValidName(name)
  {
    if name == "" || |name| > 256 {
      return false;
    }
    for i := 0 to |name|
      invariant forall j :: 0 <= j < i ==> TokenChar(name[j])
    {
      var c := name[i];
      if !('a' <= c <= 'z' || 'A' <= c <= 'Z' || '0' <= c <= '9' || Index("!#$%&'*+-.^_`|~", [c]) >= 0) {
        NotPunctuation(c);
        return false;
      }
      Punctuation(c);
    }
    return true;
  }

  lemma Punctuation(c: char)
    ensures Index("!#$%&'*+-.^_`|~", [c]) >= 0 ==> c in "!#$%&'*+-.^_`|~"
  {
    IndexByteSpec("!#$%&'*+-.^_`|~", c);
  }

  lemma NotPunctuation(c: char)
    ensures Index("!#$%&'*+-.^_`|~", [c]) < 0 ==> c !in "!#$%&'*+-.^_`|~"
  {
    IndexByteSpec("!#$%&'*+-.^_`|~", c);
  }

  /** upstreamHeaderValue: no control byte but the tab, and no DEL. */
  method UpstreamHeaderValue(value: string) returns (ok: bool)
    ensures ok == ValidValue(value)
  {
    for i := 0 to |value|
      invariant forall j :: 0 <= j < i ==> !((value[j] < ' ' && value[j] != '\t') || value[j] == '\U{7f}')
    {
      var c := value[i];
      if (c as int < 0x20 && c != '\t') || c as int == 0x7f {
        return false;
      }
    }
    return true;
  }

  /** Splitting at commas loses nothing but the commas. */
  lemma {:induction false} SplitRejoins(s: string)
    ensures Split(s) != [] && Rejoined(Split(s)) == s
    ensures forall i, j :: 0 <= i < |Split(s)| && 0 <= j < |Split(s)[i]| ==> Split(s)[i][j] != ','
    decreases |s|
  {
    var i := Index(s, ",");
    IndexByteSpec(s, ',');
    if i >= 0 {
      SplitRejoins(s[i + 1..]);
      assert s == s[..i] + "," + s[i + 1..];
      assert ([s[..i]] + Split(s[i + 1..]))[1..] == Split(s[i + 1..]);
    }
  }

  function Rejoined(parts: seq<string>): (r: string) {
    if parts == [] then "" else if |parts| == 1 then parts[0] else parts[0] + "," + Rejoined(parts[1..])
  }

  method MarkedNames(values: seq<string>) returns (hop: set<string>)
    ensures hop == MarkedBy(values)
  {
    hop := {};
    for i := 0 to |values|
      invariant hop == MarkedBy(values[..i])
    {
      assert values[..i + 1][..i] == values[..i];
      var parts := MarkedParts(Split(values[i]));
      hop := hop + parts;
    }
    assert values[..|values|] == values;
  }

  method MarkedParts(parts: seq<string>) returns (hop: set<string>)
    ensures hop == Marked(parts)
  {
    hop := {};
    for j := 0 to |parts|
      invariant forall x :: x in hop <==> exists m :: 0 <= m < j && x == Canonical(TrimSpace(parts[m]))
    {
      hop := hop + {Canonical(TrimSpace(parts[j]))};
    }
  }

  method SanitizeUpstreamHeader(h: Header) returns (r: Header)
    ensures r == Sanitized(h)
  {
    var hop := {};
    if "Connection" in h {
      hop := MarkedNames(h["Connection"]);
    }
    r := Filter(Admitter(hop), ValueRule(), h);
  }

  // ---------------------------------------------------------------- the wire form

  datatype WireHeader = WireHeader(name: string, values: seq<string>)

  /** The entries of a header set under the given names, in their order. */
  function Listed(h: Header, names: seq<string>): (r: seq<WireHeader>)
    requires forall j :: 0 <= j < |names| ==> names[j] in h
    ensures |r| == |names| && forall j :: 0 <= j < |r| ==> r[j] == WireHeader(names[j], h[names[j]])
  {
    seq(|names|, j requires 0 <= j < |names| => WireHeader(names[j], h[names[j]]))
  }

  /** UpstreamHeaderToProto. */
  ghost function ToProto(h: Header): (r: seq<WireHeader>) {
    Listed(Sanitized(h), Ascending(Sanitized(h).Keys))
  }

  /** The headers of the first `i` wire entries, repeated names put together. */
  function Gathered(pb: seq<WireHeader>, i: nat): (r: Header)
    requires i <= |pb|
  {
    if i == 0 then map[]
    else
      var h := Gathered(pb, i - 1);
      h[pb[i - 1].name := Of(h, pb[i - 1].name) + pb[i - 1].values]
  }

  /** UpstreamHeaderFromProto. */
  ghost function FromProto(pb: seq<WireHeader>): (r: Header) { Sanitized(Gathered(pb, |pb|)) }

  method UpstreamHeaderToProto(h: Header) returns (pb: seq<WireHeader>)
    ensures pb == ToProto(h)
  {
    var kept := SanitizeUpstreamHeader(h);
    var names := SortedKeys(kept.Keys);
    pb := ListEntries(kept, names);
  }

  method ListEntries(h: Header, names: seq<string>) returns (pb: seq<WireHeader>)
    requires forall j :: 0 <= j < |names| ==> names[j] in h
    ensures pb == Listed(h, names)
  {
    pb := [];
    for i := 0 to |names|
      invariant pb == Listed(h, names)[..i]
    {
      pb := pb + [WireHeader(names[i], h[names[i]])];
    }
  }

  method UpstreamHeaderFromProto(pb: seq<WireHeader>) returns (r: Header)
    ensures r == FromProto(pb)
  {
    var h: Header := map[];
    for i := 0 to |pb|
      invariant h == Gathered(pb, i)
    {
      h := h[pb[i].name := Of(h, pb[i].name) + pb[i].values];
    }
    r := SanitizeUpstreamHeader(h);
  }

  lemma {:induction false} GatheredListed(h: Header, names: seq<string>, i: nat)
    requires i <= |names| && Names(names, h)
    ensures Gathered(Listed(h, names), i) == Front(h, names, i)
  {
    if i > 0 {
      GatheredListed(h, names, i - 1);
      FrontSpec(h, names, i - 1);
      GatherNew(Front(h, names, i - 1), names[i - 1], h[names[i - 1]]);
    }
  }

  lemma GatherNew(h: Header, name: string, values: seq<string>)
    requires name !in h
    ensures h[name := Of(h, name) + values] == h[name := values]
  {
    assert [] + values == values;
  }

  /** Crossing the tunnel is filtering once, and crossing it again changes nothing. */
  lemma HeaderRoundTrip(h: Header)
    ensures FromProto(ToProto(h)) == Sanitized(h)
    ensures ToProto(FromProto(ToProto(h))) == ToProto(h)
  {
    var kept := Sanitized(h);
    NamesOf(kept);
    GatheredListed(kept, Ascending(kept.Keys), |Ascending(kept.Keys)|);
    SanitizeIsIdempotent(h);
  }

  /** Whatever a peer sends, what is restored passes the filter unchanged. */
  lemma RestoredIsInOrder(pb: seq<WireHeader>)
    ensures InOrder(FromProto(pb)) && Sanitized(FromProto(pb)) == FromProto(pb)
  {
    SanitizedIsInOrder(Gathered(pb, |pb|));
    SanitizeIsIdempotent(Gathered(pb, |pb|));
  }
}
