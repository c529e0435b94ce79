/**
 White space as Go's `strings` and `unicode` packages know it, on the bytes of UTF-8
 text: the six ASCII characters and the wider ones, U+0085, U+00A0, U+1680, U+2000 to
 U+200A, U+2028, U+2029, U+202F, U+205F and U+3000.
 */
module WhiteSpace {
  import opened Text

  /** ASCII white space. */
  const SPACES: set<char> := {' ', '\t', '\n', '\U{0b}', '\U{0c}', '\r'}

  /** The bytes of a white space character beyond ASCII: U+0085 and U+00A0 take two. */
  predicate Wide2(a: char, b: char) { a == '\U{c2}' && (b == '\U{85}' || b == '\U{a0}') }

  /** The others take three. */
  predicate Wide3(a: char, b: char, c: char) {
    || (a == '\U{e1}' && b == '\U{9a}' && c == '\U{80}')
    || (a == '\U{e2}' && b == '\U{80}' && ('\U{80}' <= c <= '\U{8a}' || c == '\U{a8}' || c == '\U{a9}' || c == '\U{af}'))
    || (a == '\U{e2}' && b == '\U{81}' && c == '\U{9f}')
    || (a == '\U{e3}' && b == '\U{80}' && c == '\U{80}')
  }

  /** The length of the white space character at offset `i`, or 0. */
  function SpaceAt(s: string, i: nat): (r: nat)
    ensures i <= |s| ==> i + r <= |s|
  {
    if i >= |s| then 0
    else if s[i] in SPACES then 1
    else if i + 2 <= |s| && Wide2(s[i], s[i + 1]) then 2
    else if i + 3 <= |s| && Wide3(s[i], s[i + 1], s[i + 2]) then 3
    else 0
  }

  /** The length of the white space character the text starts with, or 0. */
  function Leading(s: string): (r: nat)
    ensures r <= |s|
  {
    SpaceAt(s, 0)
  }

  /** The same at the end. */
  function Trailing(s: string): (r: nat)
    ensures r <= |s|
  {
    var n := |s|;
    if n >= 1 && s[n - 1] in SPACES then 1
    else if n >= 2 && Wide2(s[n - 2], s[n - 1]) then 2
    else if n >= 3 && Wide3(s[n - 3], s[n - 2], s[n - 1]) then 3
    else 0
  }

  function TrimStart(s: string): (r: string)
    ensures |r| <= |s| && Leading(r) == 0
  {
    if Leading(s) == 0 then s else TrimStart(s[Leading(s)..])
  }

  function TrimEnd(s: string): (r: string) {
    if Trailing(s) == 0 then s else TrimEnd(s[..|s| - Trailing(s)])
  }

  /** strings.TrimSpace. */
  function TrimSpace(s: string): (r: string) { TrimEnd(TrimStart(s)) }

  /** An ASCII character that is not white space. */
  predicate Solid(c: char) { c < '\U{80}' && c !in SPACES }

  lemma SolidStart(s: string)
    requires s != "" && Solid(s[0])
    ensures Leading(s) == 0 && TrimStart(s) == s
  {
  }

  lemma SolidEnd(s: string)
    requires s != "" && Solid(s[|s| - 1])
    ensures Trailing(s) == 0 && TrimEnd(s) == s
  {
  }

  /** Text that starts and ends in solid characters is not trimmed. */
  lemma Untrimmed(s: string)
    requires s != "" && Solid(s[0]) && Solid(s[|s| - 1])
    ensures TrimSpace(s) == s
  {
    SolidStart(s);
    SolidEnd(s);
  }

  lemma {:induction false} TrimEndKeeps(s: string)
    requires s != "" && Solid(s[0])
    ensures TrimEnd(s) != ""
  {
    var k := Trailing(s);
    if k > 0 {
      WideIsNotSolid(s, k);
      TrimEndKeeps(s[..|s| - k]);
    }
  }

  /** White space at the end does not reach back to a solid first character. */
  lemma WideIsNotSolid(s: string, k: nat)
    requires s != "" && Solid(s[0]) && k == Trailing(s) > 0
    ensures k < |s|
  {
  }

  lemma NotBlank(s: string)
    requires s != "" && Solid(s[0])
    ensures TrimSpace(s) != ""
  {
    SolidStart(s);
    TrimEndKeeps(s);
  }

  // ---------------------------------------------------------------- what is trimmed

  /** Nothing but white space characters, one after another. */
  predicate AllSpace(s: string) { s == "" || (Leading(s) > 0 && AllSpace(s[Leading(s)..])) }

  lemma {:induction false} TrimStartSpec(s: string) returns (lead: string)
    ensures s == lead + TrimStart(s) && AllSpace(lead)
  {
    var k := Leading(s);
    if k == 0 {
      lead := "";
    } else {
      var more := TrimStartSpec(s[k..]);
      lead := s[..k] + more;
      FirstSpace(s, k, more);
      Rejoin(s, k, more, TrimStart(s[k..]));
    }
  }

  lemma Rejoin(s: string, k: nat, more: string, t: string)
    requires k <= |s| && s[k..] == more + t
    ensures s == s[..k] + more + t
  {
    assert s == s[..k] + s[k..];
    Assoc(s[..k], more, t);
  }

  lemma FirstSpace(s: string, k: nat, more: string)
    requires k == Leading(s) > 0 && AllSpace(more)
    ensures AllSpace(s[..k] + more)
  {
    var t := s[..k] + more;
    assert Leading(t) == k;
    assert t[k..] == more;
  }

  lemma {:induction false} TrimEndSpec(s: string) returns (trail: string)
    ensures s == TrimEnd(s) + trail && AllSpace(trail) && Trailing(TrimEnd(s)) == 0
  {
    var k := Trailing(s);
    if k == 0 {
      trail := "";
    } else {
      var n := |s| - k;
      var more := TrimEndSpec(s[..n]);
      trail := more + s[n..];
      OneSpace(s, k);
      SpaceAppend(more, s[n..]);
      Recut(s, n, TrimEnd(s[..n]), more);
    }
  }

  lemma Recut(s: string, n: nat, t: string, more: string)
    requires n <= |s| && s[..n] == t + more
    ensures s == t + (more + s[n..])
  {
    assert s == s[..n] + s[n..];
    Assoc(t, more, s[n..]);
  }

  lemma OneSpace(s: string, k: nat)
    requires k == Trailing(s) > 0
    ensures AllSpace(s[|s| - k..])
  {
    var t := s[|s| - k..];
    assert Leading(t) == k && t[k..] == "";
  }

  lemma {:induction false} SpaceAppend(a: string, b: string)
    requires AllSpace(a) && AllSpace(b)
    ensures AllSpace(a + b)
  {
    if a == "" {
      assert a + b == b;
    } else {
      var k := Leading(a);
      assert Leading(a + b) == k;
      assert (a + b)[k..] == a[k..] + b;
      SpaceAppend(a[k..], b);
    }
  }

  /** What is left starts and ends in no white space, and only white space was taken. */
  lemma TrimSpaceSpec(s: string) returns (lead: string, trail: string)
    ensures s == lead + TrimSpace(s) + trail && AllSpace(lead) && AllSpace(trail)
    ensures Leading(TrimSpace(s)) == 0 && Trailing(TrimSpace(s)) == 0
  {
    lead := TrimStartSpec(s);
    trail := TrimEndSpec(TrimStart(s));
    Assoc(lead, TrimSpace(s), trail);
    StillNoSpace(TrimSpace(s), trail);
  }

  lemma StillNoSpace(t: string, trail: string)
    requires Leading(t + trail) == 0
    ensures Leading(t) == 0
  {
    assert forall i :: 0 <= i < |t| ==> (t + trail)[i] == t[i];
  }
}
