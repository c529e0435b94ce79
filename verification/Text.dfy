/**
 Byte strings and the handful of Go `strings` operations the modelled code
 relies on. A Go string is a sequence of bytes; it is modelled as a sequence of
 characters, one per byte, so that the tags and field names of the source can be
 written as literals. Nothing depends on the characters being below 256.
 */
module Text {

  /** strings.TrimLeft: drops the longest prefix made of characters of `cut`. */
  function TrimLeft(s: string, cut: set<char>): (r: string)
    ensures |r| <= |s|
  {
    if s != "" && s[0] in cut then TrimLeft(s[1..], cut) else s
  }

  /** What TrimLeft removes and what it keeps. */
  lemma {:induction false} TrimLeftSpec(s: string, cut: set<char>)
    ensures var w := |s| - |TrimLeft(s, cut)|;
      && TrimLeft(s, cut) == s[w..]
      && (forall i :: 0 <= i < w ==> s[i] in cut)
      && (w < |s| ==> s[w] !in cut)
  {
    if s != "" && s[0] in cut {
      TrimLeftSpec(s[1..], cut);
      var w := |s| - |TrimLeft(s, cut)|;
      assert s[1..][w - 1..] == s[w..];
      forall i | 0 <= i < w ensures s[i] in cut {
        if i > 0 { assert s[i] == s[1..][i - 1]; }
      }
    }
  }

  /** `pat` occurs in `s` at offset `i`. */
  predicate At(s: string, pat: string, i: int) {
    0 <= i <= |s| - |pat| && s[i..i + |pat|] == pat
  }

  /** strings.Index: the first offset of `pat` in `s`, or -1. */
  function Index(s: string, pat: string): (r: int)
    ensures -1 <= r && (r >= 0 ==> r + |pat| <= |s|)
  {
    IndexFrom(s, pat, 0)
  }

  function IndexFrom(s: string, pat: string, from: nat): (r: int)
    ensures r == -1 || from <= r <= |s| - |pat|
    decreases |s| - from
  {
    if from + |pat| > |s| then -1
    else if At(s, pat, from) then from
    else if from == |s| then -1
    else IndexFrom(s, pat, from + 1)
  }

  /** `r` is the first offset of `pat`, or -1 when there is none. */
  ghost predicate IsFirst(s: string, pat: string, r: int) {
    && (r == -1 || At(s, pat, r))
    && (forall j :: 0 <= j && (r == -1 || j < r) ==> !At(s, pat, j))
  }

  lemma {:induction false} IndexFromSpec(s: string, pat: string, from: nat)
    ensures var r := IndexFrom(s, pat, from);
      && (r == -1 || At(s, pat, r))
      && (forall j :: from <= j && (r == -1 || j < r) ==> !At(s, pat, j))
    decreases |s| - from
  {
    if from + |pat| <= |s| && !At(s, pat, from) && from < |s| {
      IndexFromSpec(s, pat, from + 1);
    }
  }

  lemma IndexSpec(s: string, pat: string)
    ensures IsFirst(s, pat, Index(s, pat))
  {
    IndexFromSpec(s, pat, 0);
  }

  /** strings.IndexByte. */
  function IndexByte(s: string, c: char): (r: int)
    ensures -1 <= r < |s|
    ensures r >= 0 ==> s[r] == c
    ensures forall j :: 0 <= j < (if r < 0 then |s| else r) ==> s[j] != c
  {
    IndexByteSpec(s, c);
    Index(s, [c])
  }

  lemma IndexByteSpec(s: string, c: char)
    ensures var r := Index(s, [c]);
      && (r >= 0 ==> s[r] == c)
      && forall j :: 0 <= j < (if r < 0 then |s| else r) ==> s[j] != c
  {
    var r := Index(s, [c]);
    IndexSpec(s, [c]);
    if r >= 0 { assert s[r..r + 1][0] == s[r]; }
    forall j | 0 <= j < (if r < 0 then |s| else r) ensures s[j] != c {
      assert !At(s, [c], j);
      assert s[j..j + 1] == [s[j]];
    }
  }

  /** The first occurrence is unique, so any offset with its properties is it. */
  lemma IndexIs(s: string, pat: string, r: int)
    requires IsFirst(s, pat, r)
    ensures Index(s, pat) == r
  {
    IndexSpec(s, pat);
    assert r >= 0 ==> At(s, pat, r);
    assert Index(s, pat) >= 0 ==> At(s, pat, Index(s, pat));
  }

  lemma IndexNone(s: string, pat: string)
    requires forall j :: 0 <= j <= |s| - |pat| ==> !At(s, pat, j)
    ensures Index(s, pat) == -1
  {
    IndexIs(s, pat, -1);
  }

  /** Occurrences that start in `t` are those of `h + t` shifted by `|h|`. */
  lemma AtShift(h: string, t: string, pat: string, j: nat)
    ensures At(h + t, pat, |h| + j) <==> At(t, pat, j)
  {
    if j <= |t| - |pat| {
      assert (h + t)[|h| + j..|h| + j + |pat|] == t[j..j + |pat|];
    }
  }

  /** When no occurrence starts inside `h`, searching `h + t` is searching `t`. */
  lemma IndexShift(h: string, t: string, pat: string)
    requires forall j :: 0 <= j < |h| ==> !At(h + t, pat, j)
    ensures Index(h + t, pat) == if Index(t, pat) < 0 then -1 else |h| + Index(t, pat)
  {
    var i := Index(t, pat);
    IndexSpec(t, pat);
    var r := if i < 0 then -1 else |h| + i;
    if i >= 0 { AtShift(h, t, pat, i); }
    forall j | 0 <= j && (r == -1 || j < r) ensures !At(h + t, pat, j) {
      if j >= |h| { AtShift(h, t, pat, j - |h|); }
    }
    IndexIs(h + t, pat, r);
  }

  /** A first occurrence inside `s` stays first when text is appended. */
  lemma IndexAppend(s: string, t: string, pat: string)
    requires Index(s, pat) >= 0
    ensures Index(s + t, pat) == Index(s, pat)
  {
    var i := Index(s, pat);
    IndexSpec(s, pat);
    assert (s + t)[i..i + |pat|] == s[i..i + |pat|];
    forall j | 0 <= j < i ensures !At(s + t, pat, j) {
      assert (s + t)[j..j + |pat|] == s[j..j + |pat|];
      assert !At(s, pat, j);
    }
    IndexIs(s + t, pat, i);
  }

  /** What comes before the first occurrence has none. */
  lemma BeforeFirst(s: string, pat: string)
    requires Index(s, pat) >= 0 && pat != ""
    ensures Index(s[..Index(s, pat)], pat) == -1
  {
    var i := Index(s, pat);
    IndexSpec(s, pat);
    forall j | 0 <= j <= i - |pat| ensures !At(s[..i], pat, j) {
      assert s[..i][j..j + |pat|] == s[j..j + |pat|];
      assert !At(s, pat, j);
    }
    IndexNone(s[..i], pat);
  }

  lemma {:induction false} TrimLeftAppend(s: string, t: string, cut: set<char>)
    ensures TrimLeft(s, cut) != "" ==> TrimLeft(s + t, cut) == TrimLeft(s, cut) + t
    ensures TrimLeft(s, cut) == "" ==> TrimLeft(s + t, cut) == TrimLeft(t, cut)
  {
    if s == "" {
      assert s + t == t;
    } else if s[0] in cut {
      assert (s + t)[1..] == s[1..] + t;
      TrimLeftAppend(s[1..], t, cut);
    }
  }

  /** A line without the carriage return it may end in. */
  function DropCR(s: string): (r: string) {
    if s != "" && s[|s| - 1] == '\r' then s[..|s| - 1] else s
  }

  /** Concatenation of a list of chunks. */
  function Concat(chunks: seq<string>): (r: string) {
    if chunks == [] then "" else chunks[0] + Concat(chunks[1..])
  }

  lemma {:induction false} ConcatAppend(xs: seq<string>, ys: seq<string>)
    ensures Concat(xs + ys) == Concat(xs) + Concat(ys)
  {
    if xs == [] {
      assert xs + ys == ys;
    } else {
      assert (xs + ys)[1..] == xs[1..] + ys;
      ConcatAppend(xs[1..], ys);
    }
  }

  lemma ConcatLast(xs: seq<string>, y: string)
    ensures Concat(xs + [y]) == Concat(xs) + y
  {
    ConcatAppend(xs, [y]);
    assert Concat([y]) == y + Concat([y][1..]);
  }

  lemma Ends<T>(s: seq<T>)
    requires s != []
    ensures var front, last := s[..|s| - 1], s[|s| - 1];
      s == front + [last] && (front != [] ==> s[1..] == front[1..] + [last])
  {
  }

  lemma Unit<T>(s: seq<T>)
    ensures [] + s == s && s + [] == s
  {
  }

  lemma Assoc<T>(a: seq<T>, b: seq<T>, c: seq<T>)
    ensures a + b + c == a + (b + c)
  {
  }
}
