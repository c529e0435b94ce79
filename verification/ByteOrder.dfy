/**
 The order of Go strings, and the ascending list of a set of them. Go's map
 iteration has no order; sorting what it yields gives one list only, whatever the
 order was, and that list is what `Ascending` names.
 */
module ByteOrder {

  /** `a < b` on Go strings: byte by byte, a prefix first. */
  predicate Less(a: string, b: string) {
    b != "" && (a == "" || a[0] < b[0] || (a[0] == b[0] && Less(a[1..], b[1..])))
  }

  /** Byte order: a proper prefix comes first, and otherwise the first byte that differs decides. */
  lemma {:induction false} LessIff(a: string, b: string)
    ensures Less(a, b) <==> a < b || exists k :: 0 <= k < |a| && k < |b| && a[..k] == b[..k] && a[k] < b[k]
    decreases |a|
  {
    if a != "" && b != "" && a[0] == b[0] {
      var x, y := a[1..], b[1..];
      LessIff(x, y);
      assert a < b <==> x < y;
      if k :| 0 <= k < |x| && k < |y| && x[..k] == y[..k] && x[k] < y[k] {
        assert a[..k + 1] == [a[0]] + x[..k] && b[..k + 1] == [b[0]] + y[..k] && a[k + 1] < b[k + 1];
      }
      if k :| 0 <= k < |a| && k < |b| && a[..k] == b[..k] && a[k] < b[k] {
        assert x[..k - 1] == a[..k][1..] && y[..k - 1] == b[..k][1..] && x[k - 1] < y[k - 1];
      }
    } else if a != "" && b != "" {
      assert a[..0] == b[..0];
      FirstDecides(a, b);
    }
  }

  lemma FirstDecides(a: string, b: string)
    requires a != "" && b != "" && a[0] != b[0]
    ensures !(a < b) && forall k :: 0 < k <= |a| && k <= |b| ==> a[..k] != b[..k]
  {
    forall k | 0 < k <= |a| && k <= |b| ensures a[..k] != b[..k] {
      assert a[..k][0] == a[0] && b[..k][0] == b[0];
    }
  }

  lemma {:induction false} Trichotomy(a: string, b: string)
    ensures a == b || Less(a, b) || Less(b, a)
    ensures !(Less(a, b) && Less(b, a))
    ensures Less(a, b) ==> a != b
  {
    if a != "" && b != "" && a[0] == b[0] {
      Trichotomy(a[1..], b[1..]);
      assert a == [a[0]] + a[1..] && b == [b[0]] + b[1..];
    }
  }

  lemma {:induction false} Transitive(a: string, b: string, c: string)
    requires Less(a, b) && Less(b, c)
    ensures Less(a, c)
  {
    if a != "" && a[0] == b[0] && b[0] == c[0] { Transitive(a[1..], b[1..], c[1..]); }
  }

  ghost predicate Ascends(ks: seq<string>) {
    forall i, j :: 0 <= i < j < |ks| ==> Less(ks[i], ks[j])
  }

  /** `ks` is the members of `s` in ascending order, each once. */
  ghost predicate Lists(ks: seq<string>, s: set<string>) {
    Ascends(ks) && (forall k :: k in s <==> k in ks)
  }

  lemma {:induction false} OneList(a: seq<string>, b: seq<string>, s: set<string>)
    requires Lists(a, s) && Lists(b, s)
    ensures a == b
    decreases |a|
  {
    EmptyList(a, s);
    EmptyList(b, s);
    if a != [] {
      SameHead(a, b, s);
      TailLists(a, s);
      TailLists(b, s);
      OneList(a[1..], b[1..], s - {a[0]});
      assert a == [a[0]] + a[1..] && b == [b[0]] + b[1..];
    }
  }

  lemma EmptyList(ks: seq<string>, s: set<string>)
    requires Lists(ks, s)
    ensures ks == [] <==> s == {}
  {
    if ks != [] { assert ks[0] in s; }
  }

  lemma SameHead(a: seq<string>, b: seq<string>, s: set<string>)
    requires Lists(a, s) && Lists(b, s) && a != [] && b != []
    ensures a[0] == b[0]
  {
    assert a[0] in s && b[0] in s;
    var i :| 0 <= i < |a| && a[i] == b[0];
    var j :| 0 <= j < |b| && b[j] == a[0];
    Trichotomy(a[0], b[0]);
  }

  lemma TailLists(a: seq<string>, s: set<string>)
    requires Lists(a, s) && a != []
    ensures Lists(a[1..], s - {a[0]})
  {
    forall k ensures k in s - {a[0]} <==> k in a[1..] {
      if k in a[1..] {
        var j :| 0 <= j < |a[1..]| && a[1..][j] == k;
        assert a[j + 1] == k;
        Trichotomy(a[0], k);
      }
      if k in s - {a[0]} {
        var j :| 0 <= j < |a| && a[j] == k;
        assert a[1..][j - 1] == k;
      }
    }
  }

  // ---------------------------------------------------------------- sorting

  function Insert(ks: seq<string>, k: string): (r: seq<string>) {
    if ks == [] || Less(k, ks[0]) then [k] + ks else [ks[0]] + Insert(ks[1..], k)
  }

  lemma {:induction false} InsertMembers(ks: seq<string>, k: string)
    ensures forall x :: x in Insert(ks, k) <==> x == k || x in ks
  {
    if ks != [] && !Less(k, ks[0]) {
      InsertMembers(ks[1..], k);
      assert ks == [ks[0]] + ks[1..];
    }
  }

  lemma {:induction false} InsertAscends(ks: seq<string>, k: string)
    requires Ascends(ks) && k !in ks
    ensures Ascends(Insert(ks, k))
  {
    if ks == [] {
    } else if Less(k, ks[0]) {
      forall i, j | 0 <= i < j < |ks| + 1 ensures Less(([k] + ks)[i], ([k] + ks)[j]) {
        if i == 0 && j > 1 { Transitive(k, ks[0], ks[j - 1]); }
      }
    } else {
      Trichotomy(k, ks[0]);
      InsertAscends(ks[1..], k);
      InsertMembers(ks[1..], k);
      var r := Insert(ks[1..], k);
      forall j | 0 <= j < |r| ensures Less(ks[0], r[j]) {
        assert r[j] in r;
        if r[j] != k {
          var m :| 0 <= m < |ks[1..]| && ks[1..][m] == r[j];
          assert ks[m + 1] == r[j];
        }
      }
    }
  }

  lemma InsertLists(ks: seq<string>, s: set<string>, k: string)
    requires Lists(ks, s) && k !in s
    ensures Lists(Insert(ks, k), s + {k})
  {
    InsertMembers(ks, k);
    InsertAscends(ks, k);
  }

  lemma {:induction false} ListExists(s: set<string>)
    ensures exists ks :: Lists(ks, s)
    decreases |s|
  {
    if s == {} {
      assert Lists([], s);
    } else {
      var k :| k in s;
      ListExists(s - {k});
      var ks :| Lists(ks, s - {k});
      InsertLists(ks, s - {k}, k);
      assert s - {k} + {k} == s;
    }
  }

  /** The one ascending list of a set. */
  ghost function Ascending(s: set<string>): (r: seq<string>)
    ensures forall i :: 0 <= i < |r| ==> r[i] in s
  {
    ListExists(s);
    var ks :| Lists(ks, s);
    ks
  }

  lemma AscendingLists(s: set<string>)
    ensures Lists(Ascending(s), s)
  {
    ListExists(s);
  }

  lemma AscendingIs(ks: seq<string>, s: set<string>)
    requires Lists(ks, s)
    ensures ks == Ascending(s)
  {
    AscendingLists(s);
    OneList(ks, Ascending(s), s);
  }

  /** Collecting a map's keys in whatever order iteration gives and sorting them. */
  method SortedKeys(keys: set<string>) returns (r: seq<string>)
    ensures r == Ascending(keys)
  {
    var todo := keys;
    r := [];
    while todo != {}
      invariant todo <= keys
      invariant Lists(r, keys - todo)
      decreases |todo|
    {
      var k :| k in todo;
      InsertLists(r, keys - todo, k);
      assert keys - todo + {k} == keys - (todo - {k});
      r := Insert(r, k);
      todo := todo - {k};
    }
    assert keys - todo == keys;
    AscendingIs(r, keys);
  }
}
