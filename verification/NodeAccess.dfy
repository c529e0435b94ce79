/**
 Who may use a node: common/nodeaccess/nodeaccess.go. A tenant's own node carries its
 owner in its id; any other node is judged by the bindings.
 */
module NodeAccess {
  import opened ByteOrder
  import opened Options
  import opened Runes
  import opened WhiteSpace

  const MAX_ID := 128
  const MAX_TENANTS := 64
  const PREFIX := "tnode."
  const SUFFIX := 32

  /** A white space or control character starts at offset `i`; the control characters
      beyond ASCII are U+0080 to U+009F. */
  predicate SpaceOrControl(s: string, i: nat)
    requires i < |s|
  {
    || s[i] < ' ' || s[i] == '\U{7f}' || SpaceAt(s, i) > 0
    || (s[i] == '\U{c2}' && i + 1 < |s| && '\U{80}' <= s[i + 1] <= '\U{9f}')
  }

  /** `utf8` is utf8.ValidString. */
  predicate ValidId(utf8: string -> bool, id: string) {
    0 < |id| <= MAX_ID && utf8(id) && forall i: nat :: i < |id| ==> !SpaceOrControl(id, i)
  }

  predicate Dotless(s: string) { forall i :: 0 <= i < |s| ==> s[i] != '.' }

  predicate LowerHex(s: string) {
    |s| == SUFFIX && forall i :: 0 <= i < |s| ==> '0' <= s[i] <= '9' || 'a' <= s[i] <= 'f'
  }

  function LastDot(s: string): (r: int)
    ensures -1 <= r < |s|
  {
    if s == "" then -1 else if s[|s| - 1] == '.' then |s| - 1 else LastDot(s[..|s| - 1])
  }

  // ---------------------------------------------------------------- ids, character by character

  lemma AtRune(c: Rune, rest: string)
    ensures SpaceOrControl(Utf8(c) + rest, 0) <==> White(c) || Control(c)
  {
    LeadingRune(c, rest);
  }

  lemma InsideRune(c: Rune, rest: string, i: nat)
    requires 0 < i < |Utf8(c)|
    ensures !SpaceOrControl(Utf8(c) + rest, i)
  {
    Following(c, i);
  }

  lemma PastRune(c: Rune, rest: string, i: nat)
    requires i < |rest|
    ensures SpaceOrControl(Utf8(c) + rest, |Utf8(c)| + i) <==> SpaceOrControl(rest, i)
  {
    var s, n := Utf8(c) + rest, |Utf8(c)|;
    assert forall k :: 0 <= k < |rest| ==> s[n + k] == rest[k];
  }

  lemma {:induction false} CleanIff(text: seq<Rune>)
    ensures (forall i: nat :: i < |Encode(text)| ==> !SpaceOrControl(Encode(text), i))
            <==> forall k :: 0 <= k < |text| ==> !White(text[k]) && !Control(text[k])
  {
    if text != [] {
      var c, rest := text[0], Encode(text[1..]);
      var s, n := Encode(text), |Utf8(c)|;
      CleanIff(text[1..]);
      AtRune(c, rest);
      forall i: nat | 0 < i < n ensures !SpaceOrControl(s, i) { InsideRune(c, rest, i); }
      forall i: nat | i < |rest| ensures SpaceOrControl(s, n + i) <==> SpaceOrControl(rest, i) { PastRune(c, rest, i); }
      forall i: nat | n <= i < |s| ensures SpaceOrControl(s, i) <==> SpaceOrControl(rest, i - n) { PastRune(c, rest, i - n); }
      assert forall k :: 0 < k < |text| ==> text[k] == text[1..][k - 1];
    }
  }

  /** An id is valid exactly when it is UTF-8 of 1 to 128 bytes and none of its characters is
      white space or a control character. */
  lemma ValidIdIff(utf8: string -> bool, text: seq<Rune>)
    requires utf8(Encode(text))
    ensures ValidId(utf8, Encode(text))
            <==> text != [] && |Encode(text)| <= 128 && forall k :: 0 <= k < |text| ==> !White(text[k]) && !Control(text[k])
  {
    CleanIff(text);
  }

  lemma NotUtf8IsRefused(utf8: string -> bool, id: string)
    requires !utf8(id)
    ensures !ValidId(utf8, id)
  {
  }

  // ---------------------------------------------------------------- the random part

  const DIGITS := "0123456789abcdef"

  type Byte = b: int | 0 <= b < 256

  /** hex.EncodeToString. */
  function Hex(bytes: seq<Byte>): (r: string)
    ensures |r| == 2 * |bytes|
  {
    if bytes == [] then "" else [DIGITS[bytes[0] / 16], DIGITS[bytes[0] % 16]] + Hex(bytes[1..])
  }

  predicate AllHex(s: string) { forall i :: 0 <= i < |s| ==> '0' <= s[i] <= '9' || 'a' <= s[i] <= 'f' }

  lemma DigitIff(c: char) returns (d: nat)
    ensures d < 16
    ensures c == DIGITS[d] <==> '0' <= c <= '9' || 'a' <= c <= 'f'
  {
    d := if '0' <= c <= '9' then c as int - '0' as int else if 'a' <= c <= 'f' then 10 + c as int - 'a' as int else 0;
  }

  lemma {:induction false} HexReads(bytes: seq<Byte>)
    ensures AllHex(Hex(bytes))
  {
    if bytes != [] { HexReads(bytes[1..]); }
  }

  lemma HexMore(a: nat, b: nat, more: seq<Byte>)
    requires a < 16 && b < 16
    ensures Hex([16 * a + b] + more) == [DIGITS[a], DIGITS[b]] + Hex(more)
  {
    var bytes: seq<Byte> := [16 * a + b] + more;
    assert bytes[1..] == more;
  }

  lemma {:induction false} Unhex(s: string) returns (bytes: seq<Byte>)
    requires AllHex(s) && |s| % 2 == 0
    ensures Hex(bytes) == s
  {
    if s == "" {
      bytes := [];
    } else {
      var a := DigitIff(s[0]);
      var b := DigitIff(s[1]);
      var more := Unhex(s[2..]);
      bytes := [16 * a + b] + more;
      HexMore(a, b, more);
      assert s == [s[0], s[1]] + s[2..];
    }
  }

  /** The suffix an id may have is exactly what 16 random bytes are written as. */
  lemma LowerHexIff(s: string)
    ensures LowerHex(s) <==> exists bytes: seq<Byte> :: |bytes| == 16 && Hex(bytes) == s
  {
    if LowerHex(s) {
      var bytes := Unhex(s);
      assert |bytes| == 16;
    }
    if bytes: seq<Byte> :| |bytes| == 16 && Hex(bytes) == s {
      HexReads(bytes);
    }
  }

  // ---------------------------------------------------------------- owned nodes

  /** Whether a tenant id can own a node, and the node's id for a random suffix. */
  predicate CanOwn(utf8: string -> bool, tenant: string) {
    ValidId(utf8, tenant) && Dotless(tenant) && |PREFIX| + |tenant| + 1 + SUFFIX <= MAX_ID
  }

  function NewTenantNodeId(utf8: string -> bool, tenant: string, random: string): (r: Option<string>) {
    if CanOwn(utf8, tenant) then Some(PREFIX + tenant + "." + random) else None
  }

  /** None: not owned. Some(""): owned by nobody. */
  function OwnerOf(utf8: string -> bool, node: string): (r: Option<string>) {
    if !(PREFIX <= node) then None
    else if |node| > MAX_ID then Some("")
    else
      var rest := node[|PREFIX|..];
      var dot := LastDot(rest);
      if dot <= 0 then Some("")
      else if !Dotless(rest[..dot]) || !ValidId(utf8, rest[..dot]) || !LowerHex(rest[dot + 1..]) then Some("")
      else Some(rest[..dot])
  }

  lemma {:induction false} LastDotAt(a: string, b: string)
    requires Dotless(b)
    ensures LastDot(a + "." + b) == |a|
    decreases |b|
  {
    var s := a + "." + b;
    if b == "" {
      assert s[|s| - 1] == '.';
    } else {
      assert s[..|s| - 1] == a + "." + b[..|b| - 1];
      LastDotAt(a, b[..|b| - 1]);
    }
  }

  lemma {:induction false} LastDotIsDot(s: string)
    requires LastDot(s) >= 0
    ensures s[LastDot(s)] == '.'
  {
    if s[|s| - 1] != '.' { LastDotIsDot(s[..|s| - 1]); }
  }

  lemma HexIsDotless(s: string)
    requires LowerHex(s)
    ensures Dotless(s)
  {
  }

  /** A node belongs to a tenant exactly when its id is one that can be minted for it. */
  lemma OwnerIff(utf8: string -> bool, node: string, tenant: string)
    requires tenant != ""
    ensures OwnerOf(utf8, node) == Some(tenant)
            <==> CanOwn(utf8, tenant) && exists random :: LowerHex(random) && NewTenantNodeId(utf8, tenant, random) == Some(node)
  {
    if OwnerOf(utf8, node) == Some(tenant) {
      var rest := node[|PREFIX|..];
      var dot := LastDot(rest);
      LastDotIsDot(rest);
      var random := rest[dot + 1..];
      assert rest == tenant + "." + random;
      assert node == PREFIX + rest;
      Spelled(PREFIX, tenant, random);
      assert NewTenantNodeId(utf8, tenant, random) == Some(node);
    }
    if CanOwn(utf8, tenant) && exists random :: LowerHex(random) && NewTenantNodeId(utf8, tenant, random) == Some(node) {
      var random :| LowerHex(random) && NewTenantNodeId(utf8, tenant, random) == Some(node);
      MintReadsBack(utf8, tenant, random);
    }
  }

  lemma Spelled(p: string, t: string, r: string)
    ensures p + (t + "." + r) == p + t + "." + r
  {
  }

  /** Every minted id reads back to exactly its tenant. */
  lemma MintReadsBack(utf8: string -> bool, tenant: string, random: string)
    requires CanOwn(utf8, tenant) && LowerHex(random)
    ensures OwnerOf(utf8, NewTenantNodeId(utf8, tenant, random).value) == Some(tenant)
  {
    var node := PREFIX + tenant + "." + random;
    Spelled(PREFIX, tenant, random);
    var rest := tenant + "." + random;
    assert node[..|PREFIX|] == PREFIX && node[|PREFIX|..] == rest;
    HexIsDotless(random);
    LastDotAt(tenant, random);
    assert rest[..|tenant|] == tenant && rest[|tenant| + 1..] == random;
  }

  // ---------------------------------------------------------------- bindings

  datatype Binding = Binding(node: string, tenants: seq<string>)

  /** The nodes bound to others only, among the first `i` bindings. */
  function Excluded(bindings: seq<Binding>, tenant: string, i: nat): (r: seq<string>)
    requires i <= |bindings|
  {
    if i == 0 then []
    else
      var b := bindings[i - 1];
      Excluded(bindings, tenant, i - 1) + (if b.tenants == [] || tenant in b.tenants then [] else [b.node])
  }

  /** PolicyFor: the excluded nodes, sorted. */
  method PolicyFor(bindings: seq<Binding>, tenant: string) returns (policy: seq<string>)
    ensures multiset(policy) == multiset(Excluded(bindings, tenant, |bindings|)) && InOrder(policy)
  {
    policy := [];
    for i := 0 to |bindings|
      invariant multiset(policy) == multiset(Excluded(bindings, tenant, i))
      invariant InOrder(policy)
    {
      ghost var before := Excluded(bindings, tenant, i);
      var b := bindings[i];
      if |b.tenants| == 0 || tenant in b.tenants {
        assert before + [] == before;
        continue;
      }
      policy := Sorted(policy, b.node);
      assert multiset(before + [b.node]) == multiset(before) + multiset{b.node};
    }
  }

  method Sorted(s: seq<string>, k: string) returns (r: seq<string>)
    requires InOrder(s)
    ensures InOrder(r) && multiset(r) == multiset(s) + multiset{k}
  {
    InsertInOrder(s, k);
    InsertCounts(s, k);
    r := Insert(s, k);
  }

  ghost predicate InOrder(s: seq<string>) { forall i, j :: 0 <= i < j < |s| ==> !Less(s[j], s[i]) }

  lemma {:induction false} InsertCounts(s: seq<string>, k: string)
    ensures multiset(Insert(s, k)) == multiset(s) + multiset{k}
  {
    if s != [] && !Less(k, s[0]) {
      InsertCounts(s[1..], k);
      assert s == [s[0]] + s[1..];
    }
  }

  lemma {:induction false} InsertInOrder(s: seq<string>, k: string)
    requires InOrder(s)
    ensures InOrder(Insert(s, k))
  {
    if s == [] {
    } else if Less(k, s[0]) {
      var r := [k] + s;
      Trichotomy(s[0], s[0]);
      forall i, j | 0 <= i < j < |r| ensures !Less(r[j], r[i]) {
        if i == 0 { KeptBelow(k, s[0], r[j]); }
      }
    } else {
      InsertInOrder(s[1..], k);
      InsertMembers(s[1..], k);
      var r := Insert(s[1..], k);
      forall j | 0 <= j < |r| ensures !Less(r[j], s[0]) {
        assert r[j] in r;
        if r[j] != k {
          var m :| 0 <= m < |s[1..]| && s[1..][m] == r[j];
          assert s[m + 1] == r[j];
        }
      }
    }
  }

  lemma KeptBelow(k: string, first: string, x: string)
    requires Less(k, first) && !Less(x, first)
    ensures !Less(x, k)
  {
    if Less(x, k) { Transitive(x, k, first); }
  }

  lemma {:induction false} ExcludedIff(bindings: seq<Binding>, tenant: string, i: nat, node: string)
    requires i <= |bindings|
    ensures node in Excluded(bindings, tenant, i)
            <==> exists j :: 0 <= j < i && bindings[j].node == node && bindings[j].tenants != [] && tenant !in bindings[j].tenants
  {
    if i > 0 { ExcludedIff(bindings, tenant, i - 1, node); }
  }

  function Permits(utf8: string -> bool, tenant: string, policy: seq<string>, node: string): (r: bool) {
    var owner := OwnerOf(utf8, node);
    if owner.Some? then owner.value != "" && owner.value == tenant else node !in policy
  }

  /** The plain rule: a node under the reserved prefix admits its owner alone, and any
      other node admits the tenants that every one of its non-empty bindings names. */
  ghost predicate MayUse(utf8: string -> bool, bindings: seq<Binding>, tenant: string, node: string) {
    if PREFIX <= node then tenant != "" && OwnerOf(utf8, node) == Some(tenant)
    else forall j :: 0 <= j < |bindings| && bindings[j].node == node && bindings[j].tenants != [] ==> tenant in bindings[j].tenants
  }

  /** Deciding by the derived policy is deciding by the plain rule. */
  lemma PermitsIsTheRule(utf8: string -> bool, bindings: seq<Binding>, tenant: string, node: string, policy: seq<string>)
    requires multiset(policy) == multiset(Excluded(bindings, tenant, |bindings|))
    ensures Permits(utf8, tenant, policy, node) <==> MayUse(utf8, bindings, tenant, node)
  {
    ExcludedIff(bindings, tenant, |bindings|, node);
    assert node in policy <==> node in multiset(policy);
  }

  // ---------------------------------------------------------------- tenant lists

  /** The trimmed ids among the first `i`, if all are valid. */
  function Trimmed(utf8: string -> bool, tenants: seq<string>, i: nat): (r: Option<set<string>>)
    requires i <= |tenants|
  {
    if i == 0 then Some({})
    else
      var t, before := TrimSpace(tenants[i - 1]), Trimmed(utf8, tenants, i - 1);
      if before.None? || !ValidId(utf8, t) then None else Some(before.value + {t})
  }

  ghost function Normalized(utf8: string -> bool, tenants: seq<string>): (r: Option<seq<string>>) {
    var ids := Trimmed(utf8, tenants, |tenants|);
    if ids.None? || |ids.value| > MAX_TENANTS then None else Some(Ascending(ids.value))
  }

  method NormalizeTenants(utf8: string -> bool, tenants: seq<string>) returns (r: Option<seq<string>>)
    ensures r == Normalized(utf8, tenants)
  {
    var seen: set<string> := {};
    for i := 0 to |tenants|
      invariant Trimmed(utf8, tenants, i) == Some(seen)
    {
      var tenant := TrimSpace(tenants[i]);
      if !ValidId(utf8, tenant) {
        InvalidStays(utf8, tenants, i + 1, |tenants|);
        return None;
      }
      seen := seen + {tenant};
    }
    if |seen| > MAX_TENANTS {
      return None;
    }
    var out := SortedKeys(seen);
    r := Some(out);
  }

  lemma {:induction false} InvalidStays(utf8: string -> bool, tenants: seq<string>, i: nat, j: nat)
    requires i <= j <= |tenants| && Trimmed(utf8, tenants, i).None?
    ensures Trimmed(utf8, tenants, j).None?
    decreases j
  {
    if i < j { InvalidStays(utf8, tenants, i, j - 1); }
  }

  lemma ValidIsTrimmed(utf8: string -> bool, id: string)
    requires ValidId(utf8, id)
    ensures TrimSpace(id) == id
  {
    var n := |id|;
    assert !SpaceOrControl(id, 0) && !SpaceOrControl(id, n - 1);
    assert n >= 2 ==> !SpaceOrControl(id, n - 2);
    assert n >= 3 ==> !SpaceOrControl(id, n - 3);
    assert Leading(id) == 0 && Trailing(id) == 0;
  }

  lemma {:induction false} TrimmedAreValid(utf8: string -> bool, tenants: seq<string>, i: nat)
    requires i <= |tenants| && Trimmed(utf8, tenants, i).Some?
    ensures forall t :: t in Trimmed(utf8, tenants, i).value ==> ValidId(utf8, t)
  {
    if i > 0 { TrimmedAreValid(utf8, tenants, i - 1); }
  }

  lemma {:induction false} ValidListIsItself(utf8: string -> bool, ids: seq<string>, i: nat)
    requires i <= |ids| && forall j :: 0 <= j < |ids| ==> ValidId(utf8, ids[j])
    ensures Trimmed(utf8, ids, i).Some? && forall t :: t in Trimmed(utf8, ids, i).value <==> t in ids[..i]
  {
    if i > 0 {
      ValidListIsItself(utf8, ids, i - 1);
      ValidIsTrimmed(utf8, ids[i - 1]);
      assert ids[..i] == ids[..i - 1] + [ids[i - 1]];
    }
  }

  /** Normalizing a normalized list changes nothing. */
  lemma NormalizeIsIdempotent(utf8: string -> bool, tenants: seq<string>)
    requires Normalized(utf8, tenants).Some?
    ensures Normalized(utf8, Normalized(utf8, tenants).value) == Normalized(utf8, tenants)
  {
    var ids := Trimmed(utf8, tenants, |tenants|).value;
    var list := Ascending(ids);
    AscendingLists(ids);
    TrimmedAreValid(utf8, tenants, |tenants|);
    ValidListIsItself(utf8, list, |list|);
    assert list[..|list|] == list;
    assert Trimmed(utf8, list, |list|).value == ids;
  }

  /** The list names this id, white space around it aside. */
  ghost predicate Names(tenants: seq<string>, t: string) { exists j :: 0 <= j < |tenants| && TrimSpace(tenants[j]) == t }

  lemma {:induction false} TrimmedIff(utf8: string -> bool, tenants: seq<string>, i: nat)
    requires i <= |tenants|
    ensures Trimmed(utf8, tenants, i).Some? <==> forall t :: Names(tenants[..i], t) ==> ValidId(utf8, t)
    ensures Trimmed(utf8, tenants, i).Some? ==> forall t :: t in Trimmed(utf8, tenants, i).value <==> Names(tenants[..i], t)
  {
    if i > 0 {
      TrimmedIff(utf8, tenants, i - 1);
      forall t ensures Names(tenants[..i], t) <==> Names(tenants[..i - 1], t) || t == TrimSpace(tenants[i - 1]) {
        NamesOneMore(tenants, i, t);
      }
    }
  }

  lemma NamesOneMore(tenants: seq<string>, i: nat, t: string)
    requires 0 < i <= |tenants|
    ensures Names(tenants[..i], t) <==> Names(tenants[..i - 1], t) || t == TrimSpace(tenants[i - 1])
  {
    var all, front := tenants[..i], tenants[..i - 1];
    assert all[i - 1] == tenants[i - 1];
    if Names(front, t) {
      var j :| 0 <= j < |front| && TrimSpace(front[j]) == t;
      assert all[j] == front[j];
    }
    if Names(all, t) && t != TrimSpace(tenants[i - 1]) {
      var j :| 0 <= j < |all| && TrimSpace(all[j]) == t;
      assert front[j] == all[j];
    }
  }

  /** Two submissions that name the same ids are stored alike. */
  lemma SameSetSameList(utf8: string -> bool, a: seq<string>, b: seq<string>)
    requires forall t :: Names(a, t) <==> Names(b, t)
    ensures Normalized(utf8, a) == Normalized(utf8, b)
  {
    TrimmedIff(utf8, a, |a|);
    TrimmedIff(utf8, b, |b|);
    assert a[..|a|] == a && b[..|b|] == b;
    var x, y := Trimmed(utf8, a, |a|), Trimmed(utf8, b, |b|);
    if x.Some? && y.Some? {
      assert forall t :: t in x.value <==> t in y.value;
      assert x.value == y.value;
    }
  }
}
