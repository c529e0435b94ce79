/**
 A greedy filter under three budgets: how many names, how many values of a name and
 how many bytes in all. Names are renamed as they pass, so two of them may end up
 as one, and the walk is in the order of the names before renaming. This is the loop
 of SanitizeUpstreamHeader in common/runtime/messages_upstream.go, for any rule on
 names and values.
 */
module BoundedFilter {
  import opened ByteOrder
  import opened Options

  type Header = map<string, seq<string>>

  const MAX_NAMES := 128
  const MAX_VALUES := 16
  const MAX_BYTES := 32 * 1024

  /** Under what name an entry passes, if it does. */
  type Rename = string -> Option<string>

  /** What has been kept so far, and its size. */
  datatype Kept = Kept(out: Header, total: nat)

  function Of(out: Header, name: string): (r: seq<string>) { if name in out then out[name] else [] }

  predicate Fits(ok: string -> bool, k: Kept, name: string, value: string) {
    |Of(k.out, name)| < MAX_VALUES && ok(value) && k.total + |name| + |value| <= MAX_BYTES
  }

  function Take(ok: string -> bool, k: Kept, name: string, value: string): (r: Kept) {
    if Fits(ok, k, name, value)
    then Kept(k.out[name := Of(k.out, name) + [value]], k.total + |name| + |value|)
    else k
  }

  /** After the first `i` values. */
  function TakeValues(ok: string -> bool, k: Kept, name: string, values: seq<string>, i: nat): (r: Kept)
    requires i <= |values|
  {
    if i == 0 then k else Take(ok, TakeValues(ok, k, name, values, i - 1), name, values[i - 1])
  }

  function TakeName(rename: Rename, ok: string -> bool, k: Kept, name: string, values: seq<string>): (r: Kept) {
    if rename(name).Some? && |k.out| < MAX_NAMES then TakeValues(ok, k, rename(name).value, values, |values|) else k
  }

  /** After the first `i` names. */
  function TakeNames(rename: Rename, ok: string -> bool, h: Header, names: seq<string>, i: nat): (r: Kept)
    requires i <= |names| && forall j :: 0 <= j < |names| ==> names[j] in h
  {
    if i == 0 then Kept(map[], 0)
    else TakeName(rename, ok, TakeNames(rename, ok, h, names, i - 1), names[i - 1], h[names[i - 1]])
  }

  /** What passes. */
  ghost function Passed(rename: Rename, ok: string -> bool, h: Header): (r: Header) {
    var names := Ascending(h.Keys);
    TakeNames(rename, ok, h, names, |names|).out
  }

  // ---------------------------------------------------------------- sizes

  /** The bytes of a name's first `i` values. */
  function CostUpTo(name: string, values: seq<string>, i: nat): (r: nat)
    requires i <= |values|
  {
    if i == 0 then 0 else CostUpTo(name, values, i - 1) + |name| + |values[i - 1]|
  }

  function Cost(name: string, values: seq<string>): (r: nat) { CostUpTo(name, values, |values|) }

  lemma {:induction false} CostSame(name: string, a: seq<string>, b: seq<string>, i: nat)
    requires i <= |a| && i <= |b| && forall j :: 0 <= j < i ==> a[j] == b[j]
    ensures CostUpTo(name, a, i) == CostUpTo(name, b, i)
  {
    if i > 0 { CostSame(name, a, b, i - 1); }
  }

  lemma CostOne(name: string, values: seq<string>, v: string)
    ensures Cost(name, values + [v]) == Cost(name, values) + |name| + |v|
  {
    CostSame(name, values + [v], values, |values|);
  }

  lemma {:induction false} CostPrefix(name: string, values: seq<string>, i: nat, j: nat)
    requires i <= j <= |values|
    ensures CostUpTo(name, values, i) <= CostUpTo(name, values, j)
    decreases j
  {
    if i < j { CostPrefix(name, values, i, j - 1); }
  }

  /** The bytes of a header set, summed in any order. */
  ghost function Bytes(h: Header): (r: nat)
    decreases |h|
  {
    if h == map[] then 0
    else var k :| k in h; Cost(k, h[k]) + Bytes(h - {k})
  }

  lemma {:induction false} BytesWithout(h: Header, k: string)
    requires k in h
    ensures Bytes(h) == Cost(k, h[k]) + Bytes(h - {k})
    decreases |h|
  {
    var p :| p in h && Bytes(h) == Cost(p, h[p]) + Bytes(h - {p});
    if p != k {
      BytesWithout(h - {p}, k);
      BytesWithout(h - {k}, p);
      assert h - {p} - {k} == h - {k} - {p};
    }
  }

  lemma BytesWith(h: Header, k: string, values: seq<string>)
    ensures Bytes(h[k := values]) == Cost(k, values) + Bytes(h - {k})
    ensures k !in h ==> h - {k} == h
  {
    BytesWithout(h[k := values], k);
    assert h[k := values] - {k} == h - {k};
  }

  /** The part of a header under some names. */
  function Under(h: Header, names: set<string>): (r: Header) { map n | n in h && n in names :: h[n] }

  lemma {:induction false} BytesUnder(h: Header, names: set<string>)
    ensures Bytes(Under(h, names)) <= Bytes(h)
    decreases |h|
  {
    if k :| k in h && k !in names {
      BytesWithout(h, k);
      BytesUnder(h - {k}, names);
      assert Under(h - {k}, names) == Under(h, names);
    } else {
      assert Under(h, names) == h;
    }
  }

  // ---------------------------------------------------------------- what the filter lets through

  /** An entry as the filter leaves it: its name passes unchanged. */
  ghost predicate GoodEntry(rename: Rename, ok: string -> bool, name: string, values: seq<string>) {
    && rename(name) == Some(name)
    && 0 < |values| <= MAX_VALUES
    && forall i :: 0 <= i < |values| ==> ok(values[i])
  }

  /** A header set within every bound, all of whose entries are in order. */
  ghost predicate Admissible(rename: Rename, ok: string -> bool, h: Header) {
    && (forall n :: n in h ==> GoodEntry(rename, ok, n, h[n]))
    && |h| <= MAX_NAMES
    && Bytes(h) <= MAX_BYTES
  }

  /** A name that passes one rule passes the other unchanged from then on. */
  ghost predicate Settles(rename: Rename, again: Rename) {
    forall n :: rename(n).Some? ==> again(rename(n).value) == rename(n)
  }

  /** The filter's invariant. */
  ghost predicate Sound(again: Rename, ok: string -> bool, k: Kept) {
    && (forall n :: n in k.out ==> GoodEntry(again, ok, n, k.out[n]))
    && k.total == Bytes(k.out) <= MAX_BYTES
  }

  lemma TakeSound(again: Rename, ok: string -> bool, k: Kept, name: string, value: string)
    requires Sound(again, ok, k) && again(name) == Some(name)
    ensures Sound(again, ok, Take(ok, k, name, value))
    ensures Take(ok, k, name, value).out.Keys <= k.out.Keys + {name}
  {
    if Fits(ok, k, name, value) {
      var was := Of(k.out, name);
      BytesWith(k.out, name, was + [value]);
      CostOne(name, was, value);
      if name in k.out { BytesWithout(k.out, name); }
    }
  }

  lemma {:induction false} TakeValuesSound(again: Rename, ok: string -> bool, k: Kept, name: string, values: seq<string>, i: nat)
    requires i <= |values| && Sound(again, ok, k) && again(name) == Some(name)
    ensures Sound(again, ok, TakeValues(ok, k, name, values, i))
    ensures TakeValues(ok, k, name, values, i).out.Keys <= k.out.Keys + {name}
  {
    if i > 0 {
      TakeValuesSound(again, ok, k, name, values, i - 1);
      TakeSound(again, ok, TakeValues(ok, k, name, values, i - 1), name, values[i - 1]);
    }
  }

  lemma SmallSubset(a: set<string>, b: set<string>, x: string)
    requires a <= b + {x}
    ensures |a| <= |b| + 1
  {
    CardinalityBound(a, b + {x});
  }

  lemma {:induction false} CardinalityBound(a: set<string>, b: set<string>)
    requires a <= b
    ensures |a| <= |b|
    decreases |a|
  {
    if a != {} {
      var x :| x in a;
      CardinalityBound(a - {x}, b - {x});
    }
  }

  lemma TakeNameSound(rename: Rename, again: Rename, ok: string -> bool, k: Kept, name: string, values: seq<string>)
    requires Settles(rename, again) && Sound(again, ok, k) && |k.out| <= MAX_NAMES
    ensures var k' := TakeName(rename, ok, k, name, values); Sound(again, ok, k') && |k'.out| <= MAX_NAMES
  {
    if rename(name).Some? && |k.out| < MAX_NAMES {
      var c := rename(name).value;
      TakeValuesSound(again, ok, k, c, values, |values|);
      var k' := TakeValues(ok, k, c, values, |values|);
      SmallSubset(k'.out.Keys, k.out.Keys, c);
      assert |k'.out| == |k'.out.Keys| && |k.out| == |k.out.Keys|;
    }
  }

  lemma {:induction false} TakeNamesSound(rename: Rename, again: Rename, ok: string -> bool, h: Header, names: seq<string>, i: nat)
    requires i <= |names| && forall j :: 0 <= j < |names| ==> names[j] in h
    requires Settles(rename, again)
    ensures var k := TakeNames(rename, ok, h, names, i); Sound(again, ok, k) && |k.out| <= MAX_NAMES
  {
    if i > 0 {
      TakeNamesSound(rename, again, ok, h, names, i - 1);
      TakeNameSound(rename, again, ok, TakeNames(rename, ok, h, names, i - 1), names[i - 1], h[names[i - 1]]);
    }
  }

  /** What passes is within every bound and in order for any later rule it settles under. */
  lemma PassedIsAdmissible(rename: Rename, again: Rename, ok: string -> bool, h: Header)
    requires Settles(rename, again)
    ensures Admissible(again, ok, Passed(rename, ok, h))
  {
    var names := Ascending(h.Keys);
    TakeNamesSound(rename, again, ok, h, names, |names|);
  }

  // ---------------------------------------------------------------- filtering what is in order

  lemma {:induction false} AllValuesFit(ok: string -> bool, k: Kept, name: string, values: seq<string>, i: nat)
    requires i <= |values| <= MAX_VALUES && forall j :: 0 <= j < |values| ==> ok(values[j])
    requires name !in k.out && k.total + Cost(name, values) <= MAX_BYTES
    ensures TakeValues(ok, k, name, values, i)
            == Kept(if i == 0 then k.out else k.out[name := values[..i]], k.total + CostUpTo(name, values, i))
  {
    if i > 0 {
      AllValuesFit(ok, k, name, values, i - 1);
      CostPrefix(name, values, i, |values|);
      NextValueFits(ok, TakeValues(ok, k, name, values, i - 1), k.out, name, values, i - 1);
    }
  }

  lemma NextValueFits(ok: string -> bool, k: Kept, start: Header, name: string, values: seq<string>, i: nat)
    requires i < |values| <= MAX_VALUES && ok(values[i]) && k.total + |name| + |values[i]| <= MAX_BYTES
    requires name !in start && k.out == (if i == 0 then start else start[name := values[..i]])
    ensures Take(ok, k, name, values[i]) == Kept(start[name := values[..i + 1]], k.total + |name| + |values[i]|)
  {
    assert Of(k.out, name) == values[..i];
    assert values[..i] + [values[i]] == values[..i + 1];
  }

  /** Each name is listed once, and only names there are. */
  ghost predicate Names(names: seq<string>, h: Header) {
    && (forall j :: 0 <= j < |names| ==> names[j] in h)
    && (forall i, j :: 0 <= i < j < |names| ==> names[i] != names[j])
  }

  /** The entries of the first `i` names. */
  function Front(h: Header, names: seq<string>, i: nat): (r: Header)
    requires i <= |names| && forall j :: 0 <= j < |names| ==> names[j] in h
  {
    if i == 0 then map[] else Front(h, names, i - 1)[names[i - 1] := h[names[i - 1]]]
  }

  lemma {:induction false} FrontSpec(h: Header, names: seq<string>, i: nat)
    requires i <= |names| && Names(names, h)
    ensures forall n :: n in Front(h, names, i) ==> n in h && Front(h, names, i)[n] == h[n]
    ensures forall j :: 0 <= j < i ==> names[j] in Front(h, names, i)
    ensures forall j :: i <= j < |names| ==> names[j] !in Front(h, names, i)
  {
    if i > 0 { FrontSpec(h, names, i - 1); }
  }

  lemma NamesOf(h: Header)
    ensures Names(Ascending(h.Keys), h) && Front(h, Ascending(h.Keys), |Ascending(h.Keys)|) == h
  {
    var names := Ascending(h.Keys);
    AscendingLists(h.Keys);
    forall i, j | 0 <= i < j < |names| ensures names[i] != names[j] {
      Trichotomy(names[i], names[j]);
    }
    FrontSpec(h, names, |names|);
    forall n | n in h ensures n in Front(h, names, |names|) {
      assert n in names;
    }
  }

  ghost function Whole(part: Header): (r: Kept) { Kept(part, Bytes(part)) }

  /** Taking the next name adds its whole entry. */
  ghost predicate StepFits(rename: Rename, ok: string -> bool, h: Header, names: seq<string>, i: nat)
    requires i < |names| && forall j :: 0 <= j < |names| ==> names[j] in h
  {
    TakeName(rename, ok, Whole(Front(h, names, i)), names[i], h[names[i]]) == Whole(Front(h, names, i + 1))
  }

  lemma {:induction false} AllNamesFit(rename: Rename, ok: string -> bool, h: Header, names: seq<string>, i: nat)
    requires i <= |names| && forall j :: 0 <= j < |names| ==> names[j] in h
    requires forall j: nat :: j < i ==> StepFits(rename, ok, h, names, j)
    ensures TakeNames(rename, ok, h, names, i) == Whole(Front(h, names, i))
  {
    if i > 0 {
      AllNamesFit(rename, ok, h, names, i - 1);
      assert StepFits(rename, ok, h, names, i - 1);
    }
  }

  lemma NextNameFits(rename: Rename, ok: string -> bool, h: Header, names: seq<string>, i: nat)
    requires Admissible(rename, ok, h) && i < |names| && Names(names, h)
    ensures StepFits(rename, ok, h, names, i)
  {
    FrontSpec(h, names, i);
    NameFits(rename, ok, h, Front(h, names, i), names[i]);
  }

  /** An entry that is still to come fits on top of a part of the header. */
  lemma NameFits(rename: Rename, ok: string -> bool, h: Header, part: Header, name: string)
    requires Admissible(rename, ok, h) && name in h && name !in part
    requires forall n :: n in part ==> n in h && part[n] == h[n]
    ensures var more := part[name := h[name]];
      TakeName(rename, ok, Kept(part, Bytes(part)), name, h[name]) == Kept(more, Bytes(more))
  {
    assert GoodEntry(rename, ok, name, h[name]);
    PartIsSmaller(h, part, name);
    AllValuesFit(ok, Kept(part, Bytes(part)), name, h[name], |h[name]|);
    assert h[name][..|h[name]|] == h[name];
  }

  lemma PartIsSmaller(h: Header, part: Header, name: string)
    requires name in h && name !in part
    requires forall n :: n in part ==> n in h && part[n] == h[n]
    ensures |part| < |h|
    ensures Bytes(part[name := h[name]]) == Bytes(part) + Cost(name, h[name]) <= Bytes(h)
  {
    var more := part[name := h[name]];
    BytesWith(part, name, h[name]);
    BytesUnder(h, more.Keys);
    assert Under(h, more.Keys) == more;
    StrictlyFewer(part.Keys, h.Keys, name);
    assert |part| == |part.Keys| && |h| == |h.Keys|;
  }

  lemma StrictlyFewer(a: set<string>, b: set<string>, x: string)
    requires a <= b && x in b && x !in a
    ensures |a| < |b|
  {
    CardinalityBound(a, b - {x});
  }

  /** A header set in order is kept whole. */
  lemma AdmissibleIsKept(rename: Rename, ok: string -> bool, h: Header)
    requires Admissible(rename, ok, h)
    ensures Passed(rename, ok, h) == h
  {
    NamesOf(h);
    var names := Ascending(h.Keys);
    forall j: nat | j < |names| ensures StepFits(rename, ok, h, names, j) {
      NextNameFits(rename, ok, h, names, j);
    }
    AllNamesFit(rename, ok, h, names, |names|);
  }

  // ---------------------------------------------------------------- the loops

  method KeepValues(ok: string -> bool, k: Kept, name: string, values: seq<string>) returns (r: Kept)
    ensures r == TakeValues(ok, k, name, values, |values|)
  {
    r := k;
    for i := 0 to |values|
      invariant r == TakeValues(ok, k, name, values, i)
    {
      var value := values[i];
      if |Of(r.out, name)| >= MAX_VALUES || !ok(value) || r.total + |name| + |value| > MAX_BYTES {
        continue;
      }
      r := Kept(r.out[name := Of(r.out, name) + [value]], r.total + |name| + |value|);
    }
  }

  /** Once the name budget is used up nothing more is taken. */
  lemma {:induction false} FullStays(rename: Rename, ok: string -> bool, h: Header, names: seq<string>, i: nat, j: nat)
    requires i <= j <= |names| && forall m :: 0 <= m < |names| ==> names[m] in h
    requires |TakeNames(rename, ok, h, names, i).out| >= MAX_NAMES
    ensures TakeNames(rename, ok, h, names, j) == TakeNames(rename, ok, h, names, i)
    decreases j
  {
    if i < j { FullStays(rename, ok, h, names, i, j - 1); }
  }

  method KeepNames(rename: Rename, ok: string -> bool, h: Header, names: seq<string>) returns (k: Kept)
    requires forall j :: 0 <= j < |names| ==> names[j] in h
    ensures k == TakeNames(rename, ok, h, names, |names|)
  {
    k := Kept(map[], 0);
    for i := 0 to |names|
      invariant k == TakeNames(rename, ok, h, names, i)
    {
      var c := rename(names[i]);
      if c.None? {
        continue;
      }
      if |k.out| >= MAX_NAMES {
        FullStays(rename, ok, h, names, i, |names|);
        break;
      }
      k := KeepValues(ok, k, c.value, h[names[i]]);
    }
  }

  method Filter(rename: Rename, ok: string -> bool, h: Header) returns (r: Header)
    ensures r == Passed(rename, ok, h)
  {
    var names := SortedKeys(h.Keys);
    var k := KeepNames(rename, ok, h, names);
    r := k.out;
  }
}
