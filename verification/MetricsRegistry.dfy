/**
 The registry's index: labelKey, and the two-section lookups `family` and `series`
 of common/metrics/registry.go, under every interleaving of callers.
 */
module MetricsRegistry {
  import opened ByteOrder
  import opened Exposition
  import opened Options
  import opened Text

  // ---------------------------------------------------------------- label keys

  const NUL := "\0"

  /** Every key and value, each ended by a NUL. */
  function KeyText(ps: seq<Labelled>): (r: string) {
    if ps == [] then "" else ps[0].0 + NUL + (ps[0].1 + NUL + KeyText(ps[1..]))
  }

  ghost function Sorted(labels: Labels): (r: seq<Labelled>) { Picked(labels, Ascending(labels.Keys)) }

  ghost function LabelKey(labels: Labels): (r: string) { KeyText(Sorted(labels)) }

  predicate Clean(s: string) { forall i :: 0 <= i < |s| ==> s[i] != '\0' }

  ghost predicate NulFree(labels: Labels) { forall k :: k in labels ==> Clean(k) && Clean(labels[k]) }

  predicate CleanPairs(ps: seq<Labelled>) { forall i :: 0 <= i < |ps| ==> Clean(ps[i].0) && Clean(ps[i].1) }

  lemma {:induction false} KeyTextLast(ps: seq<Labelled>, p: Labelled)
    ensures KeyText(ps + [p]) == KeyText(ps) + (p.0 + NUL + p.1 + NUL)
  {
    if ps == [] {
      assert ([p])[1..] == [] && ps + [p] == [p];
      assert KeyText([p]) == p.0 + NUL + (p.1 + NUL + "");
      assert p.0 + NUL + (p.1 + NUL + "") == "" + (p.0 + NUL + p.1 + NUL);
    } else {
      assert (ps + [p])[1..] == ps[1..] + [p];
      KeyTextLast(ps[1..], p);
      Shifted(ps[0].0 + NUL, ps[0].1 + NUL, KeyText(ps[1..]), p.0 + NUL + p.1 + NUL);
    }
  }

  lemma Shifted(a: string, b: string, c: string, d: string)
    ensures a + (b + (c + d)) == a + (b + c) + d
  {
  }

  method MakeLabelKey(labels: Labels) returns (r: string)
    ensures r == LabelKey(labels)
  {
    var keys := SortedKeys(labels.Keys);
    r := "";
    for i := 0 to |keys|
      invariant r == KeyText(Picked(labels, keys[..i]))
    {
      assert keys[..i + 1][..i] == keys[..i];
      KeyTextLast(Picked(labels, keys[..i]), (keys[i], labels[keys[i]]));
      r := r + (keys[i] + NUL + labels[keys[i]] + NUL);
    }
    assert keys[..|keys|] == keys;
  }

  /** A NUL-free word ends at the first NUL. */
  lemma SameWord(a: string, t: string, b: string, u: string)
    requires Clean(a) && Clean(b) && a + NUL + t == b + NUL + u
    ensures a == b && t == u
  {
    var s, s' := a + NUL + t, b + NUL + u;
    assert s[|a|] == '\0' && s'[|b|] == '\0';
    assert forall i :: 0 <= i < |b| ==> s'[i] == b[i];
    assert forall i :: 0 <= i < |a| ==> s[i] == a[i];
    assert |a| == |b|;
    assert a == s[..|a|] && b == s'[..|b|];
    assert t == s[|a| + 1..] && u == s'[|b| + 1..];
  }

  lemma {:induction false} KeyTextInjective(ps: seq<Labelled>, qs: seq<Labelled>)
    requires CleanPairs(ps) && CleanPairs(qs) && KeyText(ps) == KeyText(qs)
    ensures ps == qs
    decreases |ps|
  {
    if ps != [] && qs != [] {
      var p, q := ps[0], qs[0];
      SameWord(p.0, p.1 + NUL + KeyText(ps[1..]), q.0, q.1 + NUL + KeyText(qs[1..]));
      SameWord(p.1, KeyText(ps[1..]), q.1, KeyText(qs[1..]));
      KeyTextInjective(ps[1..], qs[1..]);
      assert ps == [p] + ps[1..] && qs == [q] + qs[1..];
    }
  }

  lemma {:induction false} PickedAt(labels: Labels, names: seq<string>)
    requires forall i :: 0 <= i < |names| ==> names[i] in labels
    ensures |Picked(labels, names)| == |names|
    ensures forall i :: 0 <= i < |names| ==> Picked(labels, names)[i] == (names[i], labels[names[i]])
  {
    if names != [] { PickedAt(labels, names[..|names| - 1]); }
  }

  lemma SortedCovers(labels: Labels)
    ensures forall k :: k in labels <==> (exists i :: 0 <= i < |Sorted(labels)| && Sorted(labels)[i].0 == k)
    ensures forall i :: 0 <= i < |Sorted(labels)| ==> Sorted(labels)[i].0 in labels && Sorted(labels)[i].1 == labels[Sorted(labels)[i].0]
    ensures |Sorted(labels)| == |Ascending(labels.Keys)|
  {
    var names := Ascending(labels.Keys);
    AscendingLists(labels.Keys);
    PickedAt(labels, names);
    forall k ensures k in labels <==> (exists i :: 0 <= i < |Sorted(labels)| && Sorted(labels)[i].0 == k) {
      if k in labels {
        assert k in names;
        var i :| 0 <= i < |names| && names[i] == k;
        assert Sorted(labels)[i].0 == k;
      }
    }
  }

  /** No two NUL-free label sets share a key. */
  lemma LabelKeyInjective(a: Labels, b: Labels)
    requires NulFree(a) && NulFree(b) && LabelKey(a) == LabelKey(b)
    ensures a == b
  {
    SortedCovers(a);
    SortedCovers(b);
    KeyTextInjective(Sorted(a), Sorted(b));
    assert forall k :: k in a <==> k in b;
    forall k | k in a ensures a[k] == b[k] {
      var i :| 0 <= i < |Sorted(a)| && Sorted(a)[i].0 == k;
    }
  }

  // ---------------------------------------------------------------- label sets that collide

  lemma KeyOfOne(k: string, v: string)
    ensures LabelKey(map[k := v]) == k + NUL + v + NUL
  {
    var m := map[k := v];
    assert Lists([k], m.Keys);
    AscendingIs([k], m.Keys);
    assert [k][..0] == [];
    assert Picked(m, [k]) == Picked(m, [k][..0]) + [(k, m[k])];
    assert Sorted(m) == [] + [(k, v)];
    KeyTextLast([], (k, v));
    assert "" + (k + NUL + v + NUL) == k + NUL + v + NUL;
  }

  lemma {:induction false} KeyEndsInNul(ps: seq<Labelled>)
    requires ps != []
    ensures KeyText(ps) != "" && KeyText(ps)[|KeyText(ps)| - 1] == '\0'
  {
    if |ps| > 1 {
      KeyEndsInNul(ps[1..]);
    } else {
      assert ps[1..] == [];
    }
  }

  /** A NUL inside a label makes its set collide with another one. */
  lemma NulCollides(labels: Labels)
    requires !NulFree(labels)
    ensures exists other: Labels :: other != labels && LabelKey(other) == LabelKey(labels)
  {
    SortedCovers(labels);
    var ps := Sorted(labels);
    var bad :| bad in labels && !(Clean(bad) && Clean(labels[bad]));
    var i :| 0 <= i < |ps| && ps[i].0 == bad;
    if |ps| >= 2 {
      ManyCollide(labels, ps);
    } else {
      assert ps == [(bad, labels[bad])];
      OneCollides(labels, bad);
    }
  }

  /** Several pairs read as the value of the first name. */
  lemma ManyCollide(labels: Labels, ps: seq<Labelled>)
    requires ps == Sorted(labels) && |ps| >= 2
    ensures exists other: Labels :: other != labels && LabelKey(other) == LabelKey(labels)
  {
    var rest := KeyText(ps[1..]);
    KeyEndsInNul(ps[1..]);
    var w := rest[..|rest| - 1];
    assert rest == w + NUL;
    var k, v := ps[0].0, ps[0].1 + NUL + w;
    var other: Labels := map[k := v];
    KeyOfOne(k, v);
    assert k + NUL + (ps[0].1 + NUL + (w + NUL)) == k + NUL + (ps[0].1 + NUL + w) + NUL;
    SortedCovers(labels);
    AscendingLists(labels.Keys);
    var names := Ascending(labels.Keys);
    PickedAt(labels, names);
    Trichotomy(names[0], names[1]);
    assert names[1] in labels && names[1] != k;
    assert other != labels;
  }

  /** A NUL in a single pair may as well be the separator. */
  lemma OneCollides(labels: Labels, k: string)
    requires k in labels && !(Clean(k) && Clean(labels[k])) && Sorted(labels) == [(k, labels[k])]
    ensures exists other: Labels :: other != labels && LabelKey(other) == LabelKey(labels)
  {
    var v := labels[k];
    assert [(k, v)] == [] + [(k, v)];
    KeyTextLast([], (k, v));
    assert LabelKey(labels) == k + NUL + v + NUL;
    if !Clean(k) {
      var i :| 0 <= i < |k| && k[i] == '\0';
      var a, b := k[..i], k[i + 1..];
      assert k == a + NUL + b;
      var other: Labels := map[a := b + NUL + v];
      KeyOfOne(a, b + NUL + v);
      assert a + NUL + b + NUL + v + NUL == a + NUL + (b + NUL + v) + NUL;
      assert a in other && |a| != |k|;
      assert k in labels && k !in other;
      assert other != labels;
    } else {
      var i :| 0 <= i < |v| && v[i] == '\0';
      var a, b := v[..i], v[i + 1..];
      assert v == a + NUL + b;
      var other: Labels := map[k + NUL + a := b];
      KeyOfOne(k + NUL + a, b);
      assert k + NUL + (a + NUL + b) + NUL == (k + NUL + a) + NUL + b + NUL;
      assert |k| != |k + NUL + a|;
      assert k in labels && k !in other;
      assert other != labels;
    }
  }

  // ---------------------------------------------------------------- the registry under interleaving

  /** Families by name, and each series' labels by family and key. */
  datatype Store = Store(kinds: map<string, Kind>, series: map<(string, string), Labels>)

  datatype Answer = Missing | Refused | Granted

  /** The read section of `family`. */
  function LookFamily(s: Store, name: string, kind: Kind): (r: Answer) {
    if name !in s.kinds then Missing else if s.kinds[name] == kind then Granted else Refused
  }

  /** The description check and the write section, which looks again before it creates. */
  function InstallFamily(described: map<string, Kind>, s: Store, name: string, kind: Kind): (r: (Store, Answer)) {
    if name in described && described[name] != kind then (s, Refused)
    else if name in s.kinds then (s, LookFamily(s, name, kind))
    else (s.(kinds := s.kinds[name := kind]), Granted)
  }

  /** The write section of `series`, which looks again before it creates. */
  ghost function InstallSeries(s: Store, name: string, labels: Labels): (r: Store) {
    var key := (name, LabelKey(labels));
    if key in s.series then s else s.(series := s.series[key := labels])
  }

  /** A write section some caller executes. */
  datatype Section = FamilySection(name: string, kind: Kind) | SeriesSection(name: string, labels: Labels)

  ghost function Ran(described: map<string, Kind>, s: Store, sections: seq<Section>): (r: Store)
    decreases |sections|
  {
    if sections == [] then s
    else match sections[0]
      case FamilySection(name, kind) => Ran(described, InstallFamily(described, s, name, kind).0, sections[1..])
      case SeriesSection(name, labels) => Ran(described, InstallSeries(s, name, labels), sections[1..])
  }

  /** What there is stays: a name keeps its kind and a key its labels. */
  ghost predicate Grows(s: Store, t: Store) {
    && (forall n :: n in s.kinds ==> n in t.kinds && t.kinds[n] == s.kinds[n])
    && (forall k :: k in s.series ==> k in t.series && t.series[k] == s.series[k])
  }

  /** Over every run, a name keeps one kind and a key one label set for life. */
  lemma {:induction false} KindForLife(described: map<string, Kind>, s: Store, sections: seq<Section>)
    ensures Grows(s, Ran(described, s, sections))
    decreases |sections|
  {
    if sections != [] {
      match sections[0]
      case FamilySection(name, kind) => KindForLife(described, InstallFamily(described, s, name, kind).0, sections[1..]);
      case SeriesSection(name, labels) => KindForLife(described, InstallSeries(s, name, labels), sections[1..]);
    }
  }

  /** The answer of a call whose sections see the stores `before` and `after`. */
  function Asked(described: map<string, Kind>, before: Store, after: Store, name: string, kind: Kind): (r: (Store, Answer)) {
    var seen := LookFamily(before, name, kind);
    if seen != Missing then (after, seen) else InstallFamily(described, after, name, kind)
  }

  /** Described names only ever get their described kind. */
  ghost predicate Honest(described: map<string, Kind>, s: Store) {
    forall n :: n in s.kinds && n in described ==> s.kinds[n] == described[n]
  }

  /** Whatever other callers do between the two sections, the call answers and leaves
      the store as if it had run in one piece at its end. */
  lemma CallsAreAtomic(described: map<string, Kind>, before: Store, others: seq<Section>, name: string, kind: Kind)
    requires Honest(described, before)
    ensures var after := Ran(described, before, others);
      Asked(described, before, after, name, kind) == InstallFamily(described, after, name, kind)
  {
    KindForLife(described, before, others);
  }

  /** The index is kept by label set. */
  ghost predicate Indexed(s: Store) {
    forall k :: k in s.series ==> k.1 == LabelKey(s.series[k])
  }

  lemma {:induction false} StaysIndexed(described: map<string, Kind>, s: Store, sections: seq<Section>)
    requires Indexed(s) && Honest(described, s)
    ensures var t := Ran(described, s, sections); Indexed(t) && Honest(described, t)
    decreases |sections|
  {
    if sections != [] {
      match sections[0]
      case FamilySection(name, kind) => StaysIndexed(described, InstallFamily(described, s, name, kind).0, sections[1..]);
      case SeriesSection(name, labels) => StaysIndexed(described, InstallSeries(s, name, labels), sections[1..]);
    }
  }

  const EMPTY := Store(map[], map[])

  /** Every label set a caller passes is free of NUL. */
  ghost predicate CleanCalls(sections: seq<Section>) {
    forall i :: 0 <= i < |sections| && sections[i].SeriesSection? ==> NulFree(sections[i].labels)
  }

  ghost predicate CleanStore(s: Store) { forall k :: k in s.series ==> NulFree(s.series[k]) }

  lemma {:induction false} StaysClean(described: map<string, Kind>, s: Store, sections: seq<Section>)
    requires CleanStore(s) && CleanCalls(sections)
    ensures CleanStore(Ran(described, s, sections))
    decreases |sections|
  {
    if sections != [] {
      match sections[0]
      case FamilySection(name, kind) => StaysClean(described, InstallFamily(described, s, name, kind).0, sections[1..]);
      case SeriesSection(name, labels) => StaysClean(described, InstallSeries(s, name, labels), sections[1..]);
    }
  }

  lemma OwnSeries(s: Store, name: string, labels: Labels)
    requires Indexed(s) && CleanStore(s) && NulFree(labels)
    ensures InstallSeries(s, name, labels).series[(name, LabelKey(labels))] == labels
    ensures (name, LabelKey(labels)) in s.series ==> s.series[(name, LabelKey(labels))] == labels
  {
    var key := (name, LabelKey(labels));
    if key in s.series { LabelKeyInjective(s.series[key], labels); }
  }

  /** The index is a map by label set: after every run of callers whose labels hold no NUL,
      a series asked for is the series of exactly the labels asked for, whether it is found
      or created, and it still is after any further such run. */
  lemma SeriesOfTheseLabels(described: map<string, Kind>, sections: seq<Section>, name: string, labels: Labels, later: seq<Section>)
    requires CleanCalls(sections) && NulFree(labels)
    ensures var s := Ran(described, EMPTY, sections);
      var t := InstallSeries(s, name, labels);
      var key := (name, LabelKey(labels));
      && (key in s.series ==> s.series[key] == labels)
      && t.series[key] == labels
      && key in Ran(described, t, later).series && Ran(described, t, later).series[key] == labels
  {
    var s := Ran(described, EMPTY, sections);
    StaysIndexed(described, EMPTY, sections);
    StaysClean(described, EMPTY, sections);
    OwnSeries(s, name, labels);
    KindForLife(described, InstallSeries(s, name, labels), later);
  }

  // ---------------------------------------------------------------- the order of an exposition

  /** A family's series stand under the keys of their labels. */
  ghost predicate Keyed<F(!new)>(f: Family<F>) {
    forall k :: k in f.entries ==> k == LabelKey(f.entries[k].labels)
  }

  /** `fs` holds values for exactly the series of a store. */
  ghost predicate Holds<F(!new)>(fs: Families<F>, s: Store) {
    && (forall n, k :: n in fs && k in fs[n].entries ==> (n, k) in s.series && s.series[(n, k)] == fs[n].entries[k].labels)
    && (forall p :: p in s.series ==> p.0 in fs && p.1 in fs[p.0].entries)
  }

  /** The families a registry renders, after any run of its callers, are keyed by label. */
  lemma RenderedAreKeyed<F(!new)>(described: map<string, Kind>, sections: seq<Section>, fs: Families<F>, n: string)
    requires Holds(fs, Ran(described, EMPTY, sections)) && n in fs
    ensures Keyed(fs[n])
  {
    StaysIndexed(described, EMPTY, sections);
  }

  /** `order` is every series of the family once, by ascending sort key: what snapshot
      makes of the entries. */
  ghost predicate IsSnapshot<F(!new)>(order: seq<Series<F>>, f: Family<F>) {
    && (forall i, j :: 0 <= i < j < |order| ==> Less(LabelKey(order[i].labels), LabelKey(order[j].labels)))
    && (forall i :: 0 <= i < |order| ==> LabelKey(order[i].labels) in f.entries && f.entries[LabelKey(order[i].labels)] == order[i])
    && (forall k :: k in f.entries ==> f.entries[k] in order)
  }

  ghost function KeysOf<F>(order: seq<Series<F>>): (r: seq<string>)
    ensures |r| == |order| && forall i :: 0 <= i < |r| ==> r[i] == LabelKey(order[i].labels)
  {
    seq(|order|, i requires 0 <= i < |order| => LabelKey(order[i].labels))
  }

  /** Sorting the series by their sort keys is walking the entries by their keys: there is
      one such order, and it is the one that is rendered. */
  lemma SnapshotIsKeyOrder<F(!new)>(order: seq<Series<F>>, f: Family<F>)
    requires Keyed(f) && IsSnapshot(order, f)
    ensures KeysOf(order) == Ascending(f.entries.Keys)
    ensures forall i :: 0 <= i < |order| ==> order[i] == f.entries[Ascending(f.entries.Keys)[i]]
  {
    var keys := KeysOf(order);
    forall k ensures k in f.entries.Keys <==> k in keys {
      if k in f.entries {
        var i :| 0 <= i < |order| && order[i] == f.entries[k];
        assert keys[i] == k;
      }
    }
    assert Lists(keys, f.entries.Keys);
    AscendingIs(keys, f.entries.Keys);
  }
}
