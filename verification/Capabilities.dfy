/**
 Capability evidence: Merge, Intersect and Require of common/runtime/capability.go,
 and the model capabilities of common/runtime/ollama/runtime.go, over the closed
 vocabularies of levels and sources.
 */
module Capabilities {
  import opened Options

  /** The closed vocabulary; the capabilities nothing here depends on are numbered. */
  datatype Capability = Chat | ChatStream | Completions | Embeddings | Vision | Tools | Reasoning | OtherCapability(number: nat)
  datatype Level = Unknown | Supported | Unsupported
  datatype Source = RuntimeProfile | ModelMetadata | Endpoint | ConfigOverride
  datatype Evidence = Evidence(level: Level, source: Source, detail: string)
  type CapabilitySet = map<Capability, Evidence>

  function Priority(s: Source): (r: nat) {
    match s case ConfigOverride => 4 case Endpoint => 3 case ModelMetadata => 2 case RuntimeProfile => 1
  }

  /** Unsupported beats supported beats unknown. */
  function LevelRank(l: Level): (r: nat) { match l case Unsupported => 2 case Supported => 1 case Unknown => 0 }

  function LevelOf(s: CapabilitySet, c: Capability): (r: Level) { if c in s then s[c].level else Unknown }

  datatype Verdict = Granted | RefusedUnsupported | RefusedUnknown

  function Require(s: CapabilitySet, c: Capability): (r: Verdict) {
    match LevelOf(s, c) case Supported => Granted case Unsupported => RefusedUnsupported case Unknown => RefusedUnknown
  }

  // ---------------------------------------------------------------- merging

  /** `conflict` writes the detail of a conflict. */
  function ResolveConflict(conflict: (Evidence, Evidence) -> string, a: Evidence, b: Evidence): (r: Evidence) {
    if a.level == b.level then a
    else (if LevelRank(b.level) > LevelRank(a.level) then b else a).(detail := conflict(a, b))
  }

  function Stronger(conflict: (Evidence, Evidence) -> string, cur: Evidence, ev: Evidence): (r: Evidence) {
    if Priority(ev.source) > Priority(cur.source) then ev
    else if Priority(ev.source) < Priority(cur.source) then cur
    else ResolveConflict(conflict, cur, ev)
  }

  /** What the first `i` sets say about one capability. */
  function Said(conflict: (Evidence, Evidence) -> string, sets: seq<CapabilitySet>, c: Capability, i: nat): (r: Option<Evidence>)
    requires i <= |sets|
  {
    if i == 0 then None
    else
      var before := Said(conflict, sets, c, i - 1);
      if c !in sets[i - 1] then before
      else if before.None? then Some(sets[i - 1][c])
      else Some(Stronger(conflict, before.value, sets[i - 1][c]))
  }

  /** `merged` holds what the first `i` sets say, and nothing else. */
  ghost predicate Holds(conflict: (Evidence, Evidence) -> string, merged: CapabilitySet, sets: seq<CapabilitySet>, i: nat)
    requires i <= |sets|
  {
    forall c :: (if c in merged then Some(merged[c]) else None) == Said(conflict, sets, c, i)
  }

  /** Two loops: over the sets, and over each set's entries in whatever order the map
      yields them. */
  method Merge(conflict: (Evidence, Evidence) -> string, sets: seq<CapabilitySet>) returns (merged: CapabilitySet)
    ensures Holds(conflict, merged, sets, |sets|)
  {
    merged := map[];
    for i := 0 to |sets|
      invariant Holds(conflict, merged, sets, i)
    {
      merged := MergeOne(conflict, merged, sets[i]);
    }
  }

  function Both(conflict: (Evidence, Evidence) -> string, a: CapabilitySet, b: CapabilitySet, c: Capability): (r: Option<Evidence>) {
    if c in a && c in b then Some(Stronger(conflict, a[c], b[c]))
    else if c in b then Some(b[c]) else if c in a then Some(a[c]) else None
  }

  method MergeOne(conflict: (Evidence, Evidence) -> string, before: CapabilitySet, more: CapabilitySet) returns (merged: CapabilitySet)
    ensures forall c :: (if c in merged then Some(merged[c]) else None) == Both(conflict, before, more, c)
  {
    merged := before;
    var rank := map c | c in before :: Priority(before[c].source);
    var todo := more.Keys;
    while todo != {}
      invariant todo <= more.Keys && rank.Keys == merged.Keys
      invariant forall c :: c in merged ==> rank[c] == Priority(merged[c].source)
      invariant forall c :: c !in todo ==> (if c in merged then Some(merged[c]) else None) == Both(conflict, before, more, c)
      invariant forall c :: c in todo ==> (c in merged <==> c in before) && (c in before ==> merged[c] == before[c])
      decreases |todo|
    {
      var c :| c in todo;
      todo := todo - {c};
      var ev := more[c];
      if c !in merged {
        merged, rank := merged[c := ev], rank[c := Priority(ev.source)];
      } else if Priority(ev.source) > rank[c] {
        merged, rank := merged[c := ev], rank[c := Priority(ev.source)];
      } else if Priority(ev.source) == rank[c] {
        merged := merged[c := ResolveConflict(conflict, merged[c], ev)];
      }
    }
  }

  // ---------------------------------------------------------------- the maximum

  /** Source priority first, then the conservative level. */
  function Strength(e: Evidence): (r: nat) { 3 * Priority(e.source) + LevelRank(e.level) }

  lemma StrengthDecides(a: Evidence, b: Evidence)
    requires Strength(a) == Strength(b)
    ensures a.source == b.source && a.level == b.level
  {
  }

  /** Configuration before the endpoint's own answer, before the model's metadata, before the
      profile; and unsupported before supported before unknown. */
  lemma Precedence(a: Evidence, b: Evidence)
    ensures a.source == ConfigOverride && b.source == Endpoint ==> Strength(a) > Strength(b)
    ensures a.source == Endpoint && b.source == ModelMetadata ==> Strength(a) > Strength(b)
    ensures a.source == ModelMetadata && b.source == RuntimeProfile ==> Strength(a) > Strength(b)
    ensures a.source == b.source && a.level == Unsupported && b.level == Supported ==> Strength(a) > Strength(b)
    ensures a.source == b.source && a.level == Supported && b.level == Unknown ==> Strength(a) > Strength(b)
  {
  }

  /** `m` is the greatest strength the first `i` sets give `c`; -1 when they give none. */
  ghost predicate IsMax(sets: seq<CapabilitySet>, c: Capability, i: nat, m: int)
    requires i <= |sets|
  {
    && (forall j :: 0 <= j < i && c in sets[j] ==> Strength(sets[j][c]) <= m)
    && (m == -1 || exists j :: 0 <= j < i && c in sets[j] && Strength(sets[j][c]) == m)
  }

  function StrengthOf(e: Option<Evidence>): (r: int) { if e.None? then -1 else Strength(e.value) }

  /** Merging keeps for every capability the lexicographic maximum of source and level. */
  lemma {:induction false} MergeIsMaximum(conflict: (Evidence, Evidence) -> string, sets: seq<CapabilitySet>, c: Capability, i: nat)
    requires i <= |sets|
    ensures IsMax(sets, c, i, StrengthOf(Said(conflict, sets, c, i)))
  {
    if i > 0 {
      MergeIsMaximum(conflict, sets, c, i - 1);
      var before, m := Said(conflict, sets, c, i - 1), StrengthOf(Said(conflict, sets, c, i));
      if c in sets[i - 1] && m == Strength(sets[i - 1][c]) {
        assert 0 <= i - 1 < i && c in sets[i - 1] && Strength(sets[i - 1][c]) == m;
      } else if before.Some? {
        var j :| 0 <= j < i - 1 && c in sets[j] && Strength(sets[j][c]) == Strength(before.value);
        assert 0 <= j < i && Strength(sets[j][c]) == m;
      }
    }
  }

  /** `c` has evidence of this source and level in some set. */
  ghost predicate Claims(sets: seq<CapabilitySet>, c: Capability, source: Source, level: Level) {
    exists j :: 0 <= j < |sets| && c in sets[j] && sets[j][c].source == source && sets[j][c].level == level
  }

  /** Configuration decides wherever it speaks, and a single refusal in it is a refusal:
      no probe, metadata or profile can turn either around. */
  lemma OverridesDecide(conflict: (Evidence, Evidence) -> string, sets: seq<CapabilitySet>, c: Capability, level: Level)
    requires Claims(sets, c, ConfigOverride, level)
    ensures var r := Said(conflict, sets, c, |sets|);
      && r.Some? && r.value.source == ConfigOverride
      && (r.value.level == Unsupported <==> Claims(sets, c, ConfigOverride, Unsupported))
      && (r.value.level == Supported ==> Claims(sets, c, ConfigOverride, Supported))
  {
    MergeIsMaximum(conflict, sets, c, |sets|);
    var r := Said(conflict, sets, c, |sets|);
    var j :| 0 <= j < |sets| && c in sets[j] && sets[j][c].source == ConfigOverride && sets[j][c].level == level;
    assert Strength(sets[j][c]) <= StrengthOf(r);
    var k :| 0 <= k < |sets| && c in sets[k] && Strength(sets[k][c]) == StrengthOf(r);
    StrengthDecides(sets[k][c], r.value);
    if Claims(sets, c, ConfigOverride, Unsupported) {
      var m :| 0 <= m < |sets| && c in sets[m] && sets[m][c].source == ConfigOverride && sets[m][c].level == Unsupported;
      assert Strength(sets[m][c]) <= StrengthOf(r);
    }
  }

  /** Every set of one list occurs in the other. */
  ghost predicate SameSets(a: seq<CapabilitySet>, b: seq<CapabilitySet>) { forall s :: s in a <==> s in b }

  /** A merged set grants, refuses and attributes as another. */
  ghost predicate SameOutcome(a: Option<Evidence>, b: Option<Evidence>) {
    a.Some? == b.Some? && (a.Some? ==> a.value.level == b.value.level && a.value.source == b.value.source)
  }

  /** The order of the sets, and repeating one, change no source, level or verdict. */
  lemma OrderDoesNotMatter(conflict: (Evidence, Evidence) -> string, a: seq<CapabilitySet>, b: seq<CapabilitySet>, c: Capability)
    requires SameSets(a, b)
    ensures SameOutcome(Said(conflict, a, c, |a|), Said(conflict, b, c, |b|))
  {
    var x, y := Said(conflict, a, c, |a|), Said(conflict, b, c, |b|);
    MergeIsMaximum(conflict, a, c, |a|);
    MergeIsMaximum(conflict, b, c, |b|);
    NotAbove(a, b, c, StrengthOf(x), StrengthOf(y));
    NotAbove(b, a, c, StrengthOf(y), StrengthOf(x));
    if x.Some? && y.Some? { StrengthDecides(x.value, y.value); }
  }

  lemma NotAbove(a: seq<CapabilitySet>, b: seq<CapabilitySet>, c: Capability, x: int, y: int)
    requires SameSets(a, b) && IsMax(a, c, |a|, x) && IsMax(b, c, |b|, y) && y >= -1
    ensures x <= y
  {
    if x != -1 {
      var j :| 0 <= j < |a| && c in a[j] && Strength(a[j][c]) == x;
      assert a[j] in b;
      var k :| 0 <= k < |b| && b[k] == a[j];
    }
  }

  /** Merging in groups and merging the groups comes to the same. */
  lemma GroupingDoesNotMatter(conflict: (Evidence, Evidence) -> string, xs: seq<CapabilitySet>, ys: seq<CapabilitySet>,
                              mx: CapabilitySet, my: CapabilitySet, c: Capability)
    requires Holds(conflict, mx, xs, |xs|) && Holds(conflict, my, ys, |ys|)
    ensures SameOutcome(Said(conflict, [mx, my], c, 2), Said(conflict, xs + ys, c, |xs + ys|))
  {
    var sx, sy := Said(conflict, xs, c, |xs|), Said(conflict, ys, c, |ys|);
    var a, b := Said(conflict, [mx, my], c, 2), Said(conflict, xs + ys, c, |xs + ys|);
    MergeIsMaximum(conflict, xs, c, |xs|);
    MergeIsMaximum(conflict, ys, c, |ys|);
    MergeIsMaximum(conflict, xs + ys, c, |xs + ys|);
    MergeIsMaximum(conflict, [mx, my], c, 2);
    TwoMaxima([mx, my], c, StrengthOf(a), StrengthOf(sx), StrengthOf(sy));
    JoinedMaxima(xs, ys, c, StrengthOf(b), StrengthOf(sx), StrengthOf(sy));
    if a.Some? && b.Some? { StrengthDecides(a.value, b.value); }
  }

  lemma TwoMaxima(sets: seq<CapabilitySet>, c: Capability, m: int, x: int, y: int)
    requires |sets| == 2 && IsMax(sets, c, 2, m) && m >= -1
    requires x == (if c in sets[0] then Strength(sets[0][c]) else -1)
    requires y == (if c in sets[1] then Strength(sets[1][c]) else -1)
    ensures m == if x >= y then x else y
  {
  }

  lemma JoinedMaxima(xs: seq<CapabilitySet>, ys: seq<CapabilitySet>, c: Capability, m: int, x: int, y: int)
    requires IsMax(xs + ys, c, |xs + ys|, m) && IsMax(xs, c, |xs|, x) && IsMax(ys, c, |ys|, y) && m >= -1 && x >= -1 && y >= -1
    ensures m == if x >= y then x else y
  {
    var all := xs + ys;
    if x != -1 {
      var j :| 0 <= j < |xs| && c in xs[j] && Strength(xs[j][c]) == x;
      assert all[j] == xs[j];
    }
    if y != -1 {
      var j :| 0 <= j < |ys| && c in ys[j] && Strength(ys[j][c]) == y;
      assert all[|xs| + j] == ys[j];
    }
    if m != -1 {
      var j :| 0 <= j < |all| && c in all[j] && Strength(all[j][c]) == m;
      if j < |xs| { assert xs[j] == all[j]; } else { assert ys[j - |xs|] == all[j]; }
    }
  }

  // ---------------------------------------------------------------- intersecting

  function Look(s: CapabilitySet, c: Capability): (r: Option<Evidence>) { if c in s then Some(s[c]) else None }

  /** The evidence both sides together give. */
  function Met(runtime: CapabilitySet, model: CapabilitySet, c: Capability): (r: Option<Evidence>) {
    if c in model && !(c in runtime && runtime[c].level == Unsupported) then Some(model[c]) else Look(runtime, c)
  }

  /** `result` is the intersection, capability by capability. */
  ghost predicate Intersects(result: CapabilitySet, runtime: CapabilitySet, model: CapabilitySet) {
    forall c :: Look(result, c) == Met(runtime, model, c)
  }

  method Intersect(runtime: CapabilitySet, model: CapabilitySet) returns (result: CapabilitySet)
    ensures Intersects(result, runtime, model)
  {
    result := FromModel(runtime, model);
    var todo := runtime.Keys;
    while todo != {}
      invariant todo <= runtime.Keys
      invariant forall c :: Look(result, c) == if c in todo && c !in model then None else Met(runtime, model, c)
      decreases |todo|
    {
      var c :| c in todo;
      todo := todo - {c};
      assert Look(result, c) == if c !in model then None else Met(runtime, model, c);
      if c !in result {
        result := result[c := runtime[c]];
      }
    }
  }

  /** The first loop: the model's evidence, unless the runtime rules it out. */
  method FromModel(runtime: CapabilitySet, model: CapabilitySet) returns (result: CapabilitySet)
    ensures forall c :: Look(result, c) == if c in model then Met(runtime, model, c) else None
  {
    result := map[];
    var todo := model.Keys;
    while todo != {}
      invariant todo <= model.Keys
      invariant forall c :: Look(result, c) == if c in model && c !in todo then Met(runtime, model, c) else None
      decreases |todo|
    {
      var c :| c in todo;
      todo := todo - {c};
      result := result[c := if c in runtime && runtime[c].level == Unsupported then runtime[c] else model[c]];
    }
  }

  /** What either side rules out stays ruled out, and nothing is granted that the model,
      or in its silence the runtime, does not support. */
  lemma IntersectNeverGrantsMore(runtime: CapabilitySet, model: CapabilitySet, result: CapabilitySet, c: Capability)
    requires Intersects(result, runtime, model)
    ensures LevelOf(runtime, c) == Unsupported || LevelOf(model, c) == Unsupported
            ==> Require(result, c) == RefusedUnsupported
    ensures Require(result, c) == Granted
            <==> LevelOf(runtime, c) != Unsupported && (if c in model then LevelOf(model, c) == Supported else LevelOf(runtime, c) == Supported)
  {
    assert Look(result, c) == Met(runtime, model, c);
  }

  // ---------------------------------------------------------------- Ollama models

  /** What one word of a model's capability list stands for. */
  function Mapped(word: string): (r: set<Capability>) {
    match word
    case "completion" => {Chat, ChatStream, Completions}
    case "tools" => {Tools}
    case "vision" => {Vision}
    case "thinking" => {Reasoning}
    case "embedding" => {Embeddings}
    case _ => {}
  }

  const MAPPED: set<Capability> := {Chat, ChatStream, Completions, Embeddings, Vision, Tools, Reasoning}

  function Reported(words: seq<string>): (r: set<Capability>) {
    if words == [] then {} else Reported(words[..|words| - 1]) + Mapped(words[|words| - 1])
  }

  /** The list is exhaustive: what it does not report is unsupported. */
  function ModelCapabilities(words: seq<string>, source: Source, detail: string): (r: CapabilitySet) {
    map c | c in MAPPED :: Evidence(if c in Reported(words) then Supported else Unsupported, source, detail)
  }

  lemma {:induction false} EmbeddingReported(words: seq<string>)
    ensures Embeddings in Reported(words) <==> "embedding" in words
  {
    if words != [] {
      var front, last := words[..|words| - 1], words[|words| - 1];
      EmbeddingReported(front);
      assert words == front + [last];
      assert Embeddings in Mapped(last) <==> last == "embedding";
    }
  }

  /** What each word of the list grants, and what grants each capability. */
  lemma {:induction false} WordsGrant(words: seq<string>)
    ensures Chat in Reported(words) <==> "completion" in words
    ensures ChatStream in Reported(words) <==> "completion" in words
    ensures Completions in Reported(words) <==> "completion" in words
    ensures Tools in Reported(words) <==> "tools" in words
    ensures Vision in Reported(words) <==> "vision" in words
    ensures Reasoning in Reported(words) <==> "thinking" in words
    ensures Reported(words) <= MAPPED
  {
    if words != [] {
      var front, last := words[..|words| - 1], words[|words| - 1];
      WordsGrant(front);
      assert words == front + [last];
      OneWord(last);
    }
  }

  lemma OneWord(word: string)
    ensures Chat in Mapped(word) <==> word == "completion"
    ensures ChatStream in Mapped(word) <==> word == "completion"
    ensures Completions in Mapped(word) <==> word == "completion"
    ensures Tools in Mapped(word) <==> word == "tools"
    ensures Vision in Mapped(word) <==> word == "vision"
    ensures Reasoning in Mapped(word) <==> word == "thinking"
    ensures Mapped(word) <= MAPPED
  {
  }

  /** An Ollama model passes the embeddings gate exactly when it reports embeddings and
      the runtime does not rule them out, whatever profile and overrides say otherwise. */
  lemma EmbeddingsGate(conflict: (Evidence, Evidence) -> string, profile: CapabilitySet, overrides: CapabilitySet, merged: CapabilitySet,
                       words: seq<string>, source: Source, detail: string, result: CapabilitySet)
    requires Holds(conflict, merged, [profile, overrides], 2)
    requires Intersects(result, merged, ModelCapabilities(words, source, detail))
    ensures Require(result, Embeddings) == Granted
            <==> "embedding" in words && LevelOf(merged, Embeddings) != Unsupported
    ensures "embedding" !in words
            ==> Require(result, Embeddings) == RefusedUnsupported
  {
    EmbeddingReported(words);
    IntersectNeverGrantsMore(merged, ModelCapabilities(words, source, detail), result, Embeddings);
  }
}
