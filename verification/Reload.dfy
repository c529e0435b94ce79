/**
 The configuration reconciler of service/aiServeWeaveAgent/reload.go and the
 declarations it keeps in service/aiServeWeaveAgent/registry.go. `Reconcile` says
 what one reload does to the manager and to the list of applied runtimes when
 any of the manager's calls may fail.
 */
module Reload {
  import opened Options

  datatype Kind = LocalCLI(name: string) | Hosted(name: string) | SelfHosted(name: string)

  /** A runtime's configuration. `valid` is what Normalize and Validate say of it,
      `settings` stands for every other field. */
  datatype Config = Config(id: string, kind: Kind, allowUnavailable: bool, valid: bool, settings: string) {
    predicate NeedsDeclaration() { kind.LocalCLI? || kind.Hosted? }
  }

  // ---------------------------------------------------------------- the manager, as seen from here

  datatype Call = Added(cfg: Config) | Replaced(cfg: Config) | Removed(id: string)

  /** What is running, the calls made so far, and which calls fail. */
  datatype Fleet = Fleet(running: map<string, Config>, calls: seq<Call>, fails: nat -> bool)

  datatype Outcome = Done | NotFound | Failed

  /** Remove takes the instance out of the table before it can fail. */
  function Evict(f: Fleet, id: string): (r: (Fleet, Outcome)) {
    var f' := f.(running := f.running - {id}, calls := f.calls + [Removed(id)]);
    (f', if id !in f.running then NotFound else if f.fails(|f.calls|) then Failed else Done)
  }

  /** Add and Replace leave the table as it was when they fail. */
  function Install(f: Fleet, cfg: Config): (r: (Fleet, Outcome)) {
    var call := if cfg.id in f.running then Replaced(cfg) else Added(cfg);
    var running := if f.fails(|f.calls|) then f.running else f.running[cfg.id := cfg];
    (f.(running := running, calls := f.calls + [call]), if f.fails(|f.calls|) then Failed else Done)
  }

  // ---------------------------------------------------------------- one reload

  datatype Changes = Changes(added: seq<string>, replaced: seq<string>, removed: seq<string>, failed: seq<string>)

  datatype Progress = Progress(fleet: Fleet, applied: seq<Config>, changes: Changes)

  function Ids(list: seq<Config>): (r: set<string>) { set c | c in list :: c.id }

  /** The last configuration listed under each id. */
  function ById(list: seq<Config>): (r: map<string, Config>) {
    if list == [] then map[] else ById(list[..|list| - 1])[list[|list| - 1].id := list[|list| - 1]]
  }

  /** One runtime that was applied before and may be wanted no more. */
  function Retire(p: Progress, c: Config, wanted: set<string>): (r: Progress) {
    if c.id in wanted then p
    else
      var (fleet, outcome) := Evict(p.fleet, c.id);
      if outcome.Failed? then
        Progress(fleet, p.applied + [c], p.changes.(failed := p.changes.failed + [c.id]))
      else Progress(fleet, p.applied, p.changes.(removed := p.changes.removed + [c.id]))
  }

  /** One wanted runtime. */
  function Adopt(p: Progress, c: Config, previous: map<string, Config>): (r: Progress) {
    if c.id in previous && previous[c.id] == c then p.(applied := p.applied + [c])
    else
      var running := c.id in p.fleet.running;
      var (fleet, outcome) := Install(p.fleet, c.(allowUnavailable := true));
      if outcome.Failed? then
        Progress(fleet, if c.id in previous then p.applied + [previous[c.id]] else p.applied,
                 p.changes.(failed := p.changes.failed + [c.id]))
      else
        Progress(fleet, p.applied + [c.(allowUnavailable := false)],
                 if running then p.changes.(replaced := p.changes.replaced + [c.id])
                 else p.changes.(added := p.changes.added + [c.id]))
  }

  function RetireAll(p: Progress, list: seq<Config>, wanted: set<string>): (r: Progress) {
    if list == [] then p else Retire(RetireAll(p, list[..|list| - 1], wanted), list[|list| - 1], wanted)
  }

  function AdoptAll(p: Progress, list: seq<Config>, previous: map<string, Config>): (r: Progress) {
    if list == [] then p else Adopt(AdoptAll(p, list[..|list| - 1], previous), list[|list| - 1], previous)
  }

  const NO_CHANGES := Changes([], [], [], [])

  function Reconcile(fleet: Fleet, current: seq<Config>, next: seq<Config>): (r: Progress) {
    AdoptAll(RetireAll(Progress(fleet, [], NO_CHANGES), current, Ids(next)), next, ById(current))
  }

  // ---------------------------------------------------------------- what is wanted

  ghost predicate DistinctIds(list: seq<Config>) {
    forall i, j :: 0 <= i < j < |list| ==> list[i].id != list[j].id
  }

  datatype Wanted = Wanted(next: seq<Config>, conflicts: seq<string>, invalid: seq<string>)

  /** Local declarations first, then every provisioned runtime that is valid and
      whose id nothing before it uses. */
  function Offer(w: Wanted, c: Config): (r: Wanted) {
    if c.id in Ids(w.next) then w.(conflicts := w.conflicts + [c.id])
    else if !c.valid then w.(invalid := w.invalid + [c.id])
    else w.(next := w.next + [c])
  }

  function OfferAll(local: seq<Config>, remote: seq<Config>): (r: Wanted) {
    if remote == [] then Wanted(local, [], [])
    else Offer(OfferAll(local, remote[..|remote| - 1]), remote[|remote| - 1])
  }

  lemma {:induction false} WantedIsDistinct(local: seq<Config>, remote: seq<Config>)
    requires DistinctIds(local)
    ensures DistinctIds(OfferAll(local, remote).next)
    ensures local <= OfferAll(local, remote).next
    ensures forall c :: c in OfferAll(local, remote).next ==> c in local || (c in remote && c.valid)
    ensures forall c :: c in remote && c.valid ==> c.id in Ids(OfferAll(local, remote).next)
  {
    if remote != [] {
      var front, c := remote[..|remote| - 1], remote[|remote| - 1];
      WantedIsDistinct(local, front);
      var w := OfferAll(local, front);
      assert c.id !in Ids(w.next) ==> forall i :: 0 <= i < |w.next| ==> w.next[i] in w.next && w.next[i].id != c.id;
      assert forall d :: d in remote ==> d in front || d == c;
      assert Ids(w.next) <= Ids(Offer(w, c).next);
    }
  }

  // ---------------------------------------------------------------- retiring

  function At(m: map<string, Config>, id: string): (r: Option<Config>) {
    if id in m then Some(m[id]) else None
  }

  lemma Snoc(list: seq<Config>)
    requires list != []
    ensures var front, c := list[..|list| - 1], list[|list| - 1];
      && list == front + [c]
      && Ids(list) == Ids(front) + {c.id}
      && (forall d :: d in list <==> d in front || d == c)
      && (DistinctIds(list) ==> DistinctIds(front) && c.id !in Ids(front))
  {
    var front, c := list[..|list| - 1], list[|list| - 1];
    assert list == front + [c];
    assert forall d :: d in front ==> exists i :: 0 <= i < |front| && list[i] == d;
  }

  lemma {:induction false} ByIdSpec(list: seq<Config>)
    requires DistinctIds(list)
    ensures ById(list).Keys == Ids(list)
    ensures forall c :: c in list ==> ById(list)[c.id] == c
    ensures forall id :: id in ById(list) ==> ById(list)[id].id == id && ById(list)[id] in list
  {
    if list != [] {
      Snoc(list);
      ByIdSpec(list[..|list| - 1]);
    }
  }

  /** Retiring takes exactly the unwanted ids out of the table, even when a Remove
      fails, and keeps on the list exactly those whose Remove failed. */
  lemma {:induction false} RetireAllSpec(p: Progress, list: seq<Config>, wanted: set<string>)
    requires DistinctIds(list) && p.applied == [] && p.changes.failed == []
    ensures var r := RetireAll(p, list, wanted);
      && r.fleet.running == p.fleet.running - (Ids(list) - wanted)
      && r.fleet.fails == p.fleet.fails
      && DistinctIds(r.applied)
      && (forall c :: c in r.applied <==> c in list && c.id !in wanted && c.id in r.changes.failed)
      && (forall id :: id in r.changes.failed ==> id in Ids(list) - wanted && id in p.fleet.running)
      && (r.changes.failed == [] ==> r.applied == [])
      && (Ids(list) <= wanted ==> r == p)
  {
    if list != [] {
      var front, c := list[..|list| - 1], list[|list| - 1];
      Snoc(list);
      RetireAllSpec(p, front, wanted);
      var q := RetireAll(p, front, wanted);
      RetireOne(q, front, c, wanted);
      assert (p.fleet.running - (Ids(front) - wanted)) - {c.id} == p.fleet.running - (Ids(front) + {c.id} - wanted) || c.id in wanted;
    }
  }

  lemma RetireOne(q: Progress, front: seq<Config>, c: Config, wanted: set<string>)
    requires c.id !in Ids(front) && DistinctIds(q.applied)
    requires forall d :: d in q.applied <==> d in front && d.id !in wanted && d.id in q.changes.failed
    requires forall id :: id in q.changes.failed ==> id in Ids(front)
    ensures var r := Retire(q, c, wanted);
      && DistinctIds(r.applied)
      && (forall d :: d in r.applied <==> (d in front || d == c) && d.id !in wanted && d.id in r.changes.failed)
      && (forall id :: id in r.changes.failed <==> id in q.changes.failed || (id == c.id && c.id !in wanted && Evict(q.fleet, c.id).1.Failed?))
  {
    forall d | d in q.applied ensures d.id != c.id { assert d.id in Ids(front); }
    forall i | 0 <= i < |q.applied| ensures q.applied[i].id != c.id { assert q.applied[i] in q.applied; }
    assert forall d :: d in front ==> d.id != c.id by {
      forall d | d in front ensures d.id != c.id { assert d.id in Ids(front); }
    }
  }

  // ---------------------------------------------------------------- adopting

  /** What one wanted runtime comes to: kept, refused with the old one in place, or
      running as wanted. */
  ghost predicate Settled(p: Progress, r: Progress, c: Config, previous: map<string, Config>) {
    if c.id in previous && previous[c.id] == c then
      At(r.fleet.running, c.id) == At(p.fleet.running, c.id) && c in r.applied
    else if c.id in r.changes.failed then
      && At(r.fleet.running, c.id) == At(p.fleet.running, c.id)
      && (c.id in previous ==> previous[c.id] in r.applied)
    else
      && At(r.fleet.running, c.id) == Some(c.(allowUnavailable := true))
      && c.(allowUnavailable := false) in r.applied
  }

  lemma {:induction false} AdoptAllSettles(p: Progress, list: seq<Config>, previous: map<string, Config>)
    requires DistinctIds(list) && forall id :: id in p.changes.failed ==> id !in Ids(list)
    ensures var r := AdoptAll(p, list, previous);
      && (forall c :: c in list ==> Settled(p, r, c, previous))
      && (forall id :: id !in Ids(list) ==> At(r.fleet.running, id) == At(p.fleet.running, id))
      && (forall id :: id in r.changes.failed ==> id in p.changes.failed || id in Ids(list))
      && (forall c :: c in p.applied ==> c in r.applied)
  {
    if list != [] {
      var front, c := list[..|list| - 1], list[|list| - 1];
      Snoc(list);
      AdoptAllSettles(p, front, previous);
      var q := AdoptAll(p, front, previous);
      AdoptOne(q, c, previous);
      forall d | d in front ensures Settled(p, Adopt(q, c, previous), d, previous) {
        assert Settled(p, q, d, previous);
        assert d.id in Ids(front);
      }
    }
  }

  lemma AdoptOne(q: Progress, c: Config, previous: map<string, Config>)
    requires c.id !in q.changes.failed
    ensures var r := Adopt(q, c, previous);
      && Settled(q, r, c, previous)
      && (forall id :: id != c.id ==> At(r.fleet.running, id) == At(q.fleet.running, id))
      && (forall id :: id in r.changes.failed ==> id in q.changes.failed || id == c.id)
      && (forall id :: id in q.changes.failed ==> id in r.changes.failed)
      && (forall d :: d in q.applied ==> d in r.applied)
  {
  }

  /** Ids stay distinct: each wanted runtime adds at most one entry, under its own id. */
  lemma {:induction false} AdoptAllDistinct(p: Progress, list: seq<Config>, previous: map<string, Config>)
    requires DistinctIds(list) && DistinctIds(p.applied) && Ids(p.applied) !! Ids(list)
    requires forall id :: id in previous ==> previous[id].id == id
    ensures var r := AdoptAll(p, list, previous);
      && DistinctIds(r.applied) && Ids(r.applied) <= Ids(p.applied) + Ids(list)
      && p.applied <= r.applied
  {
    if list != [] {
      var front, c := list[..|list| - 1], list[|list| - 1];
      Snoc(list);
      AdoptAllDistinct(p, front, previous);
      var q := AdoptAll(p, front, previous);
      var r := Adopt(q, c, previous);
      if r.applied != q.applied {
        var d := r.applied[|q.applied|];
        assert r.applied == q.applied + [d] && d.id == c.id;
        forall i | 0 <= i < |q.applied| ensures q.applied[i].id != c.id {
          assert q.applied[i] in q.applied;
        }
        AppendDistinct(q.applied, d);
      }
    }
  }

  lemma AppendDistinct(list: seq<Config>, d: Config)
    requires DistinctIds(list) && forall i :: 0 <= i < |list| ==> list[i].id != d.id
    ensures DistinctIds(list + [d]) && Ids(list + [d]) == Ids(list) + {d.id}
  {
    assert forall c :: c in list + [d] <==> c in list || c == d;
  }

  /** The list an undisturbed reload ends with. */
  function Applied(list: seq<Config>, previous: map<string, Config>): (r: seq<Config>)
    ensures |r| == |list|
    ensures forall i :: 0 <= i < |list| ==>
      r[i] == if list[i].id in previous && previous[list[i].id] == list[i] then list[i] else list[i].(allowUnavailable := false)
  {
    if list == [] then []
    else
      var c := list[|list| - 1];
      Applied(list[..|list| - 1], previous)
      + [if c.id in previous && previous[c.id] == c then c else c.(allowUnavailable := false)]
  }

  lemma {:induction false} AdoptAllCleanly(p: Progress, list: seq<Config>, previous: map<string, Config>)
    ensures var r := AdoptAll(p, list, previous);
      && |p.changes.failed| <= |r.changes.failed|
      && (r.changes.failed == p.changes.failed ==> r.applied == p.applied + Applied(list, previous))
  {
    if list != [] {
      var front, c := list[..|list| - 1], list[|list| - 1];
      AdoptAllCleanly(p, front, previous);
      var q := AdoptAll(p, front, previous);
      var r := Adopt(q, c, previous);
      AdoptGrows(p, front, previous);
      if r.changes.failed == p.changes.failed {
        assert q.changes.failed == p.changes.failed;
        var last := if c.id in previous && previous[c.id] == c then c else c.(allowUnavailable := false);
        assert r.applied == q.applied + [last];
        assert Applied(list, previous) == Applied(front, previous) + [last];
        assert p.applied + Applied(front, previous) + [last] == p.applied + (Applied(front, previous) + [last]);
      }
    }
  }

  lemma {:induction false} AdoptGrows(p: Progress, list: seq<Config>, previous: map<string, Config>)
    ensures p.changes.failed <= AdoptAll(p, list, previous).changes.failed
  {
    if list != [] { AdoptGrows(p, list[..|list| - 1], previous); }
  }

  /** A list of which nothing has changed needs no call. */
  lemma {:induction false} AdoptUnchanged(p: Progress, list: seq<Config>, previous: map<string, Config>)
    requires forall c :: c in list ==> c.id in previous && previous[c.id] == c
    ensures AdoptAll(p, list, previous) == p.(applied := p.applied + list)
  {
    if list == [] {
      assert p.applied + list == p.applied;
    } else {
      Snoc(list);
      AdoptUnchanged(p, list[..|list| - 1], previous);
      assert p.applied + list[..|list| - 1] + [list[|list| - 1]] == p.applied + list;
    }
  }

  // ---------------------------------------------------------------- theorems about a reload

  /** Ids on the applied list stay distinct, and come from the old and the new list. */
  lemma CurrentStaysDistinct(fleet: Fleet, current: seq<Config>, next: seq<Config>)
    requires DistinctIds(current) && DistinctIds(next)
    ensures var r := Reconcile(fleet, current, next);
      DistinctIds(r.applied) && Ids(r.applied) <= Ids(current) + Ids(next)
  {
    var p := Progress(fleet, [], NO_CHANGES);
    RetireAllSpec(p, current, Ids(next));
    var q := RetireAll(p, current, Ids(next));
    ByIdSpec(current);
    assert forall c :: c in q.applied ==> c.id in Ids(current) - Ids(next);
    AdoptAllDistinct(q, next, ById(current));
  }

  function Named(call: Call): (r: string) { if call.Removed? then call.id else call.cfg.id }

  /** `now` is `before` and more calls, each naming one of `ids`. */
  ghost predicate CallsOnly(before: seq<Call>, now: seq<Call>, ids: set<string>) {
    before <= now && forall i :: |before| <= i < |now| ==> Named(now[i]) in ids
  }

  lemma {:induction false} RetireCalls(p: Progress, list: seq<Config>, wanted: set<string>)
    ensures CallsOnly(p.fleet.calls, RetireAll(p, list, wanted).fleet.calls, Ids(list))
  {
    if list != [] {
      Snoc(list);
      RetireCalls(p, list[..|list| - 1], wanted);
    }
  }

  lemma {:induction false} AdoptCalls(p: Progress, list: seq<Config>, previous: map<string, Config>)
    ensures CallsOnly(p.fleet.calls, AdoptAll(p, list, previous).fleet.calls, Ids(list))
  {
    if list != [] {
      Snoc(list);
      AdoptCalls(p, list[..|list| - 1], previous);
    }
  }

  /** Runtimes that neither list names are never touched, whatever fails: no call names
      them and they run as they did. */
  lemma OthersUntouched(fleet: Fleet, current: seq<Config>, next: seq<Config>, id: string)
    requires DistinctIds(current) && DistinctIds(next) && id !in Ids(current) + Ids(next)
    ensures At(Reconcile(fleet, current, next).fleet.running, id) == At(fleet.running, id)
    ensures CallsOnly(fleet.calls, Reconcile(fleet, current, next).fleet.calls, Ids(current) + Ids(next))
    ensures forall i :: |fleet.calls| <= i < |Reconcile(fleet, current, next).fleet.calls| ==>
      Named(Reconcile(fleet, current, next).fleet.calls[i]) != id
  {
    var p := Progress(fleet, [], NO_CHANGES);
    var q := RetireAll(p, current, Ids(next));
    RetireAllSpec(p, current, Ids(next));
    AdoptAllSettles(q, next, ById(current));
    RetireCalls(p, current, Ids(next));
    AdoptCalls(q, next, ById(current));
  }

  /** Every wanted runtime ends as it was, with its old declaration, or runs as wanted. */
  lemma EachWantedSettles(fleet: Fleet, current: seq<Config>, next: seq<Config>, c: Config)
    requires DistinctIds(current) && DistinctIds(next) && c in next
    ensures Settled(Progress(fleet, [], NO_CHANGES), Reconcile(fleet, current, next), c, ById(current))
  {
    var p := Progress(fleet, [], NO_CHANGES);
    RetireAllSpec(p, current, Ids(next));
    var q := RetireAll(p, current, Ids(next));
    AdoptAllSettles(q, next, ById(current));
    assert At(q.fleet.running, c.id) == At(p.fleet.running, c.id) by { assert c.id in Ids(next); }
  }

  /** An unwanted runtime is out of the table afterwards, and stays on the applied
      list exactly when its Remove reported a failure. */
  lemma EachUnwantedGoes(fleet: Fleet, current: seq<Config>, next: seq<Config>, c: Config)
    requires DistinctIds(current) && DistinctIds(next) && c in current && c.id !in Ids(next)
    ensures var r := Reconcile(fleet, current, next);
      c.id !in r.fleet.running && (c in r.applied <==> c.id in r.changes.failed)
  {
    var p := Progress(fleet, [], NO_CHANGES);
    RetireAllSpec(p, current, Ids(next));
    var q := RetireAll(p, current, Ids(next));
    AdoptAllSettles(q, next, ById(current));
    var r := Reconcile(fleet, current, next);
    assert At(r.fleet.running, c.id) == At(q.fleet.running, c.id);
    ByIdSpec(current);
    AdoptedIds(q, next, ById(current), c);
    AdoptGrows(q, next, ById(current));
    assert c.id in Ids(current);
  }

  lemma {:induction false} AdoptedIds(p: Progress, list: seq<Config>, previous: map<string, Config>, c: Config)
    requires c.id !in Ids(list)
    requires forall id :: id in previous ==> previous[id].id == id
    ensures c in AdoptAll(p, list, previous).applied <==> c in p.applied
  {
    if list != [] {
      assert list[|list| - 1].id in Ids(list);
      assert Ids(list[..|list| - 1]) <= Ids(list);
      AdoptedIds(p, list[..|list| - 1], previous, c);
    }
  }

  /** A reload in which no call fails leaves exactly the wanted list, if and only if
      no wanted runtime that had to be installed asked for AllowUnavailable itself:
      that flag is cleared on what is remembered. */
  lemma CleanReloadAppliesAll(fleet: Fleet, current: seq<Config>, next: seq<Config>)
    requires DistinctIds(current) && DistinctIds(next)
    requires Reconcile(fleet, current, next).changes.failed == []
    ensures Reconcile(fleet, current, next).applied == next
            <==> forall c :: c in next && c.allowUnavailable ==> c in current
  {
    CleanReload(fleet, current, next);
    AppliedIsWanted(current, next);
  }

  lemma CleanReload(fleet: Fleet, current: seq<Config>, next: seq<Config>)
    requires DistinctIds(current) && DistinctIds(next)
    requires Reconcile(fleet, current, next).changes.failed == []
    ensures Reconcile(fleet, current, next).applied == Applied(next, ById(current))
  {
    var p := Progress(fleet, [], NO_CHANGES);
    var q := RetireAll(p, current, Ids(next));
    RetireAllSpec(p, current, Ids(next));
    AdoptGrows(q, next, ById(current));
    AdoptAllCleanly(q, next, ById(current));
    assert q.applied + Applied(next, ById(current)) == Applied(next, ById(current));
  }

  lemma AppliedIsWanted(current: seq<Config>, next: seq<Config>)
    requires DistinctIds(current)
    ensures Applied(next, ById(current)) == next <==> forall c :: c in next && c.allowUnavailable ==> c in current
  {
    ByIdSpec(current);
    var done := Applied(next, ById(current));
    if forall c :: c in next && c.allowUnavailable ==> c in current {
      forall i | 0 <= i < |next| ensures done[i] == next[i] { assert next[i] in next; }
    } else {
      var c :| c in next && c.allowUnavailable && c !in current;
      var i :| 0 <= i < |next| && next[i] == c;
      assert done[i] != next[i];
    }
  }

  /** Reconciliation is a fixed point: reloading what is already applied makes no call. */
  lemma SecondReloadIsIdle(fleet: Fleet, list: seq<Config>)
    requires DistinctIds(list)
    ensures Reconcile(fleet, list, list) == Progress(fleet, list, NO_CHANGES)
  {
    var p := Progress(fleet, [], NO_CHANGES);
    RetireAllSpec(p, list, Ids(list));
    ByIdSpec(list);
    AdoptUnchanged(p, list, ById(list));
    assert [] + list == list;
  }

  /** Something that is not applied as declared takes a call. */
  lemma {:induction false} ChangeTakesACall(p: Progress, list: seq<Config>, previous: map<string, Config>, c: Config)
    requires c in list && !(c.id in previous && previous[c.id] == c)
    ensures |AdoptAll(p, list, previous).fleet.calls| > |p.fleet.calls|
  {
    var front, last := list[..|list| - 1], list[|list| - 1];
    Snoc(list);
    AdoptCalls(p, front, previous);
    if c != last { ChangeTakesACall(p, front, previous, c); }
  }

  /** After a reload in which no call failed, reloading the same list again makes no manager
      call, if and only if nothing installed asked for AllowUnavailable itself. */
  lemma SecondReloadIsIdleIff(fleet: Fleet, current: seq<Config>, next: seq<Config>)
    requires DistinctIds(current) && DistinctIds(next)
    requires Reconcile(fleet, current, next).changes.failed == []
    ensures var r := Reconcile(fleet, current, next);
      Reconcile(r.fleet, r.applied, next).fleet.calls == r.fleet.calls
      <==> forall c :: c in next && c.allowUnavailable ==> c in current
  {
    var r := Reconcile(fleet, current, next);
    CleanReloadAppliesAll(fleet, current, next);
    if forall c :: c in next && c.allowUnavailable ==> c in current {
      SecondReloadIsIdle(r.fleet, next);
    } else {
      var c :| c in next && c.allowUnavailable && c !in current;
      FlaggedIsInstalledAgain(fleet, current, next, c);
    }
  }

  lemma FlaggedIsInstalledAgain(fleet: Fleet, current: seq<Config>, next: seq<Config>, c: Config)
    requires DistinctIds(current) && DistinctIds(next) && c in next && c.allowUnavailable && c !in current
    requires Reconcile(fleet, current, next).changes.failed == []
    ensures var r := Reconcile(fleet, current, next); |Reconcile(r.fleet, r.applied, next).fleet.calls| > |r.fleet.calls|
  {
    var r := Reconcile(fleet, current, next);
    CleanReload(fleet, current, next);
    CurrentStaysDistinct(fleet, current, next);
    ByIdSpec(current);
    ByIdSpec(r.applied);
    var i :| 0 <= i < |next| && next[i] == c;
    assert r.applied[i] == c.(allowUnavailable := false) && r.applied[i] in r.applied;
    var p := Progress(r.fleet, [], NO_CHANGES);
    RetireCalls(p, r.applied, Ids(next));
    ChangeTakesACall(RetireAll(p, r.applied, Ids(next)), next, ById(r.applied), c);
  }

  /** Declarations as the Agent makes them, from its file, its flags and what is
      provisioned, never carry the flag: then a reload without failures applies exactly the
      wanted list, and the same reload again makes no call and changes nothing. */
  lemma CleanReloadIsAFixedPoint(fleet: Fleet, current: seq<Config>, next: seq<Config>)
    requires DistinctIds(current) && DistinctIds(next) && forall c :: c in next ==> !c.allowUnavailable
    requires Reconcile(fleet, current, next).changes.failed == []
    ensures var r := Reconcile(fleet, current, next);
      r.applied == next && Reconcile(r.fleet, r.applied, next) == Progress(r.fleet, next, NO_CHANGES)
  {
    CleanReloadAppliesAll(fleet, current, next);
    SecondReloadIsIdle(Reconcile(fleet, current, next).fleet, next);
  }

  function Never(n: nat): bool { false }

  /** A declaration that does carry it: it is installed, remembered without the flag, and
      replaced by the very same reload. */
  lemma FlagIsForgotten(c: Config)
    requires c.allowUnavailable
    ensures var r := Reconcile(Fleet(map[], [], Never), [], [c]);
      var again := Reconcile(r.fleet, r.applied, [c]);
      && r.changes.failed == [] && r.applied == [c.(allowUnavailable := false)]
      && again.changes.replaced == [c.id]
  {
    var start := Progress(Fleet(map[], [], Never), [], NO_CHANGES);
    var r := Reconcile(start.fleet, [], [c]);
    AdoptSingle(start, c, map[]);
    var d := c.(allowUnavailable := false);
    assert r.applied == [d];
    var p := Progress(r.fleet, [], NO_CHANGES);
    assert [d][..0] == [] && [d][0] == d;
    assert RetireAll(p, [d], Ids([c])) == p;
    assert ById([d]) == map[c.id := d];
    AdoptSingle(p, c, ById([d]));
  }

  lemma AdoptSingle(p: Progress, c: Config, previous: map<string, Config>)
    ensures AdoptAll(p, [c], previous) == Adopt(p, c, previous)
  {
    assert [c][..0] == [];
    assert AdoptAll(p, [], previous) == p;
  }

  /** The runtime runs as its declaration says; only AllowUnavailable may differ, which
      is set on whatever the Agent installs. */
  predicate RunsAs(running: map<string, Config>, c: Config) {
    c.id in running && running[c.id].(allowUnavailable := c.allowUnavailable) == c
  }

  /** Every applied runtime runs as it was declared. */
  ghost predicate InSync(fleet: Fleet, list: seq<Config>) {
    forall c :: c in list ==> RunsAs(fleet.running, c)
  }

  /** Among the old declarations, those a reload may leave on the applied list. */
  ghost predicate OldOnesRun(fleet: Fleet, current: seq<Config>, next: seq<Config>, failed: seq<string>) {
    && (forall c :: c in current && c.id !in Ids(next) ==> c.id !in failed)
    && (forall c :: c in current && c.id in Ids(next) && (c in next || c.id in failed) ==> RunsAs(fleet.running, c))
  }

  /** After one reload everything on the applied list runs as declared, if and only if no
      Remove failed and whatever was kept, or could not be replaced, ran before. */
  lemma SyncIsKept(fleet: Fleet, current: seq<Config>, next: seq<Config>)
    requires DistinctIds(current) && DistinctIds(next)
    ensures var r := Reconcile(fleet, current, next);
      InSync(r.fleet, r.applied) <==> OldOnesRun(fleet, current, next, r.changes.failed)
  {
    var r := Reconcile(fleet, current, next);
    if InSync(r.fleet, r.applied) {
      forall c | c in current && c.id !in Ids(next) ensures c.id !in r.changes.failed {
        EachUnwantedGoes(fleet, current, next, c);
      }
      forall c | c in current && c.id in Ids(next) && (c in next || c.id in r.changes.failed) ensures RunsAs(fleet.running, c) {
        KeptRanBefore(fleet, current, next, c);
      }
    }
    if OldOnesRun(fleet, current, next, r.changes.failed) {
      forall d | d in r.applied ensures RunsAs(r.fleet.running, d) { AppliedRuns(fleet, current, next, d); }
    }
  }

  lemma SameId(list: seq<Config>, a: Config, b: Config)
    requires DistinctIds(list) && a in list && b in list && a.id == b.id
    ensures a == b
  {
  }

  lemma KeptRanBefore(fleet: Fleet, current: seq<Config>, next: seq<Config>, c: Config)
    requires DistinctIds(current) && DistinctIds(next) && c in current && c.id in Ids(next)
    requires var r := Reconcile(fleet, current, next); InSync(r.fleet, r.applied) && (c in next || c.id in r.changes.failed)
    ensures RunsAs(fleet.running, c)
  {
    var r := Reconcile(fleet, current, next);
    ByIdSpec(current);
    var d :| d in next && d.id == c.id;
    if c in next { SameId(next, c, d); }
    EachWantedSettles(fleet, current, next, d);
    assert c in r.applied;
    assert At(r.fleet.running, c.id) == At(fleet.running, c.id);
  }

  lemma AppliedRuns(fleet: Fleet, current: seq<Config>, next: seq<Config>, d: Config)
    requires DistinctIds(current) && DistinctIds(next)
    requires var r := Reconcile(fleet, current, next);
      d in r.applied && OldOnesRun(fleet, current, next, r.changes.failed)
    ensures RunsAs(Reconcile(fleet, current, next).fleet.running, d)
  {
    var r := Reconcile(fleet, current, next);
    CurrentStaysDistinct(fleet, current, next);
    assert d.id in Ids(r.applied);
    if d.id in Ids(next) {
      var c :| c in next && c.id == d.id;
      WantedRuns(fleet, current, next, c, d);
    } else {
      LeftoverIsOld(fleet, current, next, d);
      EachUnwantedGoes(fleet, current, next, d);
    }
  }

  lemma WantedRuns(fleet: Fleet, current: seq<Config>, next: seq<Config>, c: Config, d: Config)
    requires DistinctIds(current) && DistinctIds(next) && c in next && c.id == d.id
    requires var r := Reconcile(fleet, current, next);
      d in r.applied && DistinctIds(r.applied) && OldOnesRun(fleet, current, next, r.changes.failed)
    ensures RunsAs(Reconcile(fleet, current, next).fleet.running, d)
  {
    var r := Reconcile(fleet, current, next);
    ByIdSpec(current);
    EachWantedSettles(fleet, current, next, c);
    assert c.id in Ids(next) && d.id in Ids(r.applied);
    if c in current {
      SameId(r.applied, c, d);
    } else if c.id in r.changes.failed {
      if c.id !in Ids(current) {
        FailedAdditionIsNotApplied(fleet, current, next, c);
      } else {
        var before := ById(current)[c.id];
        SameId(r.applied, before, d);
      }
    } else {
      SameId(r.applied, c.(allowUnavailable := false), d);
    }
  }

  // ---------------------------------------------------------------- whatever fails

  ghost predicate SyncedUnder(fails: nat -> bool, fleet: Fleet, current: seq<Config>, next: seq<Config>) {
    var r := Reconcile(fleet.(fails := fails), current, next);
    InSync(r.fleet, r.applied)
  }

  /** What can be checked before a reload: nothing that is to be removed is running, and
      whatever is wanted again runs as it was declared. */
  ghost predicate SafeToReload(fleet: Fleet, current: seq<Config>, next: seq<Config>) {
    forall c :: c in current ==> if c.id in Ids(next) then RunsAs(fleet.running, c) else c.id !in fleet.running
  }

  function Always(n: nat): bool { true }

  lemma {:induction false} AllRemovalsFail(p: Progress, list: seq<Config>, wanted: set<string>, c: Config)
    requires DistinctIds(list) && p.applied == [] && p.changes.failed == [] && p.fleet.fails == Always
    requires c in list && c.id !in wanted && c.id in p.fleet.running
    ensures c.id in RetireAll(p, list, wanted).changes.failed
  {
    var front, last := list[..|list| - 1], list[|list| - 1];
    Snoc(list);
    RetireAllSpec(p, front, wanted);
    if c == last {
      assert c.id in RetireAll(p, front, wanted).fleet.running;
    } else {
      assert c.id in Ids(front);
      AllRemovalsFail(p, front, wanted, c);
    }
  }

  lemma {:induction false} AllInstallsFail(p: Progress, list: seq<Config>, previous: map<string, Config>, c: Config)
    requires p.fleet.fails == Always && c in list && !(c.id in previous && previous[c.id] == c)
    ensures c.id in AdoptAll(p, list, previous).changes.failed
  {
    var front, last := list[..|list| - 1], list[|list| - 1];
    Snoc(list);
    FailsStays(p, front, previous);
    if c != last { AllInstallsFail(p, front, previous, c); }
  }

  lemma {:induction false} FailsStays(p: Progress, list: seq<Config>, previous: map<string, Config>)
    ensures AdoptAll(p, list, previous).fleet.fails == p.fleet.fails
  {
    if list != [] { FailsStays(p, list[..|list| - 1], previous); }
  }

  /** When every call fails, every declaration that is kept or not replaced must have run. */
  lemma WorstCase(fleet: Fleet, current: seq<Config>, next: seq<Config>, c: Config)
    requires DistinctIds(current) && DistinctIds(next) && c in current
    requires SyncedUnder(Always, fleet, current, next)
    ensures if c.id in Ids(next) then RunsAs(fleet.running, c) else c.id !in fleet.running
  {
    var worst := fleet.(fails := Always);
    var p := Progress(worst, [], NO_CHANGES);
    var q := RetireAll(p, current, Ids(next));
    var r := Reconcile(worst, current, next);
    RetireAllSpec(p, current, Ids(next));
    ByIdSpec(current);
    SyncIsKept(worst, current, next);
    if c.id in Ids(next) {
      var d :| d in next && d.id == c.id;
      if d != c { AllInstallsFail(q, next, ById(current), d); }
    } else if c.id in fleet.running {
      AllRemovalsFail(p, current, Ids(next), c);
      AdoptGrows(q, next, ById(current));
    }
  }

  lemma SafeMeansSynced(fails: nat -> bool, fleet: Fleet, current: seq<Config>, next: seq<Config>)
    requires DistinctIds(current) && DistinctIds(next) && SafeToReload(fleet, current, next)
    ensures SyncedUnder(fails, fleet, current, next)
  {
    var f := fleet.(fails := fails);
    var r := Reconcile(f, current, next);
    forall c | c in current && c.id !in Ids(next) ensures c.id !in r.changes.failed {
      UnwantedFailure(f, current, next, c);
    }
    SyncIsKept(f, current, next);
  }

  lemma UnwantedFailure(fleet: Fleet, current: seq<Config>, next: seq<Config>, c: Config)
    requires DistinctIds(current) && DistinctIds(next) && c in current && c.id !in Ids(next)
    ensures c.id in Reconcile(fleet, current, next).changes.failed ==> c.id in fleet.running
  {
    var p := Progress(fleet, [], NO_CHANGES);
    RetireAllSpec(p, current, Ids(next));
    AdoptAllSettles(RetireAll(p, current, Ids(next)), next, ById(current));
  }

  /** A reload leaves everything applied running as declared whatever fails, if and only if
      beforehand nothing that is to be removed runs and whatever is wanted again runs as
      declared. Removing a running runtime is therefore never safe from a failing Remove. */
  lemma SyncSurvivesEveryFailureIff(fleet: Fleet, current: seq<Config>, next: seq<Config>)
    requires DistinctIds(current) && DistinctIds(next)
    ensures (forall fails: nat -> bool :: SyncedUnder(fails, fleet, current, next)) <==> SafeToReload(fleet, current, next)
  {
    if forall fails: nat -> bool :: SyncedUnder(fails, fleet, current, next) {
      assert SyncedUnder(Always, fleet, current, next);
      forall c | c in current ensures if c.id in Ids(next) then RunsAs(fleet.running, c) else c.id !in fleet.running {
        WorstCase(fleet, current, next, c);
      }
    }
    if SafeToReload(fleet, current, next) {
      forall fails: nat -> bool ensures SyncedUnder(fails, fleet, current, next) {
        SafeMeansSynced(fails, fleet, current, next);
      }
    }
  }

  /** A runtime wanted for the first time that could not be added is not applied. */
  lemma FailedAdditionIsNotApplied(fleet: Fleet, current: seq<Config>, next: seq<Config>, c: Config)
    requires DistinctIds(current) && DistinctIds(next) && c in next && c.id !in Ids(current)
    requires c.id in Reconcile(fleet, current, next).changes.failed
    ensures c.id !in Ids(Reconcile(fleet, current, next).applied)
  {
    var p := Progress(fleet, [], NO_CHANGES);
    var q := RetireAll(p, current, Ids(next));
    RetireAllSpec(p, current, Ids(next));
    ByIdSpec(current);
    assert forall d :: d in q.applied ==> d.id in Ids(current);
    FailedIsDropped(q, next, ById(current), c);
  }

  lemma {:induction false} FailedIsDropped(p: Progress, list: seq<Config>, previous: map<string, Config>, c: Config)
    requires DistinctIds(list) && c in list && c.id !in previous && c.id !in Ids(p.applied) && c.id !in p.changes.failed
    requires forall id :: id in previous ==> previous[id].id == id
    requires forall id :: id in p.changes.failed ==> id !in Ids(list)
    requires c.id in AdoptAll(p, list, previous).changes.failed
    ensures c.id !in Ids(AdoptAll(p, list, previous).applied)
  {
    var front, last := list[..|list| - 1], list[|list| - 1];
    Snoc(list);
    AdoptAllSettles(p, front, previous);
    var q := AdoptAll(p, front, previous);
    if c == last {
      NewIds(p, front, previous);
    } else {
      assert c.id in Ids(front);
      FailedIsDropped(p, front, previous, c);
    }
  }

  lemma {:induction false} NewIds(p: Progress, list: seq<Config>, previous: map<string, Config>)
    requires forall id :: id in previous ==> previous[id].id == id
    ensures Ids(AdoptAll(p, list, previous).applied) <= Ids(p.applied) + Ids(list)
  {
    if list != [] {
      var front, last := list[..|list| - 1], list[|list| - 1];
      Snoc(list);
      NewIds(p, front, previous);
      AdoptIds(AdoptAll(p, front, previous), last, previous);
    }
  }

  lemma AdoptIds(p: Progress, c: Config, previous: map<string, Config>)
    requires forall id :: id in previous ==> previous[id].id == id
    ensures Ids(Adopt(p, c, previous).applied) <= Ids(p.applied) + {c.id}
  {
    var q := Adopt(p, c, previous);
    forall id | id in Ids(q.applied) ensures id in Ids(p.applied) + {c.id} {
      var d :| d in q.applied && d.id == id;
      if d in p.applied { assert id in Ids(p.applied); }
    }
  }

  lemma LeftoverIsOld(fleet: Fleet, current: seq<Config>, next: seq<Config>, d: Config)
    requires DistinctIds(current) && DistinctIds(next)
    requires d in Reconcile(fleet, current, next).applied && d.id !in Ids(next)
    ensures d in current
  {
    var p := Progress(fleet, [], NO_CHANGES);
    var q := RetireAll(p, current, Ids(next));
    RetireAllSpec(p, current, Ids(next));
    ByIdSpec(current);
    AdoptedIds(q, next, ById(current), d);
  }

  /** In sync is not kept when a Remove deletes and still fails: the runtime stays on
      the applied list, so declaring it again makes no call and it does not run. */
  lemma FailedRemovalLosesARuntime(c: Config)
    ensures var fleet := Fleet(map[c.id := c], [], FirstCall);
      var dropped := Reconcile(fleet, [c], []);
      var again := Reconcile(dropped.fleet, dropped.applied, [c]);
      && InSync(fleet, [c])
      && dropped.applied == [c] && dropped.changes.failed == [c.id]
      && again == Progress(dropped.fleet, [c], NO_CHANGES)
      && c.id !in again.fleet.running
  {
    var fleet := Fleet(map[c.id := c], [], FirstCall);
    var start := Progress(fleet, [], NO_CHANGES);
    var dropped := Reconcile(fleet, [c], []);
    assert Ids([]) == {};
    assert RetireAll(start, [c][..0], {}) == start;
    assert dropped == Retire(start, c, {});
    SecondReloadIsIdle(dropped.fleet, [c]);
  }

  predicate FirstCall(n: nat) { n == 0 }

  // ---------------------------------------------------------------- declarations

  /** The declarations among `list`: those of kinds that need one, the last per id. */
  function Declared(list: seq<Config>): (r: map<string, Config>) {
    if list == [] then map[]
    else
      var c := list[|list| - 1];
      if c.NeedsDeclaration() then Declared(list[..|list| - 1])[c.id := c] else Declared(list[..|list| - 1])
  }

  /** For a list with distinct ids, exactly the entries that need a declaration. */
  lemma {:induction false} DeclaredSpec(list: seq<Config>)
    requires DistinctIds(list)
    ensures forall id, c ::
      (id in Declared(list) && Declared(list)[id] == c) <==> (c in list && (c.kind.LocalCLI? || c.kind.Hosted?) && c.id == id)
  {
    if list != [] {
      Snoc(list);
      var front, last := list[..|list| - 1], list[|list| - 1];
      DeclaredSpec(front);
      forall c | c in front ensures c.id != last.id { assert c.id in Ids(front); }
    }
  }

  /** While a reload is under way the factories admit every wanted runtime. */
  lemma {:induction false} WantedIsDeclared(current: seq<Config>, next: seq<Config>, c: Config)
    requires DistinctIds(next) && c in next && c.NeedsDeclaration()
    ensures c.id in Declared(current + next) && Declared(current + next)[c.id] == c
    decreases |next|
  {
    var list := current + next;
    var front, last := next[..|next| - 1], next[|next| - 1];
    Snoc(next);
    assert list[..|list| - 1] == current + front && list[|list| - 1] == last;
    if c != last {
      assert c.id in Ids(front);
      WantedIsDeclared(current, front, c);
    }
  }

  // ---------------------------------------------------------------- the source's objects

  class LocalDeclarations {
    var byId: map<string, Config>
    var discovered: map<string, Config>

    constructor (declared: seq<Config>)
      ensures byId == Declared(declared) && discovered == map[]
    {
      byId, discovered := map[], map[];
      new;
      Set(declared);
    }

    method Set(declared: seq<Config>)
      modifies this`byId
      ensures byId == Declared(declared)
    {
      var m: map<string, Config> := map[];
      for i := 0 to |declared|
        invariant m == Declared(declared[..i])
      {
        assert declared[..i + 1][..i] == declared[..i];
        if declared[i].NeedsDeclaration() {
          m := m[declared[i].id := declared[i]];
        }
      }
      assert declared[..|declared|] == declared;
      byId := m;
    }

    method Add(cfg: Config)
      modifies this`discovered
      ensures discovered == if cfg.NeedsDeclaration() then old(discovered)[cfg.id := cfg] else old(discovered)
    {
      if cfg.NeedsDeclaration() {
        discovered := discovered[cfg.id := cfg];
      }
    }

    method Withdraw(id: string)
      modifies this`discovered
      ensures discovered == old(discovered) - {id}
    {
      discovered := discovered - {id};
    }

    /** The file's declaration shadows the Agent's own. */
    function Get(id: string): (r: Option<Config>)
      reads this
      ensures r == At(discovered + byId, id)
    {
      if id in byId then Some(byId[id]) else if id in discovered then Some(discovered[id]) else None
    }
  }

  /** runtime.Manager, with the calls made on it recorded. */
  class RuntimeManager {
    var running: map<string, Config>
    var calls: seq<Call>
    const fails: nat -> bool

    constructor (running: map<string, Config>, fails: nat -> bool)
      ensures Value() == Fleet(running, [], fails)
    {
      this.running, this.calls, this.fails := running, [], fails;
    }

    function Value(): Fleet
      reads this
    {
      Fleet(running, calls, fails)
    }

    method Remove(id: string) returns (outcome: Outcome)
      modifies this
      ensures (Value(), outcome) == Evict(old(Value()), id)
    {
      outcome := if id !in running then NotFound else if fails(|calls|) then Failed else Done;
      running, calls := running - {id}, calls + [Removed(id)];
    }

    method Add(cfg: Config) returns (outcome: Outcome)
      requires cfg.id !in running
      modifies this
      ensures (Value(), outcome) == Install(old(Value()), cfg)
    {
      outcome := if fails(|calls|) then Failed else Done;
      calls := calls + [Added(cfg)];
      if outcome.Done? {
        running := running[cfg.id := cfg];
      }
    }

    method Replace(cfg: Config) returns (outcome: Outcome)
      requires cfg.id in running
      modifies this
      ensures (Value(), outcome) == Install(old(Value()), cfg)
    {
      outcome := if fails(|calls|) then Failed else Done;
      calls := calls + [Replaced(cfg)];
      if outcome.Done? {
        running := running[cfg.id := cfg];
      }
    }
  }

  /** validateDeclared accepts exactly the lists without duplicates or invalid entries. */
  method ValidateDeclared(declared: seq<Config>) returns (ok: bool)
    ensures ok <==> DistinctIds(declared) && forall c :: c in declared ==> c.valid
  {
    var seen: set<string> := {};
    for i := 0 to |declared|
      invariant seen == Ids(declared[..i])
      invariant DistinctIds(declared[..i]) && forall j :: 0 <= j < i ==> declared[j].valid
    {
      var c := declared[i];
      assert declared[..i + 1] == declared[..i] + [c];
      if c.id in seen {
        var d :| d in declared[..i] && d.id == c.id;
        var j :| 0 <= j < i && declared[j] == d;
        return false;
      }
      if !c.valid {
        return false;
      }
      forall j | 0 <= j < i ensures declared[j].id != c.id { assert declared[..i][j] in declared[..i]; }
      AppendDistinct(declared[..i], c);
      seen := seen + {c.id};
    }
    assert declared[..|declared|] == declared;
    return true;
  }

  class RuntimeReloader {
    const local: LocalDeclarations
    const manager: RuntimeManager
    var current: seq<Config>
    var localDeclared: seq<Config>

    constructor (local: LocalDeclarations, manager: RuntimeManager, current: seq<Config>)
      ensures this.local == local && this.manager == manager && this.current == current && localDeclared == current
    {
      this.local, this.manager, this.current, this.localDeclared := local, manager, current, current;
    }

    /** The list of wanted runtimes: local declarations and provisioned runtimes. */
    method Collect(declared: seq<Config>, remote: seq<Config>) returns (w: Wanted)
      ensures w == OfferAll(declared, remote)
    {
      w := Wanted(declared, [], []);
      var taken := Ids(declared);
      for i := 0 to |remote|
        invariant w == OfferAll(declared, remote[..i]) && taken == Ids(w.next)
      {
        assert remote[..i + 1][..i] == remote[..i];
        var c := remote[i];
        if c.id in taken {
          w := w.(conflicts := w.conflicts + [c.id]);
        } else if !c.valid {
          w := w.(invalid := w.invalid + [c.id]);
        } else {
          assert forall d :: d in w.next + [c] <==> d in w.next || d == c;
          w := w.(next := w.next + [c]);
          taken := taken + {c.id};
        }
      }
      assert remote[..|remote|] == remote;
    }

    /** Removes what is no longer wanted. */
    method RetirePhase(wanted: set<string>) returns (applied: seq<Config>, changes: Changes)
      modifies manager
      ensures Progress(manager.Value(), applied, changes)
              == RetireAll(Progress(old(manager.Value()), [], NO_CHANGES), current, wanted)
    {
      applied, changes := [], NO_CHANGES;
      ghost var start := Progress(manager.Value(), [], NO_CHANGES);
      for i := 0 to |current|
        invariant Progress(manager.Value(), applied, changes) == RetireAll(start, current[..i], wanted)
      {
        assert current[..i + 1][..i] == current[..i];
        var c := current[i];
        if c.id !in wanted {
          var outcome := manager.Remove(c.id);
          if outcome.Failed? {
            changes := changes.(failed := changes.failed + [c.id]);
            applied := applied + [c];
          } else {
            changes := changes.(removed := changes.removed + [c.id]);
          }
        }
      }
      assert current[..|current|] == current;
    }

    /** Adds what is new and replaces what changed. */
    method AdoptPhase(next: seq<Config>, previous: map<string, Config>, applied0: seq<Config>, changes0: Changes)
      returns (applied: seq<Config>, changes: Changes)
      modifies manager
      ensures Progress(manager.Value(), applied, changes)
              == AdoptAll(Progress(old(manager.Value()), applied0, changes0), next, previous)
    {
      applied, changes := applied0, changes0;
      ghost var start := Progress(manager.Value(), applied, changes);
      for i := 0 to |next|
        invariant Progress(manager.Value(), applied, changes) == AdoptAll(start, next[..i], previous)
      {
        assert next[..i + 1][..i] == next[..i];
        var c := next[i];
        if c.id in previous && previous[c.id] == c {
          applied := applied + [c];
          continue;
        }
        var running := c.id in manager.running;
        var outcome;
        if running {
          outcome := manager.Replace(c.(allowUnavailable := true));
        } else {
          outcome := manager.Add(c.(allowUnavailable := true));
        }
        if outcome.Failed? {
          changes := changes.(failed := changes.failed + [c.id]);
          if c.id in previous {
            applied := applied + [previous[c.id]];
          }
          continue;
        }
        applied := applied + [c.(allowUnavailable := false)];
        if running {
          changes := changes.(replaced := changes.replaced + [c.id]);
        } else {
          changes := changes.(added := changes.added + [c.id]);
        }
      }
      assert next[..|next|] == next;
    }

    /** applyLocked: reconciles the manager with the declarations, and ends with the
        file declarations being exactly those of the applied list that need one. */
    method ApplyLocked(declared: seq<Config>, remote: seq<Config>) returns (changes: Changes, conflicts: seq<string>)
      requires DistinctIds(current) && DistinctIds(declared)
      modifies this, local, manager
      ensures localDeclared == declared && DistinctIds(current)
      ensures var w := OfferAll(declared, remote);
        var r := Reconcile(old(manager.Value()), old(current), w.next);
        && current == r.applied && manager.Value() == r.fleet
        && changes == r.changes.(failed := w.invalid + r.changes.failed) && conflicts == w.conflicts
      ensures local.discovered == old(local.discovered)
      ensures local.byId == Declared(current)
    {
      localDeclared := declared;
      var w := Collect(declared, remote);
      conflicts := w.conflicts;
      WantedIsDistinct(declared, remote);
      CurrentStaysDistinct(manager.Value(), current, w.next);
      var previous := ById(current);
      local.Set(current + w.next);
      var applied;
      applied, changes := RetirePhase(Ids(w.next));
      applied, changes := AdoptPhase(w.next, previous, applied, changes);
      changes := changes.(failed := w.invalid + changes.failed);
      current := applied;
      local.Set(applied);
    }

    /** Reload: a file that does not load or does not validate changes nothing. */
    method Reload(file: Option<seq<Config>>, extra: seq<Config>, remote: seq<Config>) returns (applied: bool)
      requires DistinctIds(current)
      modifies this, local, manager
      ensures DistinctIds(current)
      ensures applied <==> file.Some? && DistinctIds(file.value + extra) && forall c :: c in file.value + extra ==> c.valid
      ensures !applied ==> unchanged(this) && unchanged(local) && unchanged(manager)
      ensures applied ==> localDeclared == file.value + extra
      ensures applied ==>
        manager.Value() == Reconcile(old(manager.Value()), old(current), OfferAll(localDeclared, remote).next).fleet
    {
      if file.None? {
        return false;
      }
      var declared := file.value + extra;
      var ok := ValidateDeclared(declared);
      if !ok {
        return false;
      }
      var _, _ := ApplyLocked(declared, remote);
      return true;
    }

    /** ReloadRemote: the last local declarations again, under the runtimes now provisioned. */
    method ReloadRemote(remote: seq<Config>) returns (changes: Changes, conflicts: seq<string>)
      requires DistinctIds(current) && DistinctIds(localDeclared)
      modifies this, local, manager
      ensures localDeclared == old(localDeclared) && DistinctIds(current)
      ensures var r := Reconcile(old(manager.Value()), old(current), OfferAll(localDeclared, remote).next);
        current == r.applied && manager.Value() == r.fleet
    {
      changes, conflicts := ApplyLocked(localDeclared, remote);
    }
  }
}
