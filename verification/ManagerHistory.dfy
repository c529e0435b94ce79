/**
 The health rule inside the manager: in every run, whatever calls, discoveries and
 other loops come in between, what an instance publishes is decided by the answers its
 own health checks got.
 */
module ManagerHistory {
  import opened Options
  import opened Health
  import opened Manager
  import opened ManagerTheorems
  import opened Text

  /** The step in which a health check of instance `i` is answered and counts. */
  predicate Counts(s: World, e: Event, i: nat) {
    e.Answer? && e.i == i && i < |s.insts| && s.insts[i].loop.Checking? && !s.insts[i].closed
  }

  /** The answers that count, oldest first. */
  ghost function Answers(s: World, events: seq<Event>, t: World, i: nat): (r: seq<bool>)
    requires Runs(s, events, t)
    decreases |events|
  {
    if events == [] then []
    else NewAnswer(s, events[0], i) + Answers(Apply(s, events[0]), events[1..], t, i)
  }

  /** A pending instance has no history; any other is where its history puts it. */
  ghost predicate Tracked(inst: Inst, h: seq<bool>) {
    if inst.view.pending then h == [] else inst.view == After(Ready(inst.view.models), h)
  }

  /** Discovering other models leaves the rest of the history's effect alone. */
  lemma {:induction false} ModelsDoNotMatter(h: seq<bool>, a: seq<string>, b: seq<string>)
    ensures After(Ready(a), h).(models := b) == After(Ready(b), h)
  {
    if h != [] { ModelsDoNotMatter(h[..|h| - 1], a, b); }
  }

  lemma AfterOne(v: View, h: seq<bool>, ok: bool)
    ensures After(v, h + [ok]) == Checked(After(v, h), ok)
  {
    assert (h + [ok])[..|h|] == h;
  }

  lemma CheckTracks(v: View, h: seq<bool>, ok: bool)
    requires !v.pending && v == After(Ready(v.models), h)
    ensures !Checked(v, ok).pending && Checked(v, ok) == After(Ready(v.models), h + [ok]) && Checked(v, ok).models == v.models
  {
    AfterOne(Ready(v.models), h, ok);
  }

  lemma AnswerTracks(inst: Inst, h: seq<bool>, ok: bool, models: seq<string>)
    requires Tracked(inst, h) && ViewOk(inst)
    ensures Tracked(Answered(inst, ok, models), if inst.loop.Checking? && !inst.closed then h + [ok] else h)
  {
    var v := inst.view;
    if inst.loop.Checking? {
      CheckTracks(v, h, ok);
    } else if inst.loop.Discovering? {
      ModelsDoNotMatter(h, v.models, models);
    } else if inst.loop.Initializing? {
      assert After(Ready(models), []) == Ready(models);
    }
  }

  lemma StepTracks(s: World, e: Event, i: nat, h: seq<bool>)
    requires Inv(s) && ViewsOk(s) && Enabled(s, e) && i < |s.insts| && Tracked(s.insts[i], h)
    ensures Tracked(Apply(s, e).insts[i], if Counts(s, e, i) then h + [e.ok] else h)
  {
    StepLoopOf(s, e, i);
    assert ViewOk(s.insts[i]);
    if e.Answer? && e.i == i { AnswerTracks(s.insts[i], h, e.ok, e.models); }
  }

  lemma NewIsTracked(s: World, e: Event)
    requires Enabled(s, e) && |Apply(s, e).insts| > |s.insts|
    ensures |Apply(s, e).insts| == |s.insts| + 1 && Tracked(Apply(s, e).insts[|s.insts|], [])
  {
  }

  /** The same of an instance that may not be there yet. */
  ghost predicate TrackedAt(s: World, i: nat, h: seq<bool>) {
    if i < |s.insts| then Tracked(s.insts[i], h) else h == []
  }

  function NewAnswer(s: World, e: Event, i: nat): (r: seq<bool>) { if Counts(s, e, i) then [e.ok] else [] }

  lemma EventTracks(s: World, e: Event, i: nat, h: seq<bool>)
    requires Inv(s) && ViewsOk(s) && Enabled(s, e) && TrackedAt(s, i, h)
    ensures TrackedAt(Apply(s, e), i, h + NewAnswer(s, e, i))
  {
    assert h + [] == h;
    if i < |s.insts| {
      StepTracks(s, e, i, h);
    } else if i < |Apply(s, e).insts| {
      NewIsTracked(s, e);
    }
  }

  lemma {:induction false} RunTracks(s: World, events: seq<Event>, t: World, i: nat, h: seq<bool>)
    requires Inv(s) && ViewsOk(s) && Runs(s, events, t) && TrackedAt(s, i, h)
    ensures TrackedAt(t, i, h + Answers(s, events, t, i))
    decreases |events|
  {
    if events == [] {
      assert h + [] == h;
    } else {
      var e, next := events[0], Apply(s, events[0]);
      EventKeepsInv(s, e);
      StepKeepsViews(s, e);
      EventTracks(s, e, i, h);
      RunTracks(next, events[1..], t, i, h + NewAnswer(s, e, i));
      Assoc(h, NewAnswer(s, e, i), Answers(next, events[1..], t, i));
    }
  }

  /** In every run, an instance that is initialized is unhealthy exactly when the last run
      of three failures among its own checks came after the last run of two successes; its
      counters are the trailing runs; and its changes are paid for by its checks. */
  lemma HealthFollowsOwnChecks(events: seq<Event>, s: World, i: nat)
    requires Runs(START, events, s) && i < |s.insts|
    ensures var v, h := s.insts[i].view, Answers(START, events, s, i);
      if v.pending then h == [] && v.state.Unhealthy?
      else
        && (v.state.Unhealthy? <==> LastWasDown(h))
        && v.failures == Trailing(h, false) && v.successes == Trailing(h, true)
        && 3 * Downs(v.models, h) + 2 * Ups(v.models, h) <= |h|
  {
    var v, h := s.insts[i].view, Answers(START, events, s, i);
    RunTracks(START, events, s, i, []);
    RunKeepsInv(START, events, s);
    RunKeepsViews(START, events, s);
    assert ViewOk(s.insts[i]);
    assert [] + h == h;
    StateIsHistory(v.models, h);
    Counters(v.models, h);
    ChangesArePaidFor(v.models, h);
  }
}
