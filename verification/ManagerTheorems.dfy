/**
 What holds in every run of the manager, whatever the interleaving: each Runtime
 is closed at most once and never under a running loop, none is lost, a closed
 manager stays empty, an id is never briefly missing, and every call can finish.
 */
module ManagerTheorems {
  import opened Options
  import opened Health
  import opened Manager

  /** `events` lead from `s` to `t`. */
  ghost predicate Runs(s: World, events: seq<Event>, t: World)
    decreases |events|
  {
    if events == [] then t == s
    else Enabled(s, events[0]) && Runs(Apply(s, events[0]), events[1..], t)
  }

  lemma {:induction false} RunKeepsInv(s: World, events: seq<Event>, t: World)
    requires Inv(s) && Runs(s, events, t)
    ensures Inv(t)
    decreases |events|
  {
    if events != [] {
      EventKeepsInv(s, events[0]);
      RunKeepsInv(Apply(s, events[0]), events[1..], t);
    }
  }

  // ---------------------------------------------------------------- safety over whole runs

  predicate InTable(s: World, i: nat) {
    exists id :: id in s.table && s.table[id] == i
  }

  /** Under every interleaving a Runtime is closed at most once, and one that was
      ever registered only after its scheduling loop has exited; until then it is in
      the table under its own id or in the hands of exactly one call. */
  lemma NeverClosedTwice(events: seq<Event>, s: World, i: nat)
    requires Runs(START, events, s) && i < |s.insts|
    ensures s.insts[i].closes <= 1
    ensures s.insts[i].closes == 1 && s.insts[i].registered ==> s.insts[i].loop.Exited?
    ensures s.insts[i].closes == 1 ==> !InTable(s, i) && forall k :: 0 <= k < |s.ops| ==> !Owns(s.ops[k], i)
    ensures s.insts[i].closes == 0 && !InTable(s, i) ==> exists k :: 0 <= k < |s.ops| && Owns(s.ops[k], i)
    ensures forall j, k :: 0 <= j < |s.ops| && 0 <= k < |s.ops| && Owns(s.ops[j], i) && Owns(s.ops[k], i) ==> j == k
  {
    RunKeepsInv(START, events, s);
    assert InstOk(s, i);
    forall k | 0 <= k < |s.ops| && Owns(s.ops[k], i) ensures s.insts[i].holder == Caller(k) {
      assert OpOk(s, k);
    }
  }

  predicate Quiescent(s: World) {
    forall k :: 0 <= k < |s.ops| ==> s.ops[k].Finished?
  }

  /** When no call is in flight, every Runtime ever created is registered under its
      id and open, or not registered and closed exactly once. */
  lemma NothingIsLost(events: seq<Event>, s: World, i: nat)
    requires Runs(START, events, s) && Quiescent(s) && i < |s.insts|
    ensures if InTable(s, i) then s.insts[i].id in s.table && s.table[s.insts[i].id] == i && s.insts[i].closes == 0 && !s.insts[i].loop.Exited?
            else s.insts[i].closes == 1
  {
    RunKeepsInv(START, events, s);
    assert InstOk(s, i);
  }

  /** Once the manager is closed its table stays empty. */
  lemma {:induction false} ClosedForever(s: World, events: seq<Event>, t: World)
    requires Inv(s) && s.closed && Runs(s, events, t)
    ensures t.closed && t.table == map[]
    decreases |events|
  {
    if events != [] {
      var s' := Apply(s, events[0]);
      EventKeepsInv(s, events[0]);
      StepStaysClosed(s, events[0]);
      ClosedForever(s', events[1..], t);
    }
  }

  lemma StepStaysClosed(s: World, e: Event)
    requires Enabled(s, e) && s.closed
    ensures Apply(s, e).closed
  {
  }

  /** A registered id disappears only by a Remove of that id or by Close; in
      particular a Replace goes from the old instance to the new one in one step. */
  lemma IdsDisappearOnlyByRemoval(s: World, e: Event, id: string)
    requires Enabled(s, e) && id in s.table && id !in Apply(s, e).table
    ensures (e.Go? && s.ops[e.k] == RemoveTake(id)) || e.Take?
  {
  }

  lemma ReplaceSwapsAtOnce(s: World, k: nat)
    requires Inv(s) && Enabled(s, Go(k)) && s.ops[k].ReplaceSwap? && !s.closed
    ensures var s' := Apply(s, Go(k));
      var i := s.ops[k].inst;
      var id := s.insts[i].id;
      && id in s'.table && s'.table[id] == i
      && (forall other :: other in s.table && other != id ==> other in s'.table && s'.table[other] == s.table[other])
      && (id in s.table ==> s.table[id] != i && s'.ops[k] == ReplaceStart(i, [s.table[id]]))
  {
    assert OpOk(s, k) && Owns(s.ops[k], s.ops[k].inst);
  }

  /** What an instance publishes never changes once its closed flag is set. */
  lemma {:induction false} FrozenOnceClosed(s: World, events: seq<Event>, t: World, i: nat)
    requires Inv(s) && Runs(s, events, t) && i < |s.insts| && s.insts[i].closed
    ensures i < |t.insts| && t.insts[i].closed && t.insts[i].view == s.insts[i].view
    decreases |events|
  {
    if events != [] {
      EventKeepsInv(s, events[0]);
      StepFrozen(s, events[0], i);
      FrozenOnceClosed(Apply(s, events[0]), events[1..], t, i);
    }
  }

  lemma StepFrozen(s: World, e: Event, i: nat)
    requires Inv(s) && Enabled(s, e) && i < |s.insts| && s.insts[i].closed
    ensures Apply(s, e).insts[i].closed && Apply(s, e).insts[i].view == s.insts[i].view
  {
    StepLoopOf(s, e, i);
    if e.Tick? || e.Answer? || e.Exit? {
      assert InstOk(s, e.i);
      LoopStepSound(s, e);
    }
  }

  /** What a call may do to an instance: its view stays, and its loop can only be started. */
  predicate Handled(before: Inst, now: Inst) {
    && now.id == before.id && now.view == before.view
    && (now.loop == before.loop || now.loop == Idle)
    && (before.closed ==> now.closed)
  }

  lemma GoingHandles(s: World, k: nat, i: nat)
    requires Enabled(s, Go(k)) && i < |s.insts|
    ensures Handled(s.insts[i], Going(s, k).insts[i])
  {
    match s.ops[k]
    case AddRegister(j) => PublishHandles(s, k, j, i);
    case ReplaceSwap(j) => PublishHandles(s, k, j, i);
    case _ =>
  }

  lemma PublishHandles(s: World, k: nat, j: nat, i: nat)
    requires k < |s.ops| && j < |s.insts| && i < |s.insts|
    ensures |Publish(s, k, j).insts| == |s.insts| && Handled(s.insts[i], Publish(s, k, j).insts[i])
  {
  }

  /** Only a loop's own events change what its instance publishes. */
  lemma StepLoopOf(s: World, e: Event, i: nat)
    requires Enabled(s, e) && i < |s.insts|
    ensures if (e.Tick? || e.Answer? || e.Exit?) && e.i == i then Apply(s, e).insts[i] == LoopStep(s, e)
            else Handled(s.insts[i], Apply(s, e).insts[i])
  {
    match e
    case Go(k) => GoingHandles(s, k, i);
    case _ =>
  }

  // ---------------------------------------------------------------- what is published

  /** Pending instances are unhealthy, uncounted and have no models, and each loop is
      in a call that fits its instance. */
  ghost predicate ViewsOk(s: World) {
    forall i :: 0 <= i < |s.insts| ==> ViewOk(s.insts[i])
  }

  predicate ViewOk(inst: Inst) {
    && Consistent(inst.view)
    && (inst.loop.Checking? || inst.loop.Discovering? ==> !inst.view.pending)
    && (inst.loop.Initializing? ==> inst.view.pending)
  }

  lemma LoopKeepsView(inst: Inst, ok: bool, models: seq<string>, health: bool)
    requires ViewOk(inst)
    ensures ViewOk(Answered(inst, ok, models)) && (inst.loop.Idle? ==> ViewOk(Ticked(inst, health)))
    ensures var v, w := inst.view, Answered(inst, ok, models).view;
      && (!v.pending ==> !w.pending)
      && (v.pending && w != v ==> w == Initialized(v, models))
  {
  }

  lemma StepKeepsViews(s: World, e: Event)
    requires Inv(s) && ViewsOk(s) && Enabled(s, e)
    ensures ViewsOk(Apply(s, e))
  {
    var s' := Apply(s, e);
    forall i | 0 <= i < |s'.insts| ensures ViewOk(s'.insts[i]) {
      if i < |s.insts| {
        assert ViewOk(s.insts[i]);
        StepLoopOf(s, e, i);
        match e {
          case Tick(j, health) => LoopKeepsView(s.insts[i], false, [], health);
          case Answer(j, ok, models) => LoopKeepsView(s.insts[i], ok, models, false);
          case _ =>
        }
      } else {
        NewView(s, e);
      }
    }
  }

  lemma NewView(s: World, e: Event)
    requires Enabled(s, e) && |Apply(s, e).insts| > |s.insts|
    ensures |Apply(s, e).insts| == |s.insts| + 1 && ViewOk(Apply(s, e).insts[|s.insts|])
  {
  }

  lemma {:induction false} RunKeepsViews(s: World, events: seq<Event>, t: World)
    requires Inv(s) && ViewsOk(s) && Runs(s, events, t)
    ensures ViewsOk(t)
    decreases |events|
  {
    if events != [] {
      EventKeepsInv(s, events[0]);
      StepKeepsViews(s, events[0]);
      RunKeepsViews(Apply(s, events[0]), events[1..], t);
    }
  }

  /** In every run a pending instance shows no models and is unhealthy, and the step
      that ends its pending state makes it healthy and publishes its models at once. */
  lemma ModelsComeWithHealth(events: seq<Event>, s: World, e: Event, i: nat)
    requires Runs(START, events, s) && Enabled(s, e) && i < |s.insts| && s.insts[i].view.pending
    ensures s.insts[i].view.models == [] && s.insts[i].view.state.Unhealthy?
    ensures var v := Apply(s, e).insts[i].view;
      v == s.insts[i].view || (e.Answer? && e.i == i && e.ok && v == Ready(e.models))
  {
    RunKeepsInv(START, events, s);
    RunKeepsViews(START, events, s);
    assert ViewOk(s.insts[i]);
    StepLoopOf(s, e, i);
  }
}
