/**
 What each call of the manager comes to, in every run and whatever comes in between:
 Add and Replace register what they created or are refused for a reason, Remove, Replace
 and Close see the instances they take out closed, and a loop does the checks it wakes
 for.
 */
module ManagerCalls {
  import opened Options
  import opened Health
  import opened Manager
  import ManagerTheorems

  /** A run of a new manager, with all its states. */
  ghost predicate Trace(states: seq<World>, events: seq<Event>)
    decreases |events|
  {
    && |states| == |events| + 1
    && if events == [] then states[0] == START
       else
         var n := |events| - 1;
         Trace(states[..n + 1], events[..n]) && Enabled(states[n], events[n]) && states[n + 1] == Apply(states[n], events[n])
  }

  /** Every state follows from the one before, and all are sound. */
  lemma {:induction false} TraceAt(states: seq<World>, events: seq<Event>, n: nat)
    requires Trace(states, events) && n < |states|
    ensures Inv(states[n])
    ensures n < |events| ==>
      Enabled(states[n], events[n]) && states[n + 1] == Apply(states[n], events[n]) && Inv(states[n + 1])
    decreases |events|
  {
    if events != [] {
      var m := |events| - 1;
      if n < m {
        TraceAt(states[..m + 1], events[..m], n);
      } else {
        TraceAt(states[..m + 1], events[..m], m);
        EventKeepsInv(states[m], events[m]);
      }
    }
  }

  lemma TraceStep(states: seq<World>, events: seq<Event>, n: nat)
    requires Trace(states, events) && n < |events|
    ensures Enabled(states[n], events[n]) && states[n + 1] == Apply(states[n], events[n])
  {
    TraceAt(states, events, n);
  }

  /** The step is one of call k's own. */
  predicate Own(e: Event, k: nat) { (e.Go? || e.Create? || e.Take?) && e.k == k }

  /** Other calls and loops leave a call where it is. */
  lemma OthersLeaveOp(s: World, e: Event, k: nat)
    requires Enabled(s, e) && k < |s.ops| && !Own(e, k)
    ensures k < |Apply(s, e).ops| && Apply(s, e).ops[k] == s.ops[k]
  {
  }

  lemma OpsStay(s: World, e: Event)
    requires Enabled(s, e)
    ensures |s.ops| <= |Apply(s, e).ops|
  {
  }

  /** What no step takes back: an instance's id, that it was registered, that its loop was
      started, and that it was closed. */
  predicate Keeps(before: Inst, now: Inst) {
    && now.id == before.id
    && (before.registered ==> now.registered)
    && (!before.loop.NotStarted? ==> !now.loop.NotStarted?)
    && before.closes <= now.closes
  }

  lemma GoKeepsInst(s: World, k: nat, i: nat)
    requires Enabled(s, Go(k)) && i < |s.insts|
    ensures Keeps(s.insts[i], Going(s, k).insts[i])
  {
    match s.ops[k]
    case AddRegister(j) => PublishKeepsInst(s, k, j, i);
    case ReplaceSwap(j) => PublishKeepsInst(s, k, j, i);
    case _ =>
  }

  lemma PublishKeepsInst(s: World, k: nat, j: nat, i: nat)
    requires k < |s.ops| && j < |s.insts| && i < |s.insts|
    ensures |Publish(s, k, j).insts| == |s.insts| && Keeps(s.insts[i], Publish(s, k, j).insts[i])
  {
  }

  lemma StepKeepsInst(s: World, e: Event, i: nat)
    requires Enabled(s, e) && i < |s.insts|
    ensures Keeps(s.insts[i], Apply(s, e).insts[i])
  {
    match e
    case Go(k) => GoKeepsInst(s, k, i);
    case _ =>
  }

  /** A new registration is a step of the call that holds the instance. */
  lemma RegisteredByOwnStep(s: World, e: Event, i: nat)
    requires Inv(s) && Enabled(s, e) && i < |s.insts| && !s.insts[i].registered && Apply(s, e).insts[i].registered
    ensures e.Go? && (s.ops[e.k] == AddRegister(i) || s.ops[e.k] == ReplaceSwap(i)) && s.insts[i].holder == Caller(e.k)
  {
    if e.Go? {
      assert OpOk(s, e.k);
      match s.ops[e.k]
      case AddRegister(j) => assert Owns(s.ops[e.k], j);
      case ReplaceSwap(j) => assert Owns(s.ops[e.k], j);
      case _ =>
    }
  }

  // ---------------------------------------------------------------- Add and Replace

  /** The call's step at which its instance enters the table: the manager is open and, for
      an Add, the id is free. */
  ghost predicate EntersAt(s: World, e: Event, t: World, k: nat, i: nat, id: string, replace: bool) {
    && e == Go(k) && k < |s.ops| && s.ops[k] == (if replace then ReplaceSwap(i) else AddRegister(i))
    && !s.closed && (replace || id !in s.table)
    && t.table == s.table[id := i]
    && i < |t.insts| && t.insts[i].id == id && t.insts[i].registered
  }

  /** The call's step at which it was refused, for the reason it returns. */
  predicate RefusedAt(s: World, e: Event, k: nat, id: string, replace: bool, why: Result) {
    match why
    case IsClosed => e == Go(k) && s.closed
    case IsDuplicate => e == Go(k) && !replace && !s.closed && id in s.table
    case NotCreated => e.Create? && e.k == k && !e.result.Accepted?
    case _ => false
  }

  ghost predicate Entered(states: seq<World>, events: seq<Event>, a: nat, j: nat, k: nat, i: nat, id: string, replace: bool)
    requires |states| == |events| + 1 && j < |states|
  {
    exists m :: a <= m < j && EntersAt(states[m], events[m], states[m + 1], k, i, id, replace)
  }

  ghost predicate Refused(states: seq<World>, events: seq<Event>, a: nat, j: nat, k: nat, id: string, replace: bool, why: Result)
    requires |states| == |events| + 1 && j < |states|
  {
    exists m :: a <= m < j && RefusedAt(states[m], events[m], k, id, replace, why)
  }

  /** None of the call's own steps has changed the table. */
  ghost predicate TableLeftAlone(states: seq<World>, events: seq<Event>, a: nat, j: nat, k: nat)
    requires |states| == |events| + 1 && j < |states|
  {
    forall m :: a <= m < j && Own(events[m], k) ==> states[m + 1].table == states[m].table
  }

  /** Instance `i` was created by this call, with its checks passed. */
  ghost predicate Made(states: seq<World>, events: seq<Event>, a: nat, j: nat, k: nat, i: nat)
    requires |states| == |events| + 1 && j < |states|
  {
    exists m :: a <= m < j && events[m].Create? && events[m].k == k && events[m].result.Accepted? && i == |states[m].insts|
  }

  /** Where an Add or a Replace of `id` stands, with everything that led there. */
  ghost predicate Story(states: seq<World>, events: seq<Event>, a: nat, j: nat, k: nat, id: string, replace: bool)
    requires |states| == |events| + 1 && j < |states| && k < |states[j].ops|
  {
    var s := states[j];
    match s.ops[k]
    case AddReserve(x) => !replace && x == id && TableLeftAlone(states, events, a, j, k)
    case ReplaceCheck(x) => replace && x == id && TableLeftAlone(states, events, a, j, k)
    case AddCreate(x) => !replace && x == id && TableLeftAlone(states, events, a, j, k)
    case ReplaceCreate(x) => replace && x == id && TableLeftAlone(states, events, a, j, k)
    case AddRegister(i) => !replace && Waits(states, events, a, j, k, i, id)
    case ReplaceSwap(i) => replace && Waits(states, events, a, j, k, i, id)
    case Discard(i, why) => Refused(states, events, a, j, k, id, replace, why) && TableLeftAlone(states, events, a, j, k)
    case AddStart(i) => !replace && Placed(states, events, a, j, k, i, id, false)
    case ReplaceStart(i, _) => replace && Placed(states, events, a, j, k, i, id, true)
    case Mark(_, _) => replace && Installed(states, events, a, j, k, id, true)
    case Cancel(_, _) => replace && Installed(states, events, a, j, k, id, true)
    case Reap(_) => replace && Installed(states, events, a, j, k, id, true)
    case Finished(r) =>
      if r == Done then Installed(states, events, a, j, k, id, replace)
      else Refused(states, events, a, j, k, id, replace, r) && TableLeftAlone(states, events, a, j, k)
    case _ => false
  }

  ghost predicate Waits(states: seq<World>, events: seq<Event>, a: nat, j: nat, k: nat, i: nat, id: string)
    requires |states| == |events| + 1 && j < |states|
  {
    && i < |states[j].insts| && states[j].insts[i].id == id && Made(states, events, a, j, k, i)
    && TableLeftAlone(states, events, a, j, k)
  }

  ghost predicate Placed(states: seq<World>, events: seq<Event>, a: nat, j: nat, k: nat, i: nat, id: string, replace: bool)
    requires |states| == |events| + 1 && j < |states|
  {
    && Made(states, events, a, j, k, i) && Entered(states, events, a, j, k, i, id, replace)
    && i < |states[j].insts| && states[j].insts[i].id == id && states[j].insts[i].registered
  }

  /** The call's own instance has entered the table and its loop was started. */
  ghost predicate Installed(states: seq<World>, events: seq<Event>, a: nat, j: nat, k: nat, id: string, replace: bool)
    requires |states| == |events| + 1 && j < |states|
  {
    exists i: nat :: Placed(states, events, a, j, k, i, id, replace) && !states[j].insts[i].loop.NotStarted?
  }

  lemma LeftAloneGrows(states: seq<World>, events: seq<Event>, a: nat, j: nat, k: nat)
    requires Trace(states, events) && a <= j < |events| && TableLeftAlone(states, events, a, j, k)
    requires Own(events[j], k) ==> states[j + 1].table == states[j].table
    ensures TableLeftAlone(states, events, a, j + 1, k)
  {
  }

  lemma RefusedGrows(states: seq<World>, events: seq<Event>, a: nat, j: nat, k: nat, id: string, replace: bool, why: Result)
    requires Trace(states, events) && a <= j < |events|
    requires Refused(states, events, a, j, k, id, replace, why) || RefusedAt(states[j], events[j], k, id, replace, why)
    ensures Refused(states, events, a, j + 1, k, id, replace, why)
  {
  }

  lemma EnteredGrows(states: seq<World>, events: seq<Event>, a: nat, j: nat, k: nat, i: nat, id: string, replace: bool)
    requires |states| == |events| + 1 && j < |events| && Entered(states, events, a, j, k, i, id, replace)
    ensures Entered(states, events, a, j + 1, k, i, id, replace)
  {
    var m :| a <= m < j && EntersAt(states[m], events[m], states[m + 1], k, i, id, replace);
    assert a <= m < j + 1;
  }

  lemma MadeGrows(states: seq<World>, events: seq<Event>, a: nat, j: nat, k: nat, i: nat)
    requires |states| == |events| + 1 && j < |events| && Made(states, events, a, j, k, i)
    ensures Made(states, events, a, j + 1, k, i)
  {
    var m :| a <= m < j && events[m].Create? && events[m].k == k && events[m].result.Accepted? && i == |states[m].insts|;
    assert a <= m < j + 1;
  }

  lemma InstStays(states: seq<World>, events: seq<Event>, j: nat, i: nat)
    requires Trace(states, events) && j < |events| && i < |states[j].insts|
    ensures i < |states[j + 1].insts| && Keeps(states[j].insts[i], states[j + 1].insts[i])
  {
    TraceStep(states, events, j);
    StepKeepsInst(states[j], events[j], i);
  }

  lemma PlacedGrows(states: seq<World>, events: seq<Event>, a: nat, j: nat, k: nat, i: nat, id: string, replace: bool)
    requires Trace(states, events) && a <= j < |events| && Placed(states, events, a, j, k, i, id, replace)
    ensures Placed(states, events, a, j + 1, k, i, id, replace)
    ensures !states[j].insts[i].loop.NotStarted? ==> !states[j + 1].insts[i].loop.NotStarted?
  {
    InstStays(states, events, j, i);
    EnteredGrows(states, events, a, j, k, i, id, replace);
    MadeGrows(states, events, a, j, k, i);
  }

  lemma InstalledGrows(states: seq<World>, events: seq<Event>, a: nat, j: nat, k: nat, id: string, replace: bool)
    requires Trace(states, events) && a <= j < |events| && Installed(states, events, a, j, k, id, replace)
    ensures Installed(states, events, a, j + 1, k, id, replace)
  {
    var i: nat :| Placed(states, events, a, j, k, i, id, replace) && !states[j].insts[i].loop.NotStarted?;
    PlacedGrows(states, events, a, j, k, i, id, replace);
  }

  lemma WaitsGrows(states: seq<World>, events: seq<Event>, a: nat, j: nat, k: nat, i: nat, id: string)
    requires Trace(states, events) && a <= j < |events| && Waits(states, events, a, j, k, i, id) && !Own(events[j], k)
    ensures Waits(states, events, a, j + 1, k, i, id)
  {
    InstStays(states, events, j, i);
    LeftAloneGrows(states, events, a, j, k);
    MadeGrows(states, events, a, j, k, i);
  }

  /** A step of someone else. */
  lemma OthersKeepStory(states: seq<World>, events: seq<Event>, a: nat, j: nat, k: nat, id: string, replace: bool)
    requires Trace(states, events) && a <= j < |events| && k < |states[j].ops| && !Own(events[j], k)
    requires Story(states, events, a, j, k, id, replace)
    ensures k < |states[j + 1].ops| && Story(states, events, a, j + 1, k, id, replace)
  {
    TraceStep(states, events, j);
    OthersLeaveOp(states[j], events[j], k);
    var op := states[j].ops[k];
    if op.AddReserve? || op.ReplaceCheck? || op.AddCreate? || op.ReplaceCreate? {
      LeftAloneGrows(states, events, a, j, k);
    } else if op.AddRegister? || op.ReplaceSwap? {
      WaitsGrows(states, events, a, j, k, op.inst, id);
    } else if op.Discard? || (op.Finished? && op.result != Done) {
      LeftAloneGrows(states, events, a, j, k);
      RefusedGrows(states, events, a, j, k, id, replace, if op.Discard? then op.why else op.result);
    } else if op.AddStart? || op.ReplaceStart? {
      PlacedGrows(states, events, a, j, k, op.inst, id, replace);
    } else {
      InstalledGrows(states, events, a, j, k, id, replace);
    }
  }

  /** The first check. */
  lemma ReserveKeepsStory(states: seq<World>, events: seq<Event>, a: nat, j: nat, k: nat, id: string, replace: bool)
    requires Trace(states, events) && a <= j < |events| && k < |states[j].ops| && Own(events[j], k)
    requires states[j].ops[k].AddReserve? || states[j].ops[k].ReplaceCheck?
    requires Story(states, events, a, j, k, id, replace)
    ensures k < |states[j + 1].ops| && Story(states, events, a, j + 1, k, id, replace)
  {
    TraceStep(states, events, j);
    LeftAloneGrows(states, events, a, j, k);
    var op := states[j + 1].ops[k];
    if op.Finished? { RefusedGrows(states, events, a, j, k, id, replace, op.result); }
  }

  /** Creating and checking the Runtime. */
  lemma CreateKeepsStory(states: seq<World>, events: seq<Event>, a: nat, j: nat, k: nat, id: string, replace: bool)
    requires Trace(states, events) && a <= j < |events| && k < |states[j].ops| && Own(events[j], k)
    requires states[j].ops[k].AddCreate? || states[j].ops[k].ReplaceCreate?
    requires Story(states, events, a, j, k, id, replace)
    ensures k < |states[j + 1].ops| && Story(states, events, a, j + 1, k, id, replace)
  {
    TraceStep(states, events, j);
    LeftAloneGrows(states, events, a, j, k);
    if !events[j].result.Accepted? {
      RefusedGrows(states, events, a, j, k, id, replace, NotCreated);
    } else {
      assert Made(states, events, a, j + 1, k, |states[j].insts|);
    }
  }

  /** Entering the table, or being refused. */
  lemma RegisterKeepsStory(states: seq<World>, events: seq<Event>, a: nat, j: nat, k: nat, id: string, replace: bool)
    requires Trace(states, events) && a <= j < |events| && k < |states[j].ops| && Own(events[j], k)
    requires states[j].ops[k].AddRegister? || states[j].ops[k].ReplaceSwap?
    requires Story(states, events, a, j, k, id, replace)
    ensures k < |states[j + 1].ops| && Story(states, events, a, j + 1, k, id, replace)
  {
    TraceStep(states, events, j);
    var s, t := states[j], states[j + 1];
    var i := s.ops[k].inst;
    if t.ops[k].Discard? {
      LeftAloneGrows(states, events, a, j, k);
      RefusedGrows(states, events, a, j, k, id, replace, t.ops[k].why);
    } else {
      var c :| a <= c < j && events[c].Create? && events[c].k == k && events[c].result.Accepted? && i == |states[c].insts|;
      assert EntersAt(s, events[j], t, k, i, id, replace);
      assert Made(states, events, a, j + 1, k, i) && Entered(states, events, a, j + 1, k, i, id, replace);
    }
  }

  /** Starting the loop, closing what is discarded, stopping what was displaced. */
  lemma DiscardKeepsStory(states: seq<World>, events: seq<Event>, a: nat, j: nat, k: nat, id: string, replace: bool)
    requires Trace(states, events) && a <= j < |events| && k < |states[j].ops| && Own(events[j], k) && states[j].ops[k].Discard?
    requires Story(states, events, a, j, k, id, replace)
    ensures k < |states[j + 1].ops| && Story(states, events, a, j + 1, k, id, replace)
  {
    TraceStep(states, events, j);
    LeftAloneGrows(states, events, a, j, k);
    RefusedGrows(states, events, a, j, k, id, replace, states[j].ops[k].why);
  }

  lemma StartKeepsStory(states: seq<World>, events: seq<Event>, a: nat, j: nat, k: nat, id: string, replace: bool)
    requires Trace(states, events) && a <= j < |events| && k < |states[j].ops| && Own(events[j], k)
    requires states[j].ops[k].AddStart? || states[j].ops[k].ReplaceStart?
    requires Story(states, events, a, j, k, id, replace)
    ensures k < |states[j + 1].ops| && Story(states, events, a, j + 1, k, id, replace)
  {
    TraceStep(states, events, j);
    var i := states[j].ops[k].inst;
    PlacedGrows(states, events, a, j, k, i, id, replace);
    StartedNow(states[j], events[j], k);
    assert Installed(states, events, a, j + 1, k, id, replace);
  }

  lemma StartedNow(s: World, e: Event, k: nat)
    requires Enabled(s, e) && Own(e, k) && k < |s.ops| && (s.ops[k].AddStart? || s.ops[k].ReplaceStart?)
    ensures s.ops[k].inst < |Apply(s, e).insts| && Apply(s, e).insts[s.ops[k].inst].loop.Idle?
    ensures k < |Apply(s, e).ops|
    ensures var op := Apply(s, e).ops[k]; op == Finished(Done) || (s.ops[k].ReplaceStart? && op.Mark?)
  {
  }

  lemma StoppingGoesOn(s: World, e: Event, k: nat)
    requires Enabled(s, e) && Own(e, k) && k < |s.ops| && (s.ops[k].Mark? || s.ops[k].Cancel? || s.ops[k].Reap?)
    ensures k < |Apply(s, e).ops|
    ensures var op := Apply(s, e).ops[k]; op.Mark? || op.Cancel? || op.Reap? || op == Finished(Done)
  {
  }

  lemma StoppingKeepsStory(states: seq<World>, events: seq<Event>, a: nat, j: nat, k: nat, id: string, replace: bool)
    requires Trace(states, events) && a <= j < |events| && k < |states[j].ops| && Own(events[j], k)
    requires states[j].ops[k].Mark? || states[j].ops[k].Cancel? || states[j].ops[k].Reap?
    requires Story(states, events, a, j, k, id, replace)
    ensures k < |states[j + 1].ops| && Story(states, events, a, j + 1, k, id, replace)
  {
    TraceStep(states, events, j);
    InstalledGrows(states, events, a, j, k, id, replace);
    StoppingGoesOn(states[j], events[j], k);
  }

  lemma StoryStep(states: seq<World>, events: seq<Event>, a: nat, j: nat, k: nat, id: string, replace: bool)
    requires Trace(states, events) && a <= j < |events| && k < |states[j].ops|
    requires Story(states, events, a, j, k, id, replace)
    ensures k < |states[j + 1].ops| && Story(states, events, a, j + 1, k, id, replace)
  {
    TraceStep(states, events, j);
    if !Own(events[j], k) {
      OthersKeepStory(states, events, a, j, k, id, replace);
    } else {
      OwnOps(states[j], events[j], k);
      var op := states[j].ops[k];
      if op.AddReserve? || op.ReplaceCheck? {
        ReserveKeepsStory(states, events, a, j, k, id, replace);
      } else if op.AddCreate? || op.ReplaceCreate? {
        CreateKeepsStory(states, events, a, j, k, id, replace);
      } else if op.AddRegister? || op.ReplaceSwap? {
        RegisterKeepsStory(states, events, a, j, k, id, replace);
      } else if op.Discard? {
        DiscardKeepsStory(states, events, a, j, k, id, replace);
      } else if op.AddStart? || op.ReplaceStart? {
        StartKeepsStory(states, events, a, j, k, id, replace);
      } else {
        StoppingKeepsStory(states, events, a, j, k, id, replace);
      }
    }
  }

  /** A call that has returned takes no step. */
  lemma OwnOps(s: World, e: Event, k: nat)
    requires Enabled(s, e) && Own(e, k) && k < |s.ops|
    ensures !s.ops[k].Finished?
  {
  }

  /** Every Add and every Replace, at every moment of every run: it returns nil exactly when
      a Runtime it created, whose checks passed, entered the table under its id while the
      manager was open (and, for an Add, the id was free) and its loop was started; every
      refusal has the reason returned, and then no step of the call touched the table. */
  lemma {:induction false} CallIsAccountedFor(states: seq<World>, events: seq<Event>, a: nat, j: nat, k: nat, id: string, replace: bool)
    requires Trace(states, events) && a <= j < |states| && k < |states[a].ops|
    requires states[a].ops[k] == if replace then ReplaceCheck(id) else AddReserve(id)
    ensures k < |states[j].ops| && Story(states, events, a, j, k, id, replace)
    decreases j
  {
    if j > a {
      CallIsAccountedFor(states, events, a, j - 1, k, id, replace);
      StoryStep(states, events, a, j - 1, k, id, replace);
    }
  }

  // ---------------------------------------------------------------- created and closed unregistered

  /** The register step of call k found the manager closed or, for an Add, the id taken. */
  predicate TurnedAway(s: World, e: Event, k: nat, i: nat) {
    && e == Go(k) && k < |s.ops| && i < |s.insts|
    && ((s.ops[k] == AddRegister(i) && (s.closed || s.insts[i].id in s.table)) || (s.ops[k] == ReplaceSwap(i) && s.closed))
  }

  /** The call has created the instance and not yet tried to register it. */
  predicate Undecided(s: World, k: nat, i: nat) {
    && i < |s.insts| && k < |s.ops|
    && !s.insts[i].registered && s.insts[i].closes == 0 && (s.ops[k] == AddRegister(i) || s.ops[k] == ReplaceSwap(i))
  }

  lemma UndecidedStep(s: World, e: Event, k: nat, i: nat)
    requires Inv(s) && Enabled(s, e) && Inv(Apply(s, e)) && Undecided(s, k, i)
    ensures Apply(s, e).insts[i].registered || Undecided(Apply(s, e), k, i) || TurnedAway(s, e, k, i)
  {
    var t := Apply(s, e);
    OpsStay(s, e);
    if !Own(e, k) && !t.insts[i].registered {
      OthersLeaveOp(s, e, k);
      assert OpOk(t, k) && Owns(t.ops[k], i) && InstOk(t, i);
    }
  }

  ghost predicate Fate(states: seq<World>, events: seq<Event>, c: nat, j: nat, k: nat, i: nat)
    requires |states| == |events| + 1 && j < |states|
  {
    && i < |states[j].insts|
    && (|| states[j].insts[i].registered
        || Undecided(states[j], k, i)
        || exists m :: c < m < j && TurnedAway(states[m], events[m], k, i))
  }

  lemma FateStep(states: seq<World>, events: seq<Event>, c: nat, j: nat, k: nat, i: nat)
    requires Trace(states, events) && c < j < |events| && Fate(states, events, c, j, k, i)
    ensures Fate(states, events, c, j + 1, k, i)
  {
    TraceAt(states, events, j);
    StepKeepsInst(states[j], events[j], i);
    if states[j].insts[i].registered {
    } else if Undecided(states[j], k, i) {
      UndecidedStep(states[j], events[j], k, i);
      if TurnedAway(states[j], events[j], k, i) { assert c < j < j + 1; }
    } else {
      var m :| c < m < j && TurnedAway(states[m], events[m], k, i);
      assert c < m < j + 1;
    }
  }

  /** A Runtime whose checks passed is closed without ever having been registered only if,
      when its turn came, the manager was closed or, for an Add, its id was taken. */
  lemma {:induction false} AcceptedIsRegistered(states: seq<World>, events: seq<Event>, c: nat, j: nat, k: nat)
    requires Trace(states, events) && c < j < |states|
    requires events[c].Create? && events[c].k == k && events[c].result.Accepted?
    ensures Fate(states, events, c, j, k, |states[c].insts|)
    decreases j
  {
    if j == c + 1 {
      TraceAt(states, events, c);
      NewIsUndecided(states[c], events[c]);
    } else {
      AcceptedIsRegistered(states, events, c, j - 1, k);
      FateStep(states, events, c, j - 1, k, |states[c].insts|);
    }
  }

  lemma NewIsUndecided(s: World, e: Event)
    requires Enabled(s, e) && e.Create? && e.result.Accepted?
    ensures Undecided(Apply(s, e), e.k, |s.insts|)
  {
  }

  /** The call has an instance whose checks failed, and closes it. */
  predicate Doomed(s: World, k: nat, i: nat) {
    && i < |s.insts| && k < |s.ops| && !s.insts[i].registered
    && (s.ops[k] == Discard(i, NotCreated) || (s.insts[i].closes == 1 && s.ops[k] == Finished(NotCreated)))
  }

  lemma DoomedStep(s: World, e: Event, k: nat, i: nat)
    requires Inv(s) && Enabled(s, e) && Inv(Apply(s, e)) && Doomed(s, k, i)
    ensures Doomed(Apply(s, e), k, i)
  {
    var t := Apply(s, e);
    OpsStay(s, e);
    StepKeepsInst(s, e, i);
    assert OpOk(s, k) && InstOk(s, i) && InstOk(t, i);
    if s.ops[k].Discard? { assert Owns(s.ops[k], i); }
    if t.insts[i].registered { RegisteredByOwnStep(s, e, i); }
    if !Own(e, k) { OthersLeaveOp(s, e, k); } else { OwnOps(s, e, k); }
  }

  /** A Runtime whose checks failed is never registered, and is closed when the call ends. */
  lemma {:induction false} RejectedIsClosed(states: seq<World>, events: seq<Event>, c: nat, j: nat, k: nat)
    requires Trace(states, events) && c < j < |states|
    requires events[c].Create? && events[c].k == k && events[c].result.Rejected?
    ensures Doomed(states[j], k, |states[c].insts|)
    decreases j
  {
    if j == c + 1 {
      TraceAt(states, events, c);
      NewIsDoomed(states[c], events[c]);
    } else {
      RejectedIsClosed(states, events, c, j - 1, k);
      DoomedNext(states, events, j - 1, k, |states[c].insts|);
    }
  }

  lemma DoomedNext(states: seq<World>, events: seq<Event>, n: nat, k: nat, i: nat)
    requires Trace(states, events) && n < |events| && Doomed(states[n], k, i)
    ensures Doomed(states[n + 1], k, i)
  {
    TraceAt(states, events, n);
    DoomedStep(states[n], events[n], k, i);
  }

  lemma NewIsDoomed(s: World, e: Event)
    requires Enabled(s, e) && e.Create? && e.result.Rejected?
    ensures Doomed(Apply(s, e), e.k, |s.insts|)
  {
  }

  // ---------------------------------------------------------------- what is taken out

  /** The call is stopping instances; `i` is among those still to be closed, or is closed. */
  predicate Stops(s: World, k: nat, i: nat) {
    && k < |s.ops| && i < |s.insts|
    && match s.ops[k]
       case ReplaceStart(_, victims) => i in victims || s.insts[i].closes == 1
       case Mark(victims, _) => i in victims || s.insts[i].closes == 1
       case Cancel(victims, _) => i in victims || s.insts[i].closes == 1
       case Reap(victims) => i in victims || s.insts[i].closes == 1
       case Finished(r) => r == Done && s.insts[i].closes == 1
       case _ => false
  }

  lemma StopsStep(s: World, e: Event, k: nat, i: nat)
    requires Inv(s) && Enabled(s, e) && Inv(Apply(s, e)) && Stops(s, k, i)
    ensures Stops(Apply(s, e), k, i)
  {
    StepKeepsInst(s, e, i);
    OpsStay(s, e);
    assert InstOk(Apply(s, e), i);
    if !Own(e, k) { OthersLeaveOp(s, e, k); }
  }

  /** An instance a call takes out is closed, exactly once, by the time the call returns,
      and the call returns nil. */
  lemma {:induction false} TakenOutIsClosed(states: seq<World>, events: seq<Event>, a: nat, j: nat, k: nat, i: nat)
    requires Trace(states, events) && a <= j < |states| && Stops(states[a], k, i)
    ensures Stops(states[j], k, i)
    decreases j
  {
    if j > a {
      TakenOutIsClosed(states, events, a, j - 1, k, i);
      StopsNext(states, events, j - 1, k, i);
    }
  }

  lemma StopsNext(states: seq<World>, events: seq<Event>, n: nat, k: nat, i: nat)
    requires Trace(states, events) && n < |events| && Stops(states[n], k, i)
    ensures Stops(states[n + 1], k, i)
  {
    TraceAt(states, events, n);
    StopsStep(states[n], events[n], k, i);
  }

  /** Instance `i` is closed if the call has returned, and the call returned nil. */
  predicate ClosedAtEnd(s: World, k: nat, i: nat) {
    Stops(s, k, i) && (s.ops[k].Finished? ==> s.ops[k] == Finished(Done) && s.insts[i].closes == 1)
  }

  /** Remove's step. */
  lemma RemoveStep(s: World, k: nat, id: string)
    requires Inv(s) && Enabled(s, Go(k)) && s.ops[k] == RemoveTake(id)
    ensures var t := Apply(s, Go(k));
      && t.table == s.table - {id} && t.closed == s.closed
      && (id !in s.table ==> t == s.(ops := s.ops[k := Finished(IsMissing)]))
      && (id in s.table ==> Stops(t, k, s.table[id]))
  {
  }

  /** Replace's swap, when it displaces an instance. */
  lemma SwapStep(s: World, k: nat, id: string)
    requires Inv(s) && Enabled(s, Go(k)) && s.ops[k].ReplaceSwap? && !s.closed
    requires s.insts[s.ops[k].inst].id == id && id in s.table
    ensures Stops(Apply(s, Go(k)), k, s.table[id])
  {
  }

  /** Close's first step. */
  lemma CloseStep(s: World, e: Event, k: nat, id: string)
    requires Inv(s) && Enabled(s, e) && Own(e, k) && k < |s.ops| && s.ops[k] == CloseTake
    ensures var t := Apply(s, e);
      && t.closed && t.table == map[]
      && (s.closed ==> t == s.(ops := s.ops[k := Finished(Done)]))
      && (id in s.table ==> Stops(t, k, s.table[id]))
  {
    if id in s.table { assert s.table[id] in s.table.Values; }
  }

  /** Remove: a present id is gone at once and no other id is, and its instance is closed
      when the call returns nil; a missing id is reported and nothing is changed. */
  lemma RemoveTakesOut(states: seq<World>, events: seq<Event>, a: nat, j: nat, k: nat, id: string)
    requires Trace(states, events) && a < j < |states| && k < |states[a].ops|
    requires states[a].ops[k] == RemoveTake(id) && events[a] == Go(k)
    ensures var s, t := states[a], states[a + 1];
      && t.table == s.table - {id} && t.closed == s.closed
      && (id !in s.table ==> t == s.(ops := s.ops[k := Finished(IsMissing)]))
      && (id in s.table ==> ClosedAtEnd(states[j], k, s.table[id]))
  {
    var s := states[a];
    TraceAt(states, events, a);
    RemoveStep(s, k, id);
    if id in s.table { TakenOutIsClosed(states, events, a + 1, j, k, s.table[id]); }
  }

  /** Replace: the instance displaced by the swap is closed when the call returns nil. */
  lemma ReplaceClosesTheOld(states: seq<World>, events: seq<Event>, a: nat, j: nat, k: nat, id: string)
    requires Trace(states, events) && a < j < |states| && k < |states[a].ops| && events[a] == Go(k)
    requires states[a].ops[k].ReplaceSwap? && !states[a].closed && id in states[a].table
    requires states[a].ops[k].inst < |states[a].insts| && states[a].insts[states[a].ops[k].inst].id == id
    ensures ClosedAtEnd(states[j], k, states[a].table[id])
  {
    TraceAt(states, events, a);
    SwapStep(states[a], k, id);
    TakenOutIsClosed(states, events, a + 1, j, k, states[a].table[id]);
  }

  /** Close: the table is empty and the manager closed at once, and every instance that was
      in it is closed when the call returns; a second Close returns nil and changes nothing. */
  lemma CloseTakesAllOut(states: seq<World>, events: seq<Event>, a: nat, j: nat, k: nat, id: string)
    requires Trace(states, events) && a < j < |states| && k < |states[a].ops|
    requires states[a].ops[k] == CloseTake && Own(events[a], k)
    ensures var s, t := states[a], states[a + 1];
      && t.closed && t.table == map[]
      && (s.closed ==> t == s.(ops := s.ops[k := Finished(Done)]))
      && (id in s.table ==> ClosedAtEnd(states[j], k, s.table[id]))
  {
    var s := states[a];
    TraceAt(states, events, a);
    CloseStep(s, events[a], k, id);
    if id in s.table { TakenOutIsClosed(states, events, a + 1, j, k, s.table[id]); }
  }

  // ---------------------------------------------------------------- a call left to itself

  /** Add on an open manager with the id free, its Runtime accepted: after the call's own
      four steps the id is in the table, with a fresh instance of that view, its loop
      running, and the call has returned nil. */
  lemma AddAlone(s: World, k: nat, id: string, view: View)
    requires Inv(s) && !s.closed && id !in s.table && k < |s.ops| && s.ops[k] == AddReserve(id) && FreshView(view)
    ensures Enabled(s, Go(k))
    ensures var s1 := Apply(s, Go(k)); Enabled(s1, Create(k, Accepted(view)))
    ensures var s2 := Apply(Apply(s, Go(k)), Create(k, Accepted(view))); Enabled(s2, Go(k)) && Enabled(Apply(s2, Go(k)), Go(k))
    ensures var t := Apply(Apply(Apply(Apply(s, Go(k)), Create(k, Accepted(view))), Go(k)), Go(k));
      && t.table == s.table[id := |s.insts|] && t.ops[k] == Finished(Done)
      && |t.insts| == |s.insts| + 1 && t.insts[..|s.insts|] == s.insts
      && var inst := t.insts[|s.insts|];
        inst.id == id && inst.view == view && inst.loop == Idle && inst.registered && inst.closes == 0 && !inst.closed && !inst.cancelled
  {
    var s1 := Apply(s, Go(k));
    var s2 := Apply(s1, Create(k, Accepted(view)));
    var s3 := Apply(s2, Go(k));
    assert s2.insts[..|s.insts|] == s.insts;
    assert s3.insts[..|s.insts|] == s.insts;
  }

  lemma RunsOn(s: World, e: Event, rest: seq<Event>, t: World)
    requires Enabled(s, e) && ManagerTheorems.Runs(Apply(s, e), rest, t)
    ensures ManagerTheorems.Runs(s, [e] + rest, t)
  {
    assert ([e] + rest)[1..] == rest;
  }

  /** The same from the call on. */
  lemma AddRegisters(s: World, id: string, view: View) returns (t: World)
    requires Inv(s) && !s.closed && id !in s.table && FreshView(view)
    ensures var k := |s.ops|;
      ManagerTheorems.Runs(s, [Call(AddReserve(id))] + ([Go(k)] + ([Create(k, Accepted(view))] + ([Go(k)] + ([Go(k)] + [])))), t)
    ensures t.table == s.table[id := |s.insts|] && |t.ops| == |s.ops| + 1 && t.ops[|s.ops|] == Finished(Done)
    ensures |t.insts| == |s.insts| + 1 && t.insts[..|s.insts|] == s.insts
    ensures var inst := t.insts[|s.insts|];
      inst.id == id && inst.view == view && inst.loop == Idle && inst.closes == 0
  {
    var k := |s.ops|;
    var s0 := Apply(s, Call(AddReserve(id)));
    CallKeepsInv(s, AddReserve(id));
    AddAlone(s0, k, id, view);
    var s1 := Apply(s0, Go(k));
    var s2 := Apply(s1, Create(k, Accepted(view)));
    var s3 := Apply(s2, Go(k));
    t := Apply(s3, Go(k));
    RunsOn(s3, Go(k), [], t);
    RunsOn(s2, Go(k), [Go(k)] + [], t);
    RunsOn(s1, Create(k, Accepted(view)), [Go(k)] + ([Go(k)] + []), t);
    RunsOn(s0, Go(k), [Create(k, Accepted(view))] + ([Go(k)] + ([Go(k)] + [])), t);
    RunsOn(s, Call(AddReserve(id)), [Go(k)] + ([Create(k, Accepted(view))] + ([Go(k)] + ([Go(k)] + []))), t);
  }

  // ---------------------------------------------------------------- every call made is kept

  function Calls(events: seq<Event>): (r: seq<Op>) {
    if events == [] then []
    else
      var last := events[|events| - 1];
      Calls(events[..|events| - 1]) + (if last.Call? then [last.op] else [])
  }

  lemma CountsCalls(s: World, e: Event)
    requires Enabled(s, e)
    ensures |Apply(s, e).ops| == |s.ops| + (if e.Call? then 1 else 0)
    ensures e.Call? ==> Apply(s, e).ops[|s.ops|] == e.op
  {
  }

  lemma {:induction false} StartsEmpty(states: seq<World>, events: seq<Event>)
    requires Trace(states, events)
    ensures states[0] == START
    decreases |events|
  {
    if events != [] { StartsEmpty(states[..|events|], events[..|events| - 1]); }
  }

  /** In every run, the calls under way or done are the calls made, in order: one that has
      taken no step of its own stands where its caller put it. */
  lemma {:induction false} EveryCallIsKept(states: seq<World>, events: seq<Event>, j: nat)
    requires Trace(states, events) && j < |states|
    ensures |states[j].ops| == |Calls(events[..j])|
    ensures forall k :: 0 <= k < |states[j].ops| && (forall n :: 0 <= n < j ==> !Own(events[n], k)) ==>
      states[j].ops[k] == Calls(events[..j])[k]
  {
    if j > 0 {
      var e, s := events[j - 1], states[j - 1];
      EveryCallIsKept(states, events, j - 1);
      TraceStep(states, events, j - 1);
      assert events[..j][..j - 1] == events[..j - 1];
      CountsCalls(s, e);
      forall k | 0 <= k < |states[j].ops| && (forall n :: 0 <= n < j ==> !Own(events[n], k))
        ensures states[j].ops[k] == Calls(events[..j])[k]
      {
        if k < |s.ops| { OthersLeaveOp(s, e, k); }
      }
    } else {
      StartsEmpty(states, events);
    }
  }

  // ---------------------------------------------------------------- the loop's checks

  /** A loop that wakes while its instance is open does what it woke for: a health check that
      counts, or the initialization of a pending instance; or a discovery, which a pending
      instance skips. */
  lemma WakingDoesTheCheck(s: World, i: nat, ok: bool, models: seq<string>)
    requires i < |s.insts| && s.insts[i].loop.Idle? && !s.insts[i].closed
    ensures Enabled(s, Tick(i, true)) && Enabled(s, Tick(i, false))
    ensures var v := s.insts[i].view;
      var woken := Apply(s, Tick(i, true));
      && Enabled(woken, Answer(i, ok, models))
      && var t := Apply(woken, Answer(i, ok, models)).insts[i];
        t.loop.Idle? && t.view == if v.pending then (if ok then Ready(models).(failures := v.failures, successes := v.successes) else v) else Checked(v, ok)
    ensures var v := s.insts[i].view;
      var woken := Apply(s, Tick(i, false));
      if v.pending then woken.insts[i] == s.insts[i]
      else
        && Enabled(woken, Answer(i, ok, models))
        && Apply(woken, Answer(i, ok, models)).insts[i].view == if ok then v.(models := models) else v
  {
  }
}
