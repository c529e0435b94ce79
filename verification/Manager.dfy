/**
 The runtime manager of common/runtime/manager.go as a state machine. Every
 section guarded by a mutex is one step, and so is every call that starts,
 cancels, waits for or closes something; any number of Add, Replace, Remove and
 Close calls and of scheduling loops take their steps in any order. What Create,
 Probe, Discover and Health answer is chosen freely.
 */
module Manager {
  import opened Options
  import opened Health

  /** Where an instance's scheduling goroutine is. */
  datatype Loop = NotStarted | Idle | Checking | Initializing | Discovering | Exited

  /** Who must see to it that a Runtime is closed. */
  datatype Holder = Table | Caller(k: nat) | Nobody

  /** One created Runtime and its managedInstance. The last four fields record
      history and are never read by a step: whether it was ever in the table, how
      often Runtime.Close was called, who holds it, and which call owes it a start. */
  datatype Inst = Inst(id: string, loop: Loop, cancelled: bool, closed: bool, view: View,
                       registered: bool, closes: nat, holder: Holder, starter: Option<nat>)

  /** What a call returns: nil, or why it was refused. An error of Runtime.Close is not
      told apart from nil. */
  datatype Result = Done | IsClosed | IsDuplicate | IsMissing | NotCreated

  /** A call in flight, at its next step. Instances are named by creation order;
      `victims` are the instances the call has to stop and close, in order, of which
      the first `n` are already marked and cancelled. */
  datatype Op =
    | AddReserve(id: string)
    | AddCreate(id: string)
    | AddRegister(inst: nat)
    | AddStart(inst: nat)
    | ReplaceCheck(id: string)
    | ReplaceCreate(id: string)
    | ReplaceSwap(inst: nat)
    | ReplaceStart(inst: nat, victims: seq<nat>)
    | Discard(inst: nat, why: Result)
    | RemoveTake(id: string)
    | CloseTake
    | Mark(victims: seq<nat>, n: nat)
    | Cancel(victims: seq<nat>, n: nat)
    | Reap(victims: seq<nat>)
    | Finished(result: Result)

  datatype World = World(closed: bool, table: map<string, nat>, insts: seq<Inst>, ops: seq<Op>)

  const START := World(false, map[], [], [])

  /** What createAndValidate comes to. */
  datatype Created = FactoryFails | Rejected | Accepted(view: View)

  datatype Event =
    | Call(op: Op)                                   // a caller enters Add, Replace, Remove or Close
    | Go(k: nat)                                     // call k takes a step that needs no answer
    | Create(k: nat, result: Created)                // createAndValidate returns
    | Take(k: nat, order: seq<nat>)                  // Close empties the table, visiting it in `order`
    | Tick(i: nat, health: bool)                     // loop i wakes for a health check or a discovery
    | Answer(i: nat, ok: bool, models: seq<string>)  // the call loop i is in returns
    | Exit(i: nat)                                   // loop i sees its context cancelled

  predicate IsEntry(op: Op) {
    op.AddReserve? || op.ReplaceCheck? || op.RemoveTake? || op.CloseTake?
  }

  predicate Distinct(s: seq<nat>) {
    forall i, j :: 0 <= i < j < |s| ==> s[i] != s[j]
  }

  /** `order` lists the instances of the table, each once. */
  predicate Lists(order: seq<nat>, table: map<string, nat>) {
    && Distinct(order)
    && (forall i :: i in order ==> i in table.Values)
    && (forall i :: i in table.Values ==> i in order)
  }

  predicate FreshView(v: View) {
    v == Pending() || v == Ready(v.models)
  }

  predicate Enabled(s: World, e: Event) {
    match e
    case Call(op) => IsEntry(op)
    case Go(k) => k < |s.ops| && CanGo(s, s.ops[k])
    case Create(k, result) =>
      && k < |s.ops| && (s.ops[k].AddCreate? || s.ops[k].ReplaceCreate?)
      && (result.Accepted? ==> FreshView(result.view))
    case Take(k, order) => k < |s.ops| && s.ops[k].CloseTake? && !s.closed && Lists(order, s.table)
    case Tick(i, _) => i < |s.insts| && s.insts[i].loop.Idle?
    case Answer(i, _, _) =>
      i < |s.insts| && (s.insts[i].loop.Checking? || s.insts[i].loop.Initializing? || s.insts[i].loop.Discovering?)
    case Exit(i) => i < |s.insts| && s.insts[i].loop.Idle? && s.insts[i].cancelled
  }

  /** Only reaping waits: for the scheduling goroutine to be done. */
  predicate CanGo(s: World, op: Op) {
    match op
    case AddReserve(_) => true
    case ReplaceCheck(_) => true
    case RemoveTake(id) => id in s.table ==> s.table[id] < |s.insts|
    case CloseTake => s.closed
    case AddRegister(i) => i < |s.insts|
    case AddStart(i) => i < |s.insts|
    case ReplaceSwap(i) => i < |s.insts|
    case ReplaceStart(i, _) => i < |s.insts|
    case Discard(i, _) => i < |s.insts|
    case Mark(victims, n) => n < |victims| ==> victims[n] < |s.insts|
    case Cancel(victims, n) => n < |victims| && victims[n] < |s.insts|
    case Reap(victims) => victims != [] ==> victims[0] < |s.insts| && s.insts[victims[0]].loop.Exited?
    case _ => false
  }

  /** Call k moves on to `op`, and instance i becomes `inst`. */
  function Move(s: World, k: nat, op: Op, i: nat, inst: Inst): World
    requires k < |s.ops| && i < |s.insts|
  {
    s.(ops := s.ops[k := op], insts := s.insts[i := inst])
  }

  function Stay(s: World, k: nat, op: Op): World
    requires k < |s.ops|
  {
    s.(ops := s.ops[k := op])
  }

  function Closed(inst: Inst): Inst { inst.(closes := inst.closes + 1, holder := Nobody) }

  function Started(inst: Inst): Inst { inst.(loop := Idle, starter := None) }

  /** Instances the table gives up to call k. */
  function Surrender(insts: seq<Inst>, given: set<nat>, k: nat): (r: seq<Inst>)
    ensures |r| == |insts|
    ensures forall i :: 0 <= i < |insts| ==> r[i] == if i in given then insts[i].(holder := Caller(k)) else insts[i]
  {
    seq(|insts|, i requires 0 <= i < |insts| => if i in given then insts[i].(holder := Caller(k)) else insts[i])
  }

  /** Instance i of call k enters the table under its id. */
  function Publish(s: World, k: nat, i: nat): World
    requires k < |s.ops| && i < |s.insts|
  {
    var id := s.insts[i].id;
    var given := if id in s.table then {s.table[id]} else {};
    var insts := Surrender(s.insts, given, k);
    s.(table := s.table[id := i],
       insts := insts[i := s.insts[i].(registered := true, holder := Table, starter := Some(k))])
  }

  /** Why an Add is refused, closed before duplicate, or Done. */
  function Refusal(s: World, id: string): (r: Result) {
    if s.closed then IsClosed else if id in s.table then IsDuplicate else Done
  }

  /** The steps of the calls. */
  function Going(s: World, k: nat): (r: World)
    requires Enabled(s, Go(k))
    ensures |r.insts| == |s.insts|
  {
    match s.ops[k]
    case AddReserve(id) => Stay(s, k, if Refusal(s, id) != Done then Finished(Refusal(s, id)) else AddCreate(id))
    case AddRegister(i) =>
      var why := Refusal(s, s.insts[i].id);
      if why != Done then Stay(s, k, Discard(i, why)) else Stay(Publish(s, k, i), k, AddStart(i))
    case AddStart(i) => Move(s, k, Finished(Done), i, Started(s.insts[i]))
    case ReplaceCheck(id) => Stay(s, k, if s.closed then Finished(IsClosed) else ReplaceCreate(id))
    case ReplaceSwap(i) =>
      var id := s.insts[i].id;
      if s.closed then Stay(s, k, Discard(i, IsClosed))
      else Stay(Publish(s, k, i), k, ReplaceStart(i, if id in s.table then [s.table[id]] else []))
    case ReplaceStart(i, victims) =>
      Move(s, k, if victims == [] then Finished(Done) else Mark(victims, 0), i, Started(s.insts[i]))
    case Discard(i, why) => Move(s, k, Finished(why), i, Closed(s.insts[i]))
    case RemoveTake(id) =>
      if id !in s.table then Stay(s, k, Finished(IsMissing))
      else
        var i := s.table[id];
        Move(s.(table := s.table - {id}), k, Mark([i], 0), i, s.insts[i].(holder := Caller(k)))
    case CloseTake => Stay(s, k, Finished(Done))
    case Mark(victims, n) =>
      if n >= |victims| then Stay(s, k, Reap(victims))
      else var i := victims[n]; Move(s, k, Cancel(victims, n), i, s.insts[i].(closed := true))
    case Cancel(victims, n) =>
      var i := victims[n]; Move(s, k, Mark(victims, n + 1), i, s.insts[i].(cancelled := true))
    case Reap(victims) =>
      if victims == [] then Stay(s, k, Finished(Done))
      else var i := victims[0]; Move(s, k, Reap(victims[1..]), i, Closed(s.insts[i]))
  }

  function Creating(s: World, k: nat, result: Created): (r: World)
    requires Enabled(s, Create(k, result))
    ensures |s.insts| <= |r.insts| && forall i :: 0 <= i < |s.insts| ==> r.insts[i] == s.insts[i]
  {
    var op := s.ops[k];
    var i := |s.insts|;
    var view := if result.Accepted? then result.view else Pending();
    var inst := Inst(op.id, NotStarted, false, false, view, false, 0, Caller(k), None);
    match result
    case FactoryFails => Stay(s, k, Finished(NotCreated))
    case Rejected => Stay(s.(insts := s.insts + [inst]), k, Discard(i, NotCreated))
    case Accepted(_) => Stay(s.(insts := s.insts + [inst]), k, if op.AddCreate? then AddRegister(i) else ReplaceSwap(i))
  }

  /** The steps of a scheduling loop; nothing is published once the instance is closed. */
  function Answered(inst: Inst, ok: bool, models: seq<string>): (r: Inst) {
    var view :=
      if inst.closed then inst.view
      else match inst.loop
        case Checking => Checked(inst.view, ok)
        case Initializing => if ok then Initialized(inst.view, models) else inst.view
        case Discovering => if ok then Discovered(inst.view, models) else inst.view
        case _ => inst.view;
    inst.(view := view, loop := Idle)
  }

  function Ticked(inst: Inst, health: bool): (r: Inst) {
    if health then inst.(loop := if inst.view.pending then Initializing else Checking)
    else inst.(loop := if inst.view.pending then Idle else Discovering)
  }

  function LoopStep(s: World, e: Event): (r: Inst)
    requires Enabled(s, e) && (e.Tick? || e.Answer? || e.Exit?)
  {
    match e
    case Tick(i, health) => Ticked(s.insts[i], health)
    case Answer(i, ok, models) => Answered(s.insts[i], ok, models)
    case Exit(i) => s.insts[i].(loop := Exited)
  }

  function Apply(s: World, e: Event): (r: World)
    requires Enabled(s, e)
    ensures |s.insts| <= |r.insts|
  {
    match e
    case Call(op) => s.(ops := s.ops + [op])
    case Go(k) => Going(s, k)
    case Create(k, result) => Creating(s, k, result)
    case Take(k, order) =>
      Stay(s.(closed := true, table := map[], insts := Surrender(s.insts, s.table.Values, k)), k, Mark(order, 0))
    case _ => s.(insts := s.insts[e.i := LoopStep(s, e)])
  }

  // ---------------------------------------------------------------- the invariant

  /** The instances a call must still see closed, and the one whose loop it owes. */
  predicate Owns(op: Op, i: nat) {
    match op
    case AddRegister(j) => i == j
    case ReplaceSwap(j) => i == j
    case Discard(j, _) => i == j
    case ReplaceStart(_, victims) => i in victims
    case Mark(victims, _) => i in victims
    case Cancel(victims, _) => i in victims
    case Reap(victims) => i in victims
    case _ => false
  }

  predicate Owes(op: Op, i: nat) {
    match op
    case AddStart(j) => i == j
    case ReplaceStart(j, _) => i == j
    case _ => false
  }

  predicate Unpublished(op: Op) { op.AddRegister? || op.ReplaceSwap? || op.Discard? }

  /** Victims before position `marked` have their closed flag set, those before
      `cancelled` their context cancelled, the others neither. */
  ghost predicate Progressed(insts: seq<Inst>, victims: seq<nat>, marked: nat, cancelled: nat) {
    && Distinct(victims)
    && (forall p :: 0 <= p < |victims| ==>
          && victims[p] < |insts| && insts[victims[p]].registered
          && (insts[victims[p]].closed <==> p < marked)
          && (insts[victims[p]].cancelled <==> p < cancelled))
  }

  ghost predicate OpOk(s: World, k: nat)
    requires k < |s.ops|
  {
    var op := s.ops[k];
    && (forall i: nat :: Owns(op, i) ==> i < |s.insts| && s.insts[i].holder == Caller(k))
    && (forall i: nat :: Owes(op, i) ==> i < |s.insts| && s.insts[i].starter == Some(k))
    && (Unpublished(op) ==> op.inst < |s.insts| && !s.insts[op.inst].registered)
    && (op.ReplaceStart? ==> |op.victims| <= 1 && op.inst !in op.victims && Progressed(s.insts, op.victims, 0, 0))
    && (op.Mark? ==> op.n <= |op.victims| && Progressed(s.insts, op.victims, op.n, op.n))
    && (op.Cancel? ==> op.n < |op.victims| && Progressed(s.insts, op.victims, op.n + 1, op.n))
    && (op.Reap? ==> Progressed(s.insts, op.victims, |op.victims|, |op.victims|))
  }

  ghost predicate InstOk(s: World, i: nat)
    requires i < |s.insts|
  {
    var inst := s.insts[i];
    && inst.closes == (if inst.holder.Nobody? then 1 else 0)
    && (inst.holder.Table? ==> inst.id in s.table && s.table[inst.id] == i && inst.registered && !inst.closed)
    && (inst.holder.Caller? ==> inst.holder.k < |s.ops| && Owns(s.ops[inst.holder.k], i))
    && (inst.holder.Nobody? && inst.registered ==> inst.loop.Exited?)
    && (inst.starter.Some? <==> inst.registered && inst.loop.NotStarted?)
    && (inst.starter.Some? ==> inst.starter.value < |s.ops| && Owes(s.ops[inst.starter.value], i))
    && Sound(inst)
  }

  /** What concerns one instance alone. */
  predicate Sound(inst: Inst) {
    && (inst.cancelled ==> inst.closed)
    && (inst.loop.Exited? ==> inst.cancelled)
    && (!inst.registered ==> inst.loop.NotStarted? && !inst.closed)
  }

  ghost predicate Inv(s: World) {
    && (s.closed ==> s.table == map[])
    && (forall id :: id in s.table ==>
          s.table[id] < |s.insts| && s.insts[s.table[id]].id == id && s.insts[s.table[id]].holder == Table)
    && (forall k :: 0 <= k < |s.ops| ==> OpOk(s, k))
    && (forall i :: 0 <= i < |s.insts| ==> InstOk(s, i))
  }

  // ---------------------------------------------------------------- every step keeps it

  /** `now`, if nothing but the loop's own fields changed since `before`. */
  function Still(before: Inst, now: Inst): Inst {
    before.(loop := now.loop, starter := now.starter, view := now.view)
  }

  /** Of the instances other calls own or owe a start, nothing they rely on changes. */
  ghost predicate Undisturbed(s: World, s': World, k: nat) {
    && |s.insts| <= |s'.insts| && |s'.ops| == |s.ops|
    && (forall m :: 0 <= m < |s.ops| && m != k ==> s'.ops[m] == s.ops[m])
    && (forall i :: 0 <= i < |s.insts| && s'.insts[i] != s.insts[i] ==>
          && (s.insts[i].holder != Caller(k) && s.insts[i].holder != Table ==>
                s'.insts[i] == Still(s.insts[i], s'.insts[i]))
          && (s.insts[i].starter.Some? && s.insts[i].starter != Some(k) ==>
                s'.insts[i].starter == s.insts[i].starter))
  }

  lemma OtherOpOk(s: World, s': World, k: nat, m: nat)
    requires Inv(s) && Undisturbed(s, s', k) && m < |s.ops| && m != k
    ensures OpOk(s', m)
  {
    var op := s.ops[m];
    assert OpOk(s, m);
    forall i: nat | Owns(op, i) ensures i < |s'.insts| && s'.insts[i].holder == Caller(m) { }
    forall i: nat | Owes(op, i) ensures i < |s'.insts| && s'.insts[i].starter == Some(m) { }
    if op.ReplaceStart? || op.Mark? || op.Cancel? || op.Reap? {
      forall p | 0 <= p < |op.victims|
        ensures var i := op.victims[p];
          i < |s'.insts| && s'.insts[i] == Still(s.insts[i], s'.insts[i])
      {
        assert Owns(op, op.victims[p]);
      }
    }
    if Unpublished(op) { assert Owns(op, op.inst); }
  }

  /** The duties of call k after the step cover what it held and keeps. */
  ghost predicate Covered(s: World, s': World, k: nat)
    requires |s.insts| <= |s'.insts| && k < |s'.ops|
  {
    forall i :: 0 <= i < |s'.insts| ==>
      || InstOk(s', i)
      || (i < |s.insts| && s'.insts[i] == s.insts[i]
          && (s.insts[i].holder == Table ==> s.insts[i].id in s'.table && s'.table[s.insts[i].id] == i)
          && (s.insts[i].holder == Caller(k) ==> Owns(s'.ops[k], i))
          && (s.insts[i].starter == Some(k) ==> Owes(s'.ops[k], i)))
  }

  ghost predicate TableOk(s: World) {
    && (s.closed ==> s.table == map[])
    && (forall id :: id in s.table ==>
          s.table[id] < |s.insts| && s.insts[s.table[id]].id == id && s.insts[s.table[id]].holder == Table)
  }

  lemma StepKeepsInv(s: World, s': World, k: nat)
    requires Inv(s) && k < |s.ops| && Undisturbed(s, s', k)
    requires TableOk(s') && OpOk(s', k) && Covered(s, s', k)
    ensures Inv(s')
  {
    forall m | 0 <= m < |s'.ops| ensures OpOk(s', m) {
      if m != k { OtherOpOk(s, s', k, m); }
    }
    forall i | 0 <= i < |s'.insts| ensures InstOk(s', i) {
      if i < |s.insts| { assert InstOk(s, i); }
    }
  }

  lemma StayKeepsInv(s: World, k: nat, op: Op)
    requires Inv(s) && k < |s.ops|
    requires forall i: nat :: Owns(op, i) <==> Owns(s.ops[k], i)
    requires forall i: nat :: Owes(op, i) <==> Owes(s.ops[k], i)
    requires OpOk(Stay(s, k, op), k)
    ensures Inv(Stay(s, k, op))
  {
    var s' := Stay(s, k, op);
    assert OpOk(s, k);
    forall j | 0 <= j < |s.insts|
      ensures s.insts[j].holder == Table ==> s.insts[j].id in s'.table && s'.table[s.insts[j].id] == j
      ensures s.insts[j].holder == Caller(k) ==> Owns(op, j)
      ensures s.insts[j].starter == Some(k) ==> Owes(op, j)
    {
      assert InstOk(s, j);
    }
    StepKeepsInv(s, s', k);
  }

  /** One instance of the call's own changes. */
  lemma MoveKeepsInv(s: World, k: nat, op: Op, i: nat, inst: Inst)
    requires Inv(s) && k < |s.ops| && i < |s.insts|
    requires Owns(s.ops[k], i) || Owes(s.ops[k], i)
    requires inst.id == s.insts[i].id && inst.registered == s.insts[i].registered && inst.view == s.insts[i].view
    requires !Owns(s.ops[k], i) ==>
      inst == s.insts[i].(loop := inst.loop, starter := inst.starter) && (inst.holder.Caller? ==> inst.holder != Caller(k))
    requires Owns(s.ops[k], i) ==> inst.starter == s.insts[i].starter && inst.starter != Some(k)
    requires var s' := Move(s, k, op, i, inst);
      && OpOk(s', k) && InstOk(s', i)
      && (forall j: nat :: j != i && Owns(s.ops[k], j) ==> Owns(op, j))
      && (forall j: nat :: j != i && Owes(s.ops[k], j) ==> Owes(op, j))
    ensures Inv(Move(s, k, op, i, inst))
  {
    var s' := Move(s, k, op, i, inst);
    assert OpOk(s, k);
    assert InstOk(s, i);
    forall j | 0 <= j < |s.insts| && j != i
      ensures s.insts[j].holder == Table ==> s.insts[j].id in s'.table && s'.table[s.insts[j].id] == j
      ensures s.insts[j].holder == Caller(k) ==> Owns(op, j)
      ensures s.insts[j].starter == Some(k) ==> Owes(op, j)
    {
      assert InstOk(s, j);
    }
    StepKeepsInv(s, s', k);
  }

  lemma StartKeepsInv(s: World, k: nat, next: Op)
    requires Inv(s) && k < |s.ops| && (s.ops[k].AddStart? || s.ops[k].ReplaceStart?) && s.ops[k].inst < |s.insts|
    requires next == if s.ops[k].AddStart? || s.ops[k].victims == [] then Finished(Done) else Mark(s.ops[k].victims, 0)
    ensures var i := s.ops[k].inst; Inv(Move(s, k, next, i, Started(s.insts[i])))
  {
    var i := s.ops[k].inst;
    assert OpOk(s, k) && Owes(s.ops[k], i);
    assert InstOk(s, i);
    MoveKeepsInv(s, k, next, i, Started(s.insts[i]));
  }

  lemma DiscardKeepsInv(s: World, k: nat)
    requires Inv(s) && k < |s.ops| && s.ops[k].Discard? && s.ops[k].inst < |s.insts|
    ensures var i := s.ops[k].inst; Inv(Move(s, k, Finished(s.ops[k].why), i, Closed(s.insts[i])))
  {
    var i := s.ops[k].inst;
    assert OpOk(s, k) && Owns(s.ops[k], i);
    assert InstOk(s, i);
    MoveKeepsInv(s, k, Finished(s.ops[k].why), i, Closed(s.insts[i]));
  }

  lemma MarkKeepsInv(s: World, k: nat, victims: seq<nat>, n: nat, i: nat)
    requires Inv(s) && k < |s.ops| && s.ops[k] == Mark(victims, n) && n < |victims| && i == victims[n] && i < |s.insts|
    ensures Inv(Move(s, k, Cancel(victims, n), i, s.insts[i].(closed := true)))
  {
    assert OpOk(s, k) && Owns(s.ops[k], i);
    assert InstOk(s, i);
    MoveKeepsInv(s, k, Cancel(victims, n), i, s.insts[i].(closed := true));
  }

  lemma CancelKeepsInv(s: World, k: nat, victims: seq<nat>, n: nat, i: nat)
    requires Inv(s) && k < |s.ops| && s.ops[k] == Cancel(victims, n) && n < |victims| && i == victims[n] && i < |s.insts|
    ensures Inv(Move(s, k, Mark(victims, n + 1), i, s.insts[i].(cancelled := true)))
  {
    assert OpOk(s, k) && Owns(s.ops[k], i);
    assert InstOk(s, i);
    MoveKeepsInv(s, k, Mark(victims, n + 1), i, s.insts[i].(cancelled := true));
  }

  lemma ReapKeepsInv(s: World, k: nat, victims: seq<nat>, i: nat)
    requires Inv(s) && k < |s.ops| && s.ops[k] == Reap(victims) && victims != [] && i == victims[0]
    requires i < |s.insts| && s.insts[i].loop.Exited?
    ensures Inv(Move(s, k, Reap(victims[1..]), i, Closed(s.insts[i])))
  {
    assert OpOk(s, k) && Owns(s.ops[k], i);
    assert InstOk(s, i);
    var rest := victims[1..];
    RestOfVictims(victims);
    MoveKeepsInv(s, k, Reap(rest), i, Closed(s.insts[i]));
  }

  lemma RestOfVictims(victims: seq<nat>)
    requires victims != [] && Distinct(victims)
    ensures Distinct(victims[1..])
    ensures forall j :: j in victims[1..] <==> j in victims && j != victims[0]
  {
    var rest := victims[1..];
    forall j ensures j in rest <==> j in victims && j != victims[0] {
      if j in rest {
        var p :| 0 <= p < |rest| && rest[p] == j;
        assert victims[p + 1] == j;
      }
    }
  }

  lemma RemoveKeepsInv(s: World, k: nat, id: string)
    requires Inv(s) && k < |s.ops| && s.ops[k] == RemoveTake(id) && id in s.table && s.table[id] < |s.insts|
    ensures var i := s.table[id];
      Inv(Move(s.(table := s.table - {id}), k, Mark([i], 0), i, s.insts[i].(holder := Caller(k))))
  {
    var i := s.table[id];
    var s' := Move(s.(table := s.table - {id}), k, Mark([i], 0), i, s.insts[i].(holder := Caller(k)));
    assert OpOk(s, k) && InstOk(s, i);
    forall j | 0 <= j < |s.insts| && j != i
      ensures s.insts[j].holder == Table ==> s.insts[j].id in s'.table && s'.table[s.insts[j].id] == j
      ensures s.insts[j].holder != Caller(k) && s.insts[j].starter != Some(k)
    {
      assert InstOk(s, j);
    }
    assert InstOk(s', i);
    StepKeepsInv(s, s', k);
  }

  lemma TakeKeepsInv(s: World, k: nat, order: seq<nat>)
    requires Inv(s) && k < |s.ops| && s.ops[k].CloseTake? && Lists(order, s.table)
    ensures Inv(Stay(s.(closed := true, table := map[], insts := Surrender(s.insts, s.table.Values, k)), k, Mark(order, 0)))
  {
    var s' := Stay(s.(closed := true, table := map[], insts := Surrender(s.insts, s.table.Values, k)), k, Mark(order, 0));
    assert OpOk(s, k);
    forall j | 0 <= j < |s.insts|
      ensures s.insts[j].holder == Table <==> j in s.table.Values
      ensures s.insts[j].holder != Caller(k) && s.insts[j].starter != Some(k)
    {
      assert InstOk(s, j);
    }
    forall j | 0 <= j < |s'.insts| && j in s.table.Values ensures InstOk(s', j) { assert InstOk(s, j); }
    forall p | 0 <= p < |order| ensures order[p] < |s.insts| && InstOk(s, order[p]) && s.insts[order[p]].holder == Table {
      assert order[p] in order;
    }
    StepKeepsInv(s, s', k);
  }

  lemma CreateKeepsInv(s: World, k: nat, inst: Inst, op: Op)
    requires Inv(s) && k < |s.ops| && (s.ops[k].AddCreate? || s.ops[k].ReplaceCreate?)
    requires inst == Inst(inst.id, NotStarted, false, false, inst.view, false, 0, Caller(k), None)
    requires op == AddRegister(|s.insts|) || op == ReplaceSwap(|s.insts|) || (op.Discard? && op.inst == |s.insts|)
    ensures Inv(Stay(s.(insts := s.insts + [inst]), k, op))
  {
    var s' := Stay(s.(insts := s.insts + [inst]), k, op);
    assert OpOk(s, k);
    forall j | 0 <= j < |s.insts|
      ensures s.insts[j].holder == Table ==> s.insts[j].id in s'.table && s'.table[s.insts[j].id] == j
      ensures s.insts[j].holder != Caller(k) && s.insts[j].starter != Some(k)
    {
      assert InstOk(s, j);
    }
    StepKeepsInv(s, s', k);
  }

  /** Instance i of call k is published under `id`; `victims` is what it displaces. */
  ghost predicate Publishes(s: World, s': World, k: nat, i: nat, id: string, victims: seq<nat>) {
    && k < |s.ops| && i < |s.insts| == |s'.insts| && id == s.insts[i].id && !s.closed
    && Unpublished(s.ops[k]) && s.ops[k].inst == i
    && victims == (if id in s.table then [s.table[id]] else [])
    && (forall p :: 0 <= p < |victims| ==> victims[p] != i && victims[p] < |s.insts|)
    && s'.closed == s.closed && s'.table == s.table[id := i]
    && s'.insts[i] == s.insts[i].(registered := true, holder := Table, starter := Some(k))
    && (forall j :: 0 <= j < |s.insts| && j != i ==>
          s'.insts[j] == if j in victims then s.insts[j].(holder := Caller(k)) else s.insts[j])
    && |s'.ops| == |s.ops| && (forall m :: 0 <= m < |s.ops| && m != k ==> s'.ops[m] == s.ops[m])
    && (s'.ops[k] == ReplaceStart(i, victims) || (s'.ops[k] == AddStart(i) && victims == []))
  }

  lemma PublishedOpOk(s: World, s': World, k: nat, i: nat, id: string, victims: seq<nat>)
    requires Inv(s) && Publishes(s, s', k, i, id, victims)
    ensures OpOk(s', k)
  {
    if victims != [] {
      assert InstOk(s, victims[0]);
      assert victims[0] in victims;
    }
  }

  lemma PublishedInsts(s: World, s': World, k: nat, i: nat, id: string, victims: seq<nat>)
    requires Inv(s) && Publishes(s, s', k, i, id, victims)
    ensures Covered(s, s', k) && Undisturbed(s, s', k) && TableOk(s')
  {
    assert OpOk(s, k) && Owns(s.ops[k], i) && InstOk(s, i);
    assert forall p :: 0 <= p < |victims| ==> victims[p] in victims && s.insts[victims[p]].holder == Table;
    forall j | 0 <= j < |s'.insts|
      ensures
        || InstOk(s', j)
        || (s'.insts[j] == s.insts[j]
            && (s.insts[j].holder == Table ==> s.insts[j].id in s'.table && s'.table[s.insts[j].id] == j)
            && s.insts[j].holder != Caller(k) && s.insts[j].starter != Some(k))
    {
      assert InstOk(s, j);
    }
  }

  lemma PublishKeepsInv(s: World, s': World, k: nat, i: nat, id: string, victims: seq<nat>)
    requires Inv(s) && Publishes(s, s', k, i, id, victims)
    ensures Inv(s')
  {
    PublishedOpOk(s, s', k, i, id, victims);
    PublishedInsts(s, s', k, i, id, victims);
    StepKeepsInv(s, s', k);
  }

  lemma PublishingPublishes(s: World, k: nat)
    requires Inv(s) && Enabled(s, Go(k)) && !s.closed
    requires s.ops[k].ReplaceSwap? || (s.ops[k].AddRegister? && s.insts[s.ops[k].inst].id !in s.table)
    ensures Inv(Going(s, k))
  {
    var i := s.ops[k].inst;
    var id := s.insts[i].id;
    var victims := if id in s.table then [s.table[id]] else [];
    assert OpOk(s, k) && Owns(s.ops[k], i);
    PublishKeepsInv(s, Going(s, k), k, i, id, victims);
  }

  /** Steps that only move the call on: nothing to publish, start, stop or close. */
  predicate Moves(s: World, op: Op, next: Op) {
    match op
    case AddReserve(id) => next.Finished? || next == AddCreate(id)
    case ReplaceCheck(id) => next.Finished? || next == ReplaceCreate(id)
    case AddRegister(i) => next.Discard? && next.inst == i
    case ReplaceSwap(i) => next.Discard? && next.inst == i
    case AddCreate(_) => next.Finished?
    case ReplaceCreate(_) => next.Finished?
    case RemoveTake(_) => next.Finished?
    case CloseTake => next.Finished?
    case Mark(victims, n) => n >= |victims| && next == Reap(victims)
    case Reap(victims) => victims == [] && next.Finished?
    case _ => false
  }

  lemma MovesKeepInv(s: World, k: nat, next: Op)
    requires Inv(s) && k < |s.ops| && Moves(s, s.ops[k], next)
    ensures Inv(Stay(s, k, next))
  {
    assert OpOk(s, k);
    assert OpOk(Stay(s, k, next), k);
    StayKeepsInv(s, k, next);
  }

  lemma GoKeepsInv(s: World, k: nat)
    requires Inv(s) && Enabled(s, Go(k))
    ensures Inv(Going(s, k))
  {
    var op := s.ops[k];
    match op
    case AddReserve(id) => MovesKeepInv(s, k, if Refusal(s, id) != Done then Finished(Refusal(s, id)) else AddCreate(id));
    case ReplaceCheck(id) => MovesKeepInv(s, k, if s.closed then Finished(IsClosed) else ReplaceCreate(id));
    case AddRegister(i) =>
      var why := Refusal(s, s.insts[i].id);
      if why != Done { MovesKeepInv(s, k, Discard(i, why)); } else { PublishingPublishes(s, k); }
    case ReplaceSwap(i) =>
      if s.closed { MovesKeepInv(s, k, Discard(i, IsClosed)); } else { PublishingPublishes(s, k); }
    case AddStart(_) => StartKeepsInv(s, k, Finished(Done));
    case ReplaceStart(_, victims) => StartKeepsInv(s, k, if victims == [] then Finished(Done) else Mark(victims, 0));
    case Discard(_, _) => DiscardKeepsInv(s, k);
    case RemoveTake(id) =>
      if id in s.table { RemoveKeepsInv(s, k, id); } else { MovesKeepInv(s, k, Finished(IsMissing)); }
    case CloseTake => MovesKeepInv(s, k, Finished(Done));
    case Mark(victims, n) =>
      if n >= |victims| { MovesKeepInv(s, k, Reap(victims)); } else { MarkKeepsInv(s, k, victims, n, victims[n]); }
    case Cancel(victims, n) => CancelKeepsInv(s, k, victims, n, victims[n]);
    case Reap(victims) =>
      if victims == [] { MovesKeepInv(s, k, Finished(Done)); } else { ReapKeepsInv(s, k, victims, victims[0]); }
  }

  lemma CallKeepsInv(s: World, op: Op)
    requires Inv(s) && IsEntry(op)
    ensures Inv(s.(ops := s.ops + [op]))
  {
    var s' := s.(ops := s.ops + [op]);
    forall k | 0 <= k < |s'.ops| ensures OpOk(s', k) {
      if k < |s.ops| { assert OpOk(s, k); }
    }
    forall i | 0 <= i < |s'.insts| ensures InstOk(s', i) { assert InstOk(s, i); }
  }

  /** A loop changes only where it is and, while the instance is open, what it publishes. */
  lemma LoopStepSound(s: World, e: Event)
    requires Enabled(s, e) && (e.Tick? || e.Answer? || e.Exit?) && Sound(s.insts[e.i])
    ensures var inst := LoopStep(s, e);
      && inst == s.insts[e.i].(loop := inst.loop, view := inst.view)
      && (s.insts[e.i].closed ==> inst.view == s.insts[e.i].view)
      && !inst.loop.NotStarted? && !s.insts[e.i].loop.NotStarted? && !s.insts[e.i].loop.Exited?
      && Sound(inst)
  {
  }

  lemma LoopKeepsInv(s: World, i: nat, inst: Inst)
    requires Inv(s) && i < |s.insts| && Sound(inst)
    requires inst == s.insts[i].(loop := inst.loop, view := inst.view)
    requires !inst.loop.NotStarted? && !s.insts[i].loop.NotStarted? && !s.insts[i].loop.Exited?
    ensures Inv(s.(insts := s.insts[i := inst]))
  {
    var s' := s.(insts := s.insts[i := inst]);
    assert InstOk(s, i);
    forall j | 0 <= j < |s'.insts| ensures InstOk(s', j) { assert InstOk(s, j); }
    forall k | 0 <= k < |s'.ops| ensures OpOk(s', k) { OtherOpOk(s, s', |s.ops|, k); }
  }

  lemma EventKeepsInv(s: World, e: Event)
    requires Inv(s) && Enabled(s, e)
    ensures Inv(Apply(s, e))
  {
    match e
    case Call(op) => CallKeepsInv(s, op);
    case Go(k) => GoKeepsInv(s, k);
    case Create(k, result) =>
      if result.FactoryFails? {
        MovesKeepInv(s, k, Finished(NotCreated));
      } else {
        var s' := Creating(s, k, result);
        CreateKeepsInv(s, k, s'.insts[|s.insts|], s'.ops[k]);
      }
    case Take(k, order) => TakeKeepsInv(s, k, order);
    case _ =>
      assert InstOk(s, e.i);
      LoopStepSound(s, e);
      LoopKeepsInv(s, e.i, LoopStep(s, e));
  }
}
