/**
 Every call to the manager can finish: from every reachable state, with no new
 call coming in, there is a continuation after which none is in flight. No
 combination of Add, Replace, Remove, Close and loops can deadlock.
 */
module ManagerProgress {
  import opened Options
  import opened Health
  import opened Manager
  import opened ManagerTheorems

  /** Steps a call still has before it, with at most `n` instances to stop. */
  function OpRank(op: Op, n: nat): nat {
    match op
    case Finished(_) => 0
    case AddCreate(_) => 1
    case ReplaceCreate(_) => 1
    case AddStart(_) => 1
    case Discard(_, _) => 1
    case AddReserve(_) => 2
    case ReplaceCheck(_) => 2
    case AddRegister(_) => 2
    case ReplaceStart(_, _) => 6
    case ReplaceSwap(_) => 7
    case RemoveTake(_) => 6
    case CloseTake => 3 * n + 3
    case Mark(victims, m) => |victims| + 2 + (if m <= |victims| then 2 * (|victims| - m) else 0)
    case Cancel(victims, m) => |victims| + 1 + (if m <= |victims| then 2 * (|victims| - m) else 0)
    case Reap(victims) => |victims| + 1
  }

  /** Steps a cancelled loop still has before it. */
  function LoopRank(loop: Loop): nat {
    match loop
    case NotStarted => 3
    case Idle => 1
    case Exited => 0
    case _ => 2
  }

  function OpsRank(ops: seq<Op>, n: nat): nat {
    if ops == [] then 0 else OpRank(ops[0], n) + OpsRank(ops[1..], n)
  }

  function LoopsRank(insts: seq<Inst>): nat {
    if insts == [] then 0 else LoopRank(insts[0].loop) + LoopsRank(insts[1..])
  }

  function Remaining(s: World): nat { OpsRank(s.ops, |s.insts|) + LoopsRank(s.insts) }

  lemma {:induction false} OpsRankUpdate(ops: seq<Op>, k: nat, op: Op, n: nat)
    requires k < |ops|
    ensures OpsRank(ops[k := op], n) == OpsRank(ops, n) - OpRank(ops[k], n) + OpRank(op, n)
    decreases k
  {
    if k == 0 {
      assert ops[0 := op][1..] == ops[1..];
    } else {
      assert ops[k := op][1..] == ops[1..][k - 1 := op];
      OpsRankUpdate(ops[1..], k - 1, op, n);
    }
  }

  lemma {:induction false} LoopsRankUpdate(insts: seq<Inst>, i: nat, inst: Inst)
    requires i < |insts|
    ensures LoopsRank(insts[i := inst]) == LoopsRank(insts) - LoopRank(insts[i].loop) + LoopRank(inst.loop)
    decreases i
  {
    if i == 0 {
      assert insts[0 := inst][1..] == insts[1..];
    } else {
      assert insts[i := inst][1..] == insts[1..][i - 1 := inst];
      LoopsRankUpdate(insts[1..], i - 1, inst);
    }
  }

  lemma {:induction false} LoopsRankSame(a: seq<Inst>, b: seq<Inst>)
    requires |a| == |b| && forall i :: 0 <= i < |a| ==> a[i].loop == b[i].loop
    ensures LoopsRank(a) == LoopsRank(b)
  {
    if a != [] { LoopsRankSame(a[1..], b[1..]); }
  }

  // ---------------------------------------------------------------- Close can list the table

  lemma {:induction false} Listing(values: set<nat>) returns (order: seq<nat>)
    ensures Distinct(order) && forall i :: i in order <==> i in values
    decreases |values|
  {
    if values == {} {
      order := [];
    } else {
      var x :| x in values;
      var rest := Listing(values - {x});
      order := [x] + rest;
      forall i, j | 0 <= i < j < |order| ensures order[i] != order[j] {
        assert order[j] in rest;
      }
    }
  }

  /** At most n distinct numbers lie below n. */
  lemma {:induction false} Pigeonhole(order: seq<nat>, n: nat)
    requires Distinct(order) && forall p :: 0 <= p < |order| ==> order[p] < n
    ensures |order| <= n
    decreases n
  {
    if order != [] {
      assert order[0] < n;
      if p :| 0 <= p < |order| && order[p] == n - 1 {
        Pigeonhole(order[..p] + order[p + 1..], n - 1);
      } else {
        Pigeonhole(order, n - 1);
      }
    }
  }

  // ---------------------------------------------------------------- some step always helps

  /** A step of the call itself. */
  lemma OpHelps(s: World, k: nat) returns (e: Event)
    requires Inv(s) && k < |s.ops| && !s.ops[k].Finished?
    requires s.ops[k].Reap? && s.ops[k].victims != [] ==>
      s.ops[k].victims[0] < |s.insts| && s.insts[s.ops[k].victims[0]].loop.Exited?
    ensures Enabled(s, e) && !e.Call? && Remaining(Apply(s, e)) < Remaining(s)
  {
    var op := s.ops[k];
    assert OpOk(s, k);
    if op.AddCreate? || op.ReplaceCreate? {
      e := Create(k, FactoryFails);
      OpsRankUpdate(s.ops, k, Finished(NotCreated), |s.insts|);
    } else if op.CloseTake? && !s.closed {
      e := TakeHelps(s, k);
    } else {
      e := Go(k);
      GoHelps(s, k);
    }
  }

  lemma TakeHelps(s: World, k: nat) returns (e: Event)
    requires Inv(s) && k < |s.ops| && s.ops[k].CloseTake? && !s.closed
    ensures Enabled(s, e) && !e.Call? && Remaining(Apply(s, e)) < Remaining(s)
  {
    var order := Listing(s.table.Values);
    e := Take(k, order);
    forall p | 0 <= p < |order| ensures order[p] < |s.insts| { assert order[p] in s.table.Values; }
    Pigeonhole(order, |s.insts|);
    var s' := Apply(s, e);
    OpsRankUpdate(s.ops, k, Mark(order, 0), |s.insts|);
    LoopsRankSame(s.insts, s'.insts);
  }

  lemma VictimKnown(s: World, k: nat, p: nat)
    requires Inv(s) && k < |s.ops|
    requires s.ops[k].Mark? || s.ops[k].Cancel? || s.ops[k].Reap?
    requires p < |s.ops[k].victims|
    ensures s.ops[k].victims[p] < |s.insts|
  {
    assert OpOk(s, k);
    assert Owns(s.ops[k], s.ops[k].victims[p]);
  }

  lemma GoEnabled(s: World, k: nat)
    requires Inv(s) && k < |s.ops|
    requires var op := s.ops[k];
      && !op.Finished? && !op.AddCreate? && !op.ReplaceCreate? && (op.CloseTake? ==> s.closed)
      && (op.Reap? && op.victims != [] ==> op.victims[0] < |s.insts| && s.insts[op.victims[0]].loop.Exited?)
    ensures Enabled(s, Go(k))
  {
    var op := s.ops[k];
    assert OpOk(s, k);
    match op
    case AddRegister(i) => assert Owns(op, i);
    case AddStart(i) => assert Owes(op, i);
    case ReplaceSwap(i) => assert Owns(op, i);
    case ReplaceStart(i, _) => assert Owes(op, i);
    case Discard(i, _) => assert Owns(op, i);
    case Mark(victims, n) => if n < |victims| { VictimKnown(s, k, n); }
    case Cancel(victims, n) => VictimKnown(s, k, n);
    case _ =>
  }

  /** Where a call goes next. */
  function NextOp(s: World, op: Op): (r: Op)
    requires CanGo(s, op)
  {
    match op
    case AddReserve(id) => if Refusal(s, id) != Done then Finished(Refusal(s, id)) else AddCreate(id)
    case AddRegister(i) =>
      var why := Refusal(s, s.insts[i].id);
      if why != Done then Discard(i, why) else AddStart(i)
    case ReplaceCheck(id) => if s.closed then Finished(IsClosed) else ReplaceCreate(id)
    case ReplaceSwap(i) =>
      var id := s.insts[i].id;
      if s.closed then Discard(i, IsClosed) else ReplaceStart(i, if id in s.table then [s.table[id]] else [])
    case ReplaceStart(i, victims) => if victims == [] then Finished(Done) else Mark(victims, 0)
    case RemoveTake(id) => if id in s.table then Mark([s.table[id]], 0) else Finished(IsMissing)
    case Mark(victims, n) => if n >= |victims| then Reap(victims) else Cancel(victims, n)
    case Cancel(victims, n) => Mark(victims, n + 1)
    case Reap(victims) => if victims == [] then Finished(Done) else Reap(victims[1..])
    case Discard(_, why) => Finished(why)
    case _ => Finished(Done)
  }

  lemma GoMoves(s: World, k: nat)
    requires Enabled(s, Go(k))
    ensures Going(s, k).ops == s.ops[k := NextOp(s, s.ops[k])]
  {
    match s.ops[k]
    case AddRegister(i) => assert Publish(s, k, i).ops == s.ops;
    case ReplaceSwap(i) => assert Publish(s, k, i).ops == s.ops;
    case _ =>
  }

  lemma NextShortens(s: World, op: Op, n: nat)
    requires CanGo(s, op)
    requires op.Mark? || op.Cancel? ==> op.n <= |op.victims|
    requires op.ReplaceStart? ==> |op.victims| <= 1
    ensures OpRank(NextOp(s, op), n) < OpRank(op, n)
  {
  }

  /** Every step of a call shortens it … */
  lemma GoShortens(s: World, k: nat)
    requires Inv(s) && Enabled(s, Go(k))
    ensures var s' := Going(s, k);
      && s'.ops == s.ops[k := s'.ops[k]]
      && OpRank(s'.ops[k], |s.insts|) < OpRank(s.ops[k], |s.insts|)
  {
    assert OpOk(s, k);
    GoMoves(s, k);
    NextShortens(s, s.ops[k], |s.insts|);
  }

  /** … and leaves loops alone, but for the one it starts. */
  lemma GoStarts(s: World, k: nat, i: nat)
    requires Inv(s) && Enabled(s, Go(k)) && i < |s.insts|
    ensures var now := Going(s, k).insts[i].loop;
      now == s.insts[i].loop || (s.insts[i].loop.NotStarted? && now.Idle?)
  {
    match s.ops[k]
    case AddStart(j) => assert OpOk(s, k) && Owes(s.ops[k], j) && InstOk(s, j);
    case ReplaceStart(j, _) => assert OpOk(s, k) && Owes(s.ops[k], j) && InstOk(s, j);
    case _ => GoKeepsLoop(s, k, i);
  }

  lemma GoKeepsLoop(s: World, k: nat, i: nat)
    requires Enabled(s, Go(k)) && i < |s.insts| && !s.ops[k].AddStart? && !s.ops[k].ReplaceStart?
    ensures Going(s, k).insts[i].loop == s.insts[i].loop
  {
    match s.ops[k]
    case AddRegister(j) => PublishKeepsLoop(s, k, j, i);
    case ReplaceSwap(j) => PublishKeepsLoop(s, k, j, i);
    case _ =>
  }

  lemma PublishKeepsLoop(s: World, k: nat, j: nat, i: nat)
    requires k < |s.ops| && j < |s.insts| && i < |s.insts|
    ensures |Publish(s, k, j).insts| == |s.insts| && Publish(s, k, j).insts[i].loop == s.insts[i].loop
  {
  }

  lemma {:induction false} LoopsRankLess(a: seq<Inst>, b: seq<Inst>)
    requires |a| == |b|
    requires forall i :: 0 <= i < |a| ==> b[i].loop == a[i].loop || (a[i].loop.NotStarted? && b[i].loop.Idle?)
    ensures LoopsRank(b) <= LoopsRank(a)
  {
    if a != [] { LoopsRankLess(a[1..], b[1..]); }
  }

  lemma GoHelps(s: World, k: nat)
    requires Inv(s) && k < |s.ops|
    requires var op := s.ops[k];
      && !op.Finished? && !op.AddCreate? && !op.ReplaceCreate? && (op.CloseTake? ==> s.closed)
      && (op.Reap? && op.victims != [] ==> op.victims[0] < |s.insts| && s.insts[op.victims[0]].loop.Exited?)
    ensures Enabled(s, Go(k)) && Remaining(Apply(s, Go(k))) < Remaining(s)
  {
    GoEnabled(s, k);
    GoShortens(s, k);
    var s' := Going(s, k);
    OpsRankUpdate(s.ops, k, s'.ops[k], |s.insts|);
    forall i | 0 <= i < |s.insts|
      ensures s'.insts[i].loop == s.insts[i].loop || (s.insts[i].loop.NotStarted? && s'.insts[i].loop.Idle?)
    {
      GoStarts(s, k, i);
    }
    LoopsRankLess(s.insts, s'.insts);
  }

  /** A call that waits for a loop waits for one that can end: it is cancelled, and
      if it was never started the call that owes the start is still there. */
  lemma WaitHelps(s: World, i: nat) returns (e: Event)
    requires Inv(s) && i < |s.insts| && s.insts[i].cancelled && !s.insts[i].loop.Exited?
    ensures Enabled(s, e) && !e.Call? && Remaining(Apply(s, e)) < Remaining(s)
  {
    assert InstOk(s, i);
    if s.insts[i].loop.NotStarted? {
      var k := s.insts[i].starter.value;
      e := Go(k);
      GoHelps(s, k);
    } else if s.insts[i].loop.Idle? {
      e := Exit(i);
      LoopsRankUpdate(s.insts, i, s.insts[i].(loop := Exited));
    } else {
      e := Answer(i, false, []);
      LoopsRankUpdate(s.insts, i, Answered(s.insts[i], false, []));
    }
  }

  lemma SomeStepHelps(s: World) returns (e: Event)
    requires Inv(s) && !Quiescent(s)
    ensures Enabled(s, e) && !e.Call? && Remaining(Apply(s, e)) < Remaining(s)
  {
    var k :| 0 <= k < |s.ops| && !s.ops[k].Finished?;
    assert OpOk(s, k);
    if s.ops[k].Reap? && s.ops[k].victims != [] {
      VictimKnown(s, k, 0);
      var i := s.ops[k].victims[0];
      if !s.insts[i].loop.Exited? {
        e := WaitHelps(s, i);
        return;
      }
    }
    e := OpHelps(s, k);
  }

  /** From every reachable state all calls in flight can finish, without a new call. */
  lemma {:induction false} CallsCanFinish(s: World) returns (events: seq<Event>, t: World)
    requires Inv(s)
    ensures Runs(s, events, t) && Quiescent(t)
    ensures forall n :: 0 <= n < |events| ==> !events[n].Call?
    decreases Remaining(s)
  {
    if Quiescent(s) {
      events, t := [], s;
    } else {
      var e := SomeStepHelps(s);
      EventKeepsInv(s, e);
      var more;
      more, t := CallsCanFinish(Apply(s, e));
      events := [e] + more;
      assert events[1..] == more;
    }
  }
}
