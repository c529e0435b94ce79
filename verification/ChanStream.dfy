/**
 The channel-backed stream of common/runtime/stream.go: one producer that keeps to
 the documented contract, any number of receivers, and Close at any time. Each
 channel operation and each mutex section is one step, and the steps of the two sides
 interleave freely.
 */
module ChanStream {
  import opened Options

  /** How a stream ends on the producer's side: normally or with an error. */
  datatype End<E> = Normal | Failed(error: E)

  /** Where the producer stands. */
  datatype Producer<T, E> =
    | Idle                       // may send or close
    | Offering(item: T)          // inside Send, waiting
    | Accepted                   // the item is in the channel, the flag is not yet set
    | Withdrawn                  // SendContext gave up on its context: may only close
    | Closing                    // the error is recorded, the channel is not yet closed
    | Stopped

  /** `sent`, `received` and `ends` record what happened; the rest is the stream. */
  datatype State<T, E> = State(
    capacity: nat, queue: seq<T>, shut: bool, done: bool, err: Option<End<E>>, committed: bool,
    producer: Producer<T, E>, ending: nat,
    sent: seq<T>, received: seq<T>, ends: seq<End<E>>)

  function New<T, E>(capacity: nat): (s: State<T, E>) {
    State(capacity, [], false, false, None, false, Idle, 0, [], [], [])
  }

  datatype Step<T, E> =
    | Offer(item: T)             // the producer calls Send or SendContext
    | Enqueue                    // the item goes into the buffer
    | Handover                   // the item goes straight to a waiting receiver
    | Flag                       // Send sets `committed` and returns true
    | GiveUp                     // Send sees the stream closed and returns false
    | ContextEnds                // SendContext sees its context end and returns false
    | RecordEnd(end: End<E>)     // CloseWithError's mutex section
    | Shut                       // CloseWithError closes the channel
    | Dequeue                    // Recv takes an item
    | SeeShut                    // Recv finds the channel closed and empty
    | ReportEnd                  // that Recv reads the error and returns it
    | Turned                     // Recv sees the stream closed and returns ErrStreamClosed
    | Close

  predicate Enabled<T, E>(s: State<T, E>, step: Step<T, E>) {
    match step
    case Offer(_) => s.producer.Idle?
    case Enqueue => s.producer.Offering? && |s.queue| < s.capacity
    case Handover => s.producer.Offering? && s.queue == []
    case Flag => s.producer.Accepted?
    case GiveUp => s.producer.Offering? && s.done
    case ContextEnds => s.producer.Offering?
    case RecordEnd(_) => s.producer.Idle? || s.producer.Withdrawn?
    case Shut => s.producer.Closing?
    case Dequeue => s.queue != []
    case SeeShut => s.shut && s.queue == []
    case ReportEnd => s.ending > 0
    case Turned => s.done
    case Close => true
  }

  function Apply<T, E>(s: State<T, E>, step: Step<T, E>): (r: State<T, E>)
    requires Enabled(s, step)
  {
    match step
    case Offer(item) => s.(producer := Offering(item))
    case Enqueue => s.(queue := s.queue + [s.producer.item], sent := s.sent + [s.producer.item], producer := Accepted)
    case Handover => s.(sent := s.sent + [s.producer.item], received := s.received + [s.producer.item], producer := Accepted)
    case Flag => s.(committed := true, producer := Idle)
    case GiveUp => s.(producer := Stopped)
    case ContextEnds => s.(producer := Withdrawn)
    case RecordEnd(end) => s.(err := Some(end), producer := Closing)
    case Shut => s.(shut := true, producer := Stopped)
    case Dequeue => s.(queue := s.queue[1..], received := s.received + [s.queue[0]])
    case SeeShut => s.(ending := s.ending + 1)
    case ReportEnd => s.(ending := s.ending - 1, ends := s.ends + [if s.err.Some? then s.err.value else Normal])
    case Turned => s
    case Close => s.(done := true)
  }

  /** A Go channel panics when it is closed twice or sent to after it was closed. */
  predicate WouldPanic<T, E>(s: State<T, E>, step: Step<T, E>) {
    s.shut && (step.Enqueue? || step.Handover? || step.Shut?)
  }

  ghost predicate Inv<T, E>(s: State<T, E>) {
    && s.received + s.queue == s.sent
    && |s.queue| <= s.capacity
    && (s.committed ==> s.sent != [])
    && (s.sent != [] && !s.committed ==> s.producer.Accepted?)
    && (s.producer.Accepted? ==> s.sent != [])
    && (s.shut ==> s.producer.Stopped? && s.err.Some?)
    && (s.producer.Closing? ==> s.err.Some?)
    && (s.err.Some? ==> s.producer.Closing? || s.shut)
    && (s.ending > 0 || s.ends != [] ==> s.shut && s.queue == [])
    && (forall i :: 0 <= i < |s.ends| ==> s.err == Some(s.ends[i]))
  }

  lemma StepKeepsInv<T, E>(s: State<T, E>, step: Step<T, E>)
    requires Inv(s) && Enabled(s, step)
    ensures Inv(Apply(s, step))
  {
    if step.Dequeue? {
      assert s.queue == [s.queue[0]] + s.queue[1..];
      assert s.received + s.queue == s.received + [s.queue[0]] + s.queue[1..];
    } else if step.Enqueue? {
      assert s.received + (s.queue + [s.producer.item]) == s.received + s.queue + [s.producer.item];
    } else if step.Handover? {
      assert s.received + [] == s.received && s.received + [s.producer.item] + [] == s.received + [s.producer.item];
    }
  }

  ghost predicate Runs<T, E>(states: seq<State<T, E>>, steps: seq<Step<T, E>>) {
    && |states| == |steps| + 1
    && forall i :: 0 <= i < |steps| ==> Enabled(states[i], steps[i]) && states[i + 1] == Apply(states[i], steps[i])
  }

  /** Every state of every run keeps the invariant: what was received followed by what
      is buffered is what was sent. */
  lemma {:induction false} RunKeepsInv<T, E>(states: seq<State<T, E>>, steps: seq<Step<T, E>>, i: nat)
    requires Runs(states, steps) && i < |states| && Inv(states[0])
    ensures Inv(states[i])
  {
    if i > 0 {
      RunKeepsInv(states, steps, i - 1);
      StepKeepsInv(states[i - 1], steps[i - 1]);
    }
  }

  lemma NewKeepsInv<T, E>(capacity: nat)
    ensures Inv<T, E>(New(capacity))
  {
  }

  /** Nothing sent is lost, repeated or reordered, and no step panics. */
  lemma NothingIsLost<T, E>(states: seq<State<T, E>>, steps: seq<Step<T, E>>, capacity: nat, i: nat)
    requires Runs(states, steps) && states[0] == New(capacity) && i < |states|
    ensures states[i].received + states[i].queue == states[i].sent
    ensures i < |steps| ==> !WouldPanic(states[i], steps[i])
  {
    NewKeepsInv<T, E>(capacity);
    RunKeepsInv(states, steps, i);
  }

  lemma ShutStep<T, E>(s: State<T, E>, step: Step<T, E>)
    requires Inv(s) && Enabled(s, step) && s.shut
    ensures var r := Apply(s, step);
      && r.shut && r.sent == s.sent && r.err == s.err
      && (s.queue == [] ==> r.queue == [] && r.received == s.received)
  {
  }

  /** Once the channel is shut nothing more is sent and the recorded end stays; once it
      is also empty nothing more is received. */
  lemma {:induction false} ShutStays<T, E>(states: seq<State<T, E>>, steps: seq<Step<T, E>>, i: nat, j: nat)
    requires Runs(states, steps) && i <= j < |states| && Inv(states[0]) && states[i].shut
    ensures states[j].shut && states[j].sent == states[i].sent && states[j].err == states[i].err
    ensures states[i].queue == [] ==> states[j].queue == [] && states[j].received == states[i].received
    decreases j
  {
    if i < j {
      ShutStays(states, steps, i, j - 1);
      RunKeepsInv(states, steps, j - 1);
      ShutStep(states[j - 1], steps[j - 1]);
    }
  }

  /** A receiver is told of the producer's end only when everything ever sent has been
      received, and then with the one error the producer recorded; both stay so. */
  lemma EndComesLast<T, E>(states: seq<State<T, E>>, steps: seq<Step<T, E>>, capacity: nat, i: nat, j: nat)
    requires Runs(states, steps) && states[0] == New(capacity)
    requires i < |steps| && i <= j < |states| && steps[i].ReportEnd?
    ensures var end := states[i + 1].ends[|states[i].ends|];
      states[i].err == Some(end) && states[j].err == Some(end)
    ensures states[i].received == states[i].sent == states[j].sent == states[j].received
  {
    NewKeepsInv<T, E>(capacity);
    RunKeepsInv(states, steps, i);
    RunKeepsInv(states, steps, j);
    ShutStays(states, steps, i, j);
    assert states[i].received + [] == states[i].received;
  }

  /** `committed` never goes back, and is up exactly when something has entered the
      channel, except between that send and the flag. */
  lemma {:induction false} CommittedStays<T, E>(states: seq<State<T, E>>, steps: seq<Step<T, E>>, i: nat, j: nat)
    requires Runs(states, steps) && i <= j < |states| && states[i].committed
    ensures states[j].committed
    decreases j
  {
    if i < j { CommittedStays(states, steps, i, j - 1); }
  }

  lemma CommittedMeansSent<T, E>(states: seq<State<T, E>>, steps: seq<Step<T, E>>, capacity: nat, i: nat)
    requires Runs(states, steps) && states[0] == New(capacity) && i < |states|
    ensures states[i].committed ==> states[i].sent != []
    ensures !states[i].producer.Accepted? ==> (states[i].committed <==> states[i].sent != [])
  {
    NewKeepsInv<T, E>(capacity);
    RunKeepsInv(states, steps, i);
  }

  /** There is a moment at which a receiver already has an item and the flag is not up. */
  lemma FlagComesLate<T, E>(capacity: nat, item: T)
    ensures var steps: seq<Step<T, E>> := [Offer(item), Handover];
      exists states: seq<State<T, E>> :: Runs(states, steps) && states[0] == New(capacity) && states[2].received == [item] && !states[2].committed
  {
    var steps: seq<Step<T, E>> := [Offer(item), Handover];
    var s0: State<T, E> := New(capacity);
    var s1 := Apply(s0, steps[0]);
    var s2 := Apply(s1, steps[1]);
    assert Runs([s0, s1, s2], steps);
  }

  // ---------------------------------------------------------------- nobody waits without reason

  /** A receiver waits only while the stream is open, empty and not shut; a producer inside
      Send only while the stream is open and neither room nor a receiver is there. */
  lemma WhoWaits<T, E>(s: State<T, E>)
    requires Inv(s)
    ensures (forall step: Step<T, E> :: step.Dequeue? || step.SeeShut? || step.Turned? ==> !Enabled(s, step))
            <==> s.queue == [] && !s.shut && !s.done
    ensures s.producer.Offering? ==>
      ((forall step: Step<T, E> :: step.Enqueue? || step.Handover? || step.GiveUp? ==> !Enabled(s, step))
       <==> |s.queue| >= s.capacity && s.queue != [] && !s.done)
  {
    assert Enabled(s, Dequeue) <==> s.queue != [];
    assert Enabled(s, SeeShut) <==> s.shut && s.queue == [];
    assert Enabled(s, Turned) <==> s.done;
    if s.producer.Offering? {
      assert Enabled(s, Enqueue) <==> |s.queue| < s.capacity;
      assert Enabled(s, Handover) <==> s.queue == [];
      assert Enabled(s, GiveUp) <==> s.done;
    }
  }

  /** Sending to a waiting receiver: the item is received, the stream committed and the
      producer free again. */
  lemma SendHandsOver<T, E>(s: State<T, E>, item: T)
    requires s.producer.Idle? && s.queue == []
    ensures Enabled(s, Offer(item))
    ensures var offered := Apply(s, Offer(item));
      && Enabled(offered, Handover) && Enabled(Apply(offered, Handover), Flag)
      && var t := Apply(Apply(offered, Handover), Flag);
        t.received == s.received + [item] && t.sent == s.sent + [item] && t.queue == [] && t.committed && t.producer.Idle?
  {
  }

  /** Sending into the buffer and receiving from it: first in, first out. */
  lemma SendThenReceive<T, E>(s: State<T, E>, item: T)
    requires s.producer.Idle? && |s.queue| < s.capacity
    ensures Enabled(s, Offer(item))
    ensures var offered := Apply(s, Offer(item));
      && Enabled(offered, Enqueue)
      && var t := Apply(offered, Enqueue);
        && t.queue == s.queue + [item] && Enabled(t, Flag) && Enabled(t, Dequeue)
        && Apply(t, Dequeue).received == s.received + [(s.queue + [item])[0]]
        && Apply(t, Dequeue).queue == (s.queue + [item])[1..]
  {
  }

  /** Closing with an end, once everything is received: a receiver is told that end. */
  lemma EndIsTold<T, E>(s: State<T, E>, end: End<E>)
    requires (s.producer.Idle? || s.producer.Withdrawn?) && s.queue == []
    ensures Enabled(s, RecordEnd(end))
    ensures var recorded := Apply(s, RecordEnd(end));
      && Enabled(recorded, Shut) && Enabled(Apply(recorded, Shut), SeeShut)
      && var seen := Apply(Apply(recorded, Shut), SeeShut);
        Enabled(seen, ReportEnd) && Apply(seen, ReportEnd).ends == s.ends + [end] && Apply(seen, ReportEnd).producer.Stopped?
  {
  }

  // ---------------------------------------------------------------- who has stopped

  /** A producer whose Send found the stream closed takes no further step; one whose context
      ended cannot send again, and may still close with an end. */
  lemma StoppedStep<T, E>(s: State<T, E>, step: Step<T, E>)
    requires s.producer.Stopped? && Enabled(s, step)
    ensures !step.Offer? && !step.RecordEnd? && Apply(s, step).producer.Stopped?
  {
  }

  lemma {:induction false} GivenUpIsOver<T, E>(states: seq<State<T, E>>, steps: seq<Step<T, E>>, i: nat, j: nat)
    requires Runs(states, steps) && i < j < |states| && steps[i].GiveUp?
    ensures states[j].producer.Stopped? && states[j].sent == states[i].sent
    ensures j < |steps| ==> !steps[j].Offer? && !steps[j].RecordEnd?
    decreases j
  {
    if i + 1 < j { GivenUpIsOver(states, steps, i, j - 1); }
    if j < |steps| { StoppedStep(states[j], steps[j]); }
  }

  lemma WithdrawnMayClose<T, E>(s: State<T, E>, item: T, end: End<E>)
    requires Enabled(s, ContextEnds)
    ensures var t := Apply(s, ContextEnds);
      && !Enabled(t, Offer(item)) && Enabled(t, RecordEnd(end)) && t.sent == s.sent && t.queue == s.queue
      && !Enabled(Apply(t, RecordEnd(end)), RecordEnd(end))
  {
  }

  /** The stream is closed from the consumer's side exactly when Close was called. */
  lemma {:induction false} ClosedIff<T, E>(states: seq<State<T, E>>, steps: seq<Step<T, E>>, capacity: nat, i: nat)
    requires Runs(states, steps) && states[0] == New(capacity) && i < |states|
    ensures states[i].done <==> exists j :: 0 <= j < i && steps[j].Close?
  {
    if i > 0 { ClosedIff(states, steps, capacity, i - 1); }
  }

  function CountOf<T(!new), E(!new)>(steps: seq<Step<T, E>>, what: Step<T, E> -> bool): (r: nat) {
    if steps == [] then 0 else CountOf(steps[..|steps| - 1], what) + (if what(steps[|steps| - 1]) then 1 else 0)
  }

  lemma CountMore<T(!new), E(!new)>(steps: seq<Step<T, E>>, what: Step<T, E> -> bool, i: nat)
    requires 0 < i <= |steps|
    ensures CountOf(steps[..i], what) == CountOf(steps[..i - 1], what) + if what(steps[i - 1]) then 1 else 0
  {
    assert steps[..i][..i - 1] == steps[..i - 1];
  }

  lemma TellingStep<T, E>(s: State<T, E>, step: Step<T, E>)
    requires Enabled(s, step)
    ensures var t := Apply(s, step);
      && t.ending + |t.ends| == s.ending + |s.ends| + (if step.SeeShut? then 1 else 0)
      && |t.ends| == |s.ends| + (if step.ReportEnd? then 1 else 0)
  {
  }

  /** Every receiver that found the stream ended is told so once. */
  lemma {:induction false} EachIsToldOnce<T(!new), E(!new)>(states: seq<State<T, E>>, steps: seq<Step<T, E>>, capacity: nat, i: nat)
    requires Runs(states, steps) && states[0] == New(capacity) && i < |states|
    ensures states[i].ending + |states[i].ends| == CountOf(steps[..i], (step: Step<T, E>) => step.SeeShut?)
    ensures |states[i].ends| == CountOf(steps[..i], (step: Step<T, E>) => step.ReportEnd?)
  {
    if i > 0 {
      EachIsToldOnce(states, steps, capacity, i - 1);
      TellingStep(states[i - 1], steps[i - 1]);
      CountMore(steps, (step: Step<T, E>) => step.SeeShut?, i);
      CountMore(steps, (step: Step<T, E>) => step.ReportEnd?, i);
    }
  }
}
