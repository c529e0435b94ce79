/**
 Errors across the tunnel: their wire form and back
 (common/tunnelwire/wire.go, common/tunnelwire/messages.go), and the outcome label
 both ends give them (common/tunnelwire/result.go). An error is a tree of wrapped
 and joined errors; errors.Is and errors.As walk it depth first.
 */
module TunnelErrors {
  import opened BoundedFilter
  import opened Options
  import opened UpstreamHeader

  // ---------------------------------------------------------------- errors

  /** The errors both ends know by name. */
  datatype Sentinel =
    | FactoryAlreadyRegistered | KindUnsupported | IdDuplicated | NotFound | CancelUnsupported
    | CapabilityUnknown | CapabilityUnsupported | ConcurrencyLimit | Closed | Canceled | DeadlineExceeded

  datatype Code =
    | InvalidConfig | Connection | ProbeMismatch | Unauthorized | Capability | RateLimited | Timeout | UpstreamFailed
    | Protocol | ResponseTooLarge | CancelRefused | RuntimeClosed | Backpressure | OtherCode(text: string)

  /** What the upstream answered. */
  datatype Upstream = Upstream(status: int, header: Header, body: string)

  /** A RuntimeError without its cause. */
  datatype Detail = Detail(code: Code, runtimeId: string, kind: string, operation: string, status: int, message: string,
                           retryable: bool, retryAfter: int, upstream: Option<Upstream>)

  datatype Failure =
    | Plain(text: string)
    | Known(sentinel: Sentinel)
    | Wrapped(text: string, inner: Failure)
    | Joined(parts: seq<Failure>)
    | Runtime(detail: Detail, cause: Option<Failure>)

  /** errors.Is for a sentinel. */
  predicate Is(e: Failure, s: Sentinel) {
    match e
    case Plain(_) => false
    case Known(t) => t == s
    case Wrapped(_, inner) => Is(inner, s)
    case Joined(parts) => exists i :: 0 <= i < |parts| && Is(parts[i], s)
    case Runtime(_, cause) => cause.Some? && Is(cause.value, s)
  }

  /** errors.As for a RuntimeError: the first one met. */
  function FirstRuntime(e: Failure): (r: Option<Failure>)
    ensures r.Some? ==> r.value.Runtime?
    decreases e, 2
  {
    match e
    case Plain(_) => None
    case Known(_) => None
    case Wrapped(_, inner) => FirstRuntime(inner)
    case Joined(parts) => FirstAmong(e, 0)
    case Runtime(_, _) => Some(e)
  }

  function FirstAmong(e: Failure, i: nat): (r: Option<Failure>)
    requires e.Joined? && i <= |e.parts|
    ensures r.Some? ==> r.value.Runtime?
    decreases e, 1, |e.parts| - i
  {
    if i == |e.parts| then None
    else
      var r := FirstRuntime(e.parts[i]);
      if r.Some? then r else FirstAmong(e, i + 1)
  }

  // ---------------------------------------------------------------- sentinel names

  /** The order in which a name is looked for. */
  const SENTINELS: seq<Sentinel> := [
    FactoryAlreadyRegistered, KindUnsupported, IdDuplicated, NotFound, CancelUnsupported,
    CapabilityUnknown, CapabilityUnsupported, ConcurrencyLimit, Closed, Canceled, DeadlineExceeded]

  function Place(s: Sentinel): (r: nat)
    ensures r < |SENTINELS| && SENTINELS[r] == s
  {
    match s
    case FactoryAlreadyRegistered => 0
    case KindUnsupported => 1
    case IdDuplicated => 2
    case NotFound => 3
    case CancelUnsupported => 4
    case CapabilityUnknown => 5
    case CapabilityUnsupported => 6
    case ConcurrencyLimit => 7
    case Closed => 8
    case Canceled => 9
    case DeadlineExceeded => 10
  }

  /** The wire's names for them. */
  const NAMES: seq<string> := [
    "ErrFactoryAlreadyRegistered", "ErrRuntimeKindUnsupported", "ErrRuntimeIDDuplicated", "ErrRuntimeNotFound",
    "ErrCancelUnsupported", "ErrCapabilityUnknown", "ErrCapabilityUnsupported", "ErrConcurrencyLimit",
    "ErrRuntimeClosed", "ErrContextCanceled", "ErrContextDeadlineExceeded"]

  function NameOf(s: Sentinel): (r: string) { NAMES[Place(s)] }

  lemma NamesDiffer(i: nat, j: nat)
    requires i < |NAMES| && j < |NAMES| && i != j
    ensures NAMES[i] != NAMES[j] && NAMES[i] != ""
  {
  }

  /** The first sentinel, in the list's order, that the error carries. */
  function FirstKnown(e: Failure, i: nat): (r: Option<Sentinel>)
    requires i <= |SENTINELS|
    decreases |SENTINELS| - i
  {
    if i == |SENTINELS| then None
    else if Is(e, SENTINELS[i]) then Some(SENTINELS[i])
    else FirstKnown(e, i + 1)
  }

  lemma {:induction false} FirstKnownSpec(e: Failure, i: nat)
    requires i <= |SENTINELS|
    ensures var r := FirstKnown(e, i);
      && (r.Some? ==> Is(e, r.value) && i <= Place(r.value))
      && (forall s :: Is(e, s) && i <= Place(s) ==> r.Some? && Place(r.value) <= Place(s))
    decreases |SENTINELS| - i
  {
    if i < |SENTINELS| {
      if !Is(e, SENTINELS[i]) { FirstKnownSpec(e, i + 1); }
    }
  }

  function CauseOf(e: Option<Failure>): (r: Option<Sentinel>) {
    if e.None? then None else FirstKnown(e.value, 0)
  }

  /** sentinelWireName. */
  function WireName(e: Option<Failure>): (r: string) {
    var s := CauseOf(e);
    if s.None? then "" else NameOf(s.value)
  }

  /** The sentinel of a name, if there is one. */
  function ByName(name: string, i: nat): (r: Option<Sentinel>)
    requires i <= |SENTINELS|
    decreases |SENTINELS| - i
  {
    if i == |SENTINELS| then None else if NAMES[i] == name then Some(SENTINELS[i]) else ByName(name, i + 1)
  }

  function Restore(name: string): (r: Option<Failure>) {
    var s := ByName(name, 0);
    if s.None? then None else Some(Known(s.value))
  }

  lemma {:induction false} ByNameFinds(s: Sentinel, i: nat)
    requires i <= Place(s)
    ensures ByName(NameOf(s), i) == Some(s)
    decreases Place(s) - i
  {
    if i < Place(s) {
      NamesDiffer(i, Place(s));
      ByNameFinds(s, i + 1);
    }
  }

  lemma {:induction false} NoNameNoSentinel(i: nat)
    requires i <= |SENTINELS|
    ensures ByName("", i) == None
    decreases |SENTINELS| - i
  {
    if i < |SENTINELS| {
      NamesDiffer(i, if i == 0 then 1 else 0);
      NoNameNoSentinel(i + 1);
    }
  }

  /** A name restores its sentinel, and no name restores none. */
  lemma NameRestores(e: Option<Failure>)
    ensures Restore(WireName(e)) == if CauseOf(e).None? then None else Some(Known(CauseOf(e).value))
  {
    if CauseOf(e).None? { NoNameNoSentinel(0); } else { ByNameFinds(CauseOf(e).value, 0); }
  }

  lemma KnownIsItself(s: Sentinel)
    ensures CauseOf(Some(Known(s))) == Some(s)
  {
    FirstKnownSpec(Known(s), 0);
    assert Is(Known(s), s);
  }

  // ---------------------------------------------------------------- the wire

  datatype WireUpstream = WireUpstream(status: int, headers: seq<WireHeader>, body: string)

  datatype WireError = WireError(code: Code, runtimeId: string, kind: string, operation: string, status: int, message: string,
                                 retryable: bool, retryAfter: Option<int>, cause: string, upstream: Option<WireUpstream>)

  /** Go's int32 conversion. */
  function Int32(x: int): (r: int)
    ensures -0x8000_0000 <= r < 0x8000_0000 && (-0x8000_0000 <= x < 0x8000_0000 ==> r == x)
  {
    (x + 0x8000_0000) % 0x1_0000_0000 - 0x8000_0000
  }

  /** `valid` is ValidUpstreamErrorBody: a bounded JSON error document. */
  ghost function UpstreamToProto(valid: string -> bool, u: Option<Upstream>): (r: Option<WireUpstream>) {
    if u.None? || u.value.status < 100 || u.value.status > 999 then None
    else Some(WireUpstream(Int32(u.value.status), ToProto(u.value.header), if valid(u.value.body) then u.value.body else ""))
  }

  ghost function UpstreamFromProto(valid: string -> bool, u: Option<WireUpstream>): (r: Option<Upstream>) {
    if u.None? || u.value.status < 100 || u.value.status > 999 then None
    else Some(Upstream(u.value.status, FromProto(u.value.headers), if valid(u.value.body) then u.value.body else ""))
  }

  /** ClassifyBareError: a code and a message that quotes nothing. */
  function ClassifyBareError(e: Failure): (r: (Code, string)) {
    if Is(e, DeadlineExceeded) then (Timeout, "request deadline exceeded")
    else if Is(e, Canceled) then (Connection, "request cancelled")
    else (UpstreamFailed, "unclassified runtime error; see the Agent log for detail")
  }

  ghost function ErrorToProto(valid: string -> bool, e: Failure): (r: WireError) {
    var found := FirstRuntime(e);
    if found.Some? then
      var d := found.value.detail;
      WireError(d.code, d.runtimeId, d.kind, d.operation, Int32(d.status), d.message, d.retryable,
                if d.retryAfter <= 0 then None else Some(d.retryAfter), WireName(found.value.cause),
                UpstreamToProto(valid, d.upstream))
    else
      var (code, message) := ClassifyBareError(e);
      WireError(code, "", "", "", 0, message, false, None, WireName(Some(e)), None)
  }

  ghost function ErrorFromProto(valid: string -> bool, w: WireError): (r: Failure) {
    var wait := if w.retryAfter.None? then 0 else w.retryAfter.value;
    Runtime(Detail(w.code, w.runtimeId, w.kind, w.operation, w.status, w.message, w.retryable,
                   if wait > 0 then wait else 0, UpstreamFromProto(valid, w.upstream)),
            Restore(w.cause))
  }

  // ---------------------------------------------------------------- projecting twice

  lemma UpstreamIsStable(valid: string -> bool, u: Option<Upstream>)
    ensures var w := UpstreamToProto(valid, u); UpstreamToProto(valid, UpstreamFromProto(valid, w)) == w
  {
    if u.Some? { HeaderRoundTrip(u.value.header); }
  }

  lemma WireNameIsStable(e: Option<Failure>)
    ensures WireName(Restore(WireName(e))) == WireName(e)
  {
    NameRestores(e);
    if CauseOf(e).Some? { KnownIsItself(CauseOf(e).value); }
  }

  /** Projecting an error onto the wire, restoring it and projecting it again gives the
      same wire error, for every error. */
  lemma WireErrorIsStable(valid: string -> bool, e: Failure)
    ensures var w := ErrorToProto(valid, e); ErrorToProto(valid, ErrorFromProto(valid, w)) == w
  {
    var w := ErrorToProto(valid, e);
    var found := FirstRuntime(e);
    WireNameIsStable(if found.Some? then found.value.cause else Some(e));
    UpstreamIsStable(valid, if found.Some? then found.value.detail.upstream else None);
    assert FirstRuntime(ErrorFromProto(valid, w)) == Some(ErrorFromProto(valid, w));
  }

  // ---------------------------------------------------------------- branching on the far side

  /** The part of an error whose sentinel is sent. */
  function Scope(e: Failure): (r: Option<Failure>) {
    var found := FirstRuntime(e);
    if found.Some? then found.value.cause else Some(e)
  }

  ghost predicate InScope(e: Failure, s: Sentinel) { Scope(e).Some? && Is(Scope(e).value, s) }

  ghost function Crossed(valid: string -> bool, e: Failure): (r: Failure) { ErrorFromProto(valid, ErrorToProto(valid, e)) }

  /** What the label and errors.Is see of an error is what they see of a restored one. */
  ghost predicate CrossesAs(e: Failure, r: Failure) {
    && r.Runtime? && FirstRuntime(r) == Some(r)
    && r.detail.code == CodeOf(e)
    && forall s :: Is(r, s) <==> CauseOf(Scope(e)) == Some(s)
  }

  function CodeOf(e: Failure): (r: Code) {
    var found := FirstRuntime(e);
    if found.Some? then found.value.detail.code else ClassifyBareError(e).0
  }

  lemma CrossedCause(valid: string -> bool, e: Failure)
    ensures CrossesAs(e, Crossed(valid, e))
  {
    NameRestores(Scope(e));
  }

  lemma {:induction false} RuntimeIsInside(e: Failure, s: Sentinel)
    requires FirstRuntime(e).Some? && Is(FirstRuntime(e).value, s)
    ensures Is(e, s)
    decreases e, 2
  {
    match e
    case Wrapped(_, inner) => RuntimeIsInside(inner, s);
    case Joined(parts) => AmongIsInside(e, 0, s);
    case Runtime(_, _) =>
  }

  lemma {:induction false} AmongIsInside(e: Failure, i: nat, s: Sentinel)
    requires e.Joined? && i <= |e.parts| && FirstAmong(e, i).Some? && Is(FirstAmong(e, i).value, s)
    ensures Is(e, s)
    decreases e, 1, |e.parts| - i
  {
    if FirstRuntime(e.parts[i]).Some? {
      RuntimeIsInside(e.parts[i], s);
    } else {
      AmongIsInside(e, i + 1, s);
    }
  }

  lemma ScopeIsInside(e: Failure, s: Sentinel)
    requires InScope(e, s)
    ensures Is(e, s)
  {
    if FirstRuntime(e).Some? { RuntimeIsInside(e, s); }
  }

  /** At most one sentinel, carried where it is sent from. */
  ghost predicate OneSentinelSent(e: Failure) {
    && (forall s, t :: Is(e, s) && Is(e, t) ==> s == t)
    && (forall s :: Is(e, s) ==> InScope(e, s))
  }

  lemma FirstInScope(e: Failure)
    ensures CauseOf(Scope(e)).Some? ==> InScope(e, CauseOf(Scope(e)).value)
    ensures (exists s :: InScope(e, s)) ==> CauseOf(Scope(e)).Some?
  {
    if Scope(e).Some? {
      FirstKnownSpec(Scope(e).value, 0);
      if s :| InScope(e, s) { assert Is(Scope(e).value, s) && 0 <= Place(s); }
    }
  }

  /** errors.Is answers alike for every sentinel. */
  ghost predicate Alike(e: Failure, r: Failure) { forall s :: Is(r, s) <==> Is(e, s) }

  lemma AlikeMeansSent(e: Failure, r: Failure)
    requires CrossesAs(e, r) && Alike(e, r)
    ensures OneSentinelSent(e)
  {
    FirstInScope(e);
    forall s, t | Is(e, s) && Is(e, t) ensures s == t { assert Is(r, s) && Is(r, t); }
    forall s | Is(e, s) ensures InScope(e, s) { assert Is(r, s); }
  }

  lemma SentMeansAlike(e: Failure, r: Failure)
    requires CrossesAs(e, r) && OneSentinelSent(e)
    ensures Alike(e, r)
  {
    FirstInScope(e);
    forall s ensures Is(r, s) <==> Is(e, s) {
      if Is(r, s) {
        ScopeIsInside(e, s);
      }
      if Is(e, s) {
        assert InScope(e, s);
        var first := CauseOf(Scope(e)).value;
        ScopeIsInside(e, first);
        assert first == s;
      }
    }
  }

  /** errors.Is gives the same answer for every sentinel on both ends exactly when the
      error carries at most one of them, and carries it where it is sent from. */
  lemma BranchesAlikeIff(valid: string -> bool, e: Failure)
    ensures Alike(e, Crossed(valid, e)) <==> OneSentinelSent(e)
  {
    var r := Crossed(valid, e);
    CrossedCause(valid, e);
    if Alike(e, r) { AlikeMeansSent(e, r); }
    if OneSentinelSent(e) { SentMeansAlike(e, r); }
  }

  // ---------------------------------------------------------------- outcome labels

  datatype Result = Success | ClientError | UpstreamError | TimedOut | Cancelled | Overloaded

  /** The label of a code, for an error that carries a cancellation or does not. */
  function LabelOf(code: Code, canceled: bool): (r: Result) {
    match code
    case RateLimited => Overloaded
    case Backpressure => Overloaded
    case Timeout => TimedOut
    case InvalidConfig => ClientError
    case Unauthorized => ClientError
    case Capability => ClientError
    case Protocol => ClientError
    case ResponseTooLarge => ClientError
    case CancelRefused => ClientError
    case ProbeMismatch => ClientError
    case Connection => if canceled then Cancelled else UpstreamError
    case _ => UpstreamError
  }

  function ResultFor(e: Option<Failure>): (r: Result) {
    if e.None? then Success
    else if FirstRuntime(e.value).None? && Is(e.value, Canceled) then Cancelled
    else LabelOf(CodeOf(e.value), Is(e.value, Canceled))
  }

  /** The cancellation an error carries is the one that is sent: a bare error carries no
      other sentinel beside it, and a broken connection has it first below its RuntimeError. */
  ghost predicate CancelIsSent(e: Failure) {
    Is(e, Canceled) ==>
      var found := FirstRuntime(e);
      if found.None? then forall s :: Is(e, s) ==> s == Canceled
      else found.value.detail.code == Connection ==> CauseOf(found.value.cause) == Some(Canceled)
  }

  lemma RuntimeLabel(e: Failure, r: Failure)
    requires CrossesAs(e, r) && FirstRuntime(e).Some?
    ensures ResultFor(Some(r)) == ResultFor(Some(e)) <==> CancelIsSent(e)
  {
    FirstInScope(e);
    assert Scope(e) == FirstRuntime(e).value.cause;
    if InScope(e, Canceled) { ScopeIsInside(e, Canceled); }
    assert Is(r, Canceled) ==> Is(e, Canceled);
    assert CodeOf(r) == CodeOf(e);
  }

  lemma BareLabel(e: Failure, r: Failure)
    requires CrossesAs(e, r) && FirstRuntime(e).None?
    ensures ResultFor(Some(r)) == ResultFor(Some(e)) <==> CancelIsSent(e)
  {
    assert CodeOf(r) == CodeOf(e) && Scope(e) == Some(e);
    if Is(e, Canceled) { FirstIsCanceledIff(e); }
    assert Is(r, Canceled) <==> FirstKnown(e, 0) == Some(Canceled);
  }

  /** Beside a cancellation, a deadline comes later in the list and all others earlier. */
  lemma FirstIsCanceledIff(e: Failure)
    requires Is(e, Canceled)
    ensures FirstKnown(e, 0) == Some(Canceled) && !Is(e, DeadlineExceeded) <==> forall s :: Is(e, s) ==> s == Canceled
  {
    FirstKnownSpec(e, 0);
    assert 0 <= Place(Canceled);
    var first := FirstKnown(e, 0);
    assert first.Some? && Is(e, first.value);
    if FirstKnown(e, 0) == Some(Canceled) && !Is(e, DeadlineExceeded) {
      forall s | Is(e, s) ensures s == Canceled { LateSentinels(s); }
    }
  }

  /** Both ends give an error the same label exactly when its cancellation is sent. */
  lemma SameLabelIff(valid: string -> bool, e: Failure)
    ensures ResultFor(Some(Crossed(valid, e))) == ResultFor(Some(e)) <==> CancelIsSent(e)
  {
    CrossedCause(valid, e);
    if FirstRuntime(e).Some? {
      RuntimeLabel(e, Crossed(valid, e));
    } else {
      BareLabel(e, Crossed(valid, e));
    }
  }

  lemma LateSentinels(s: Sentinel)
    ensures Place(s) >= Place(Canceled) ==> s == Canceled || s == DeadlineExceeded
  {
  }

  /** An error that wraps one error at a time. */
  predicate Chain(e: Failure) {
    match e
    case Plain(_) => true
    case Known(_) => true
    case Wrapped(_, inner) => Chain(inner)
    case Joined(_) => false
    case Runtime(_, cause) => cause.None? || Chain(cause.value)
  }

  lemma {:induction false} ChainCarriesOne(e: Failure, s: Sentinel, t: Sentinel)
    requires Chain(e) && Is(e, s) && Is(e, t)
    ensures s == t && InScope(e, s)
    decreases e
  {
    match e
    case Known(_) =>
    case Wrapped(_, inner) => ChainCarriesOne(inner, s, t);
    case Runtime(_, cause) => ChainCarriesOne(cause.value, s, t);
  }

  lemma ChainSends(e: Failure)
    requires Chain(e)
    ensures OneSentinelSent(e) && CancelIsSent(e)
  {
    forall s, t | Is(e, s) && Is(e, t) ensures s == t && InScope(e, s) { ChainCarriesOne(e, s, t); }
    forall s | Is(e, s) ensures InScope(e, s) { ChainCarriesOne(e, s, s); }
    FirstInScope(e);
    if CauseOf(Scope(e)).Some? { ScopeIsInside(e, CauseOf(Scope(e)).value); }
  }

  /** A linear chain is labelled and branched on alike by both ends. */
  lemma ChainsCrossUnchanged(valid: string -> bool, e: Failure)
    requires Chain(e)
    ensures Alike(e, Crossed(valid, e))
    ensures ResultFor(Some(Crossed(valid, e))) == ResultFor(Some(e))
  {
    ChainSends(e);
    BranchesAlikeIff(valid, e);
    SameLabelIff(valid, e);
  }

  /** A joined error may be labelled and branched on differently: one that a closing
      runtime cancelled is a cancellation here and something else on the far side. */
  lemma JoinedMayDisagree(valid: string -> bool)
    ensures var e := Joined([Known(Closed), Known(Canceled)]);
      && ResultFor(Some(e)) == Cancelled && ResultFor(Some(Crossed(valid, e))) != Cancelled
      && !Alike(e, Crossed(valid, e))
  {
    var parts := [Known(Closed), Known(Canceled)];
    var e := Joined(parts);
    assert Is(parts[0], Closed) && Is(parts[1], Canceled);
    assert FirstRuntime(parts[0]) == None && FirstRuntime(parts[1]) == None;
    assert FirstAmong(e, 2) == None;
    assert FirstAmong(e, 1) == None;
    assert FirstAmong(e, 0) == None;
    assert Is(e, Closed) && Is(e, Canceled);
    SameLabelIff(valid, e);
    BranchesAlikeIff(valid, e);
  }

  // ---------------------------------------------------------------- which label, and what crosses

  /** The codes that are the caller's own fault. */
  predicate ClientCode(code: Code) {
    || code == InvalidConfig || code == Unauthorized || code == Capability || code == Protocol
    || code == ResponseTooLarge || code == CancelRefused || code == ProbeMismatch
  }

  /** The label of every error, told from the code of its first RuntimeError or, without
      one, from the deadline or cancellation it carries. */
  lemma {:induction false} LabelsAre(e: Failure)
    ensures var found, given := FirstRuntime(e), ResultFor(Some(e));
      && ResultFor(None) == Success && given != Success
      && (found.None? ==>
            given == if Is(e, Canceled) then Cancelled else if Is(e, DeadlineExceeded) then TimedOut else UpstreamError)
      && (found.Some? ==>
            var code := found.value.detail.code;
            && (given == Overloaded <==> code == RateLimited || code == Backpressure)
            && (given == TimedOut <==> code == Timeout)
            && (given == Cancelled <==> code == Connection && Is(e, Canceled))
            && (given == ClientError <==> ClientCode(code)))
  {
  }

  /** errors.As finds the first RuntimeError on the way down, the outermost before what it
      wraps and the earlier part of a join before the later. */
  lemma FirstRuntimeIsFirst(e: Failure)
    ensures e.Runtime? ==> FirstRuntime(e) == Some(e)
    ensures e.Wrapped? ==> FirstRuntime(e) == FirstRuntime(e.inner)
    ensures e.Plain? || e.Known? ==> FirstRuntime(e) == None
    ensures e.Joined? ==>
      (FirstRuntime(e).None? && forall i :: 0 <= i < |e.parts| ==> FirstRuntime(e.parts[i]).None?)
      || exists i :: 0 <= i < |e.parts| && FirstRuntime(e) == FirstRuntime(e.parts[i]) && FirstRuntime(e).Some?
           && forall j :: 0 <= j < i ==> FirstRuntime(e.parts[j]).None?
  {
    if e.Joined? { FirstAmongIsFirst(e, 0); }
  }

  lemma {:induction false} FirstAmongIsFirst(e: Failure, n: nat)
    requires e.Joined? && n <= |e.parts|
    ensures (FirstAmong(e, n).None? && forall i :: n <= i < |e.parts| ==> FirstRuntime(e.parts[i]).None?)
            || exists i :: n <= i < |e.parts| && FirstAmong(e, n) == FirstRuntime(e.parts[i]) && FirstAmong(e, n).Some?
                 && forall j :: n <= j < i ==> FirstRuntime(e.parts[j]).None?
    decreases |e.parts| - n
  {
    if n < |e.parts| {
      if FirstRuntime(e.parts[n]).Some? {
        assert FirstAmong(e, n) == FirstRuntime(e.parts[n]);
      } else {
        FirstAmongIsFirst(e, n + 1);
      }
    }
  }

  /** What the far side sees of a RuntimeError: every field, the status as 32 bits, no
      negative wait, the upstream's answer with its headers filtered once and only a valid
      document. */
  lemma CrossedDetail(valid: string -> bool, e: Failure)
    requires FirstRuntime(e).Some?
    ensures var d, r := FirstRuntime(e).value.detail, Crossed(valid, e);
      && r.Runtime?
      && r.detail.code == d.code && r.detail.runtimeId == d.runtimeId && r.detail.kind == d.kind
      && r.detail.operation == d.operation && r.detail.message == d.message && r.detail.retryable == d.retryable
      && (-0x8000_0000 <= d.status < 0x8000_0000 ==> r.detail.status == d.status)
      && r.detail.retryAfter == (if d.retryAfter > 0 then d.retryAfter else 0)
      && r.detail.upstream == CrossedUpstream(valid, d.upstream)
  {
    UpstreamCrosses(valid, FirstRuntime(e).value.detail.upstream);
  }

  lemma UpstreamCrosses(valid: string -> bool, u: Option<Upstream>)
    ensures UpstreamFromProto(valid, UpstreamToProto(valid, u)) == CrossedUpstream(valid, u)
  {
    if u.Some? { HeaderRoundTrip(u.value.header); }
  }

  ghost function CrossedUpstream(valid: string -> bool, u: Option<Upstream>): (r: Option<Upstream>) {
    if u.Some? && 100 <= u.value.status <= 999
    then Some(Upstream(u.value.status, Sanitized(u.value.header), if valid(u.value.body) then u.value.body else ""))
    else None
  }

  /** Whatever a peer sends, the receiving end takes an upstream answer exactly when its status
      is one, and then with headers in order and a valid body or none, and no negative wait. */
  lemma ReceivedUpstream(valid: string -> bool, w: WireError)
    ensures var r := ErrorFromProto(valid, w);
      && r.Runtime? && r.detail.retryAfter == (if w.retryAfter.Some? && w.retryAfter.value > 0 then w.retryAfter.value else 0)
      && (r.detail.upstream.Some? <==> w.upstream.Some? && 100 <= w.upstream.value.status <= 999)
      && (r.detail.upstream.Some? ==>
            var u := r.detail.upstream.value;
            && u.status == w.upstream.value.status && InOrder(u.header)
            && u.body == (if valid(w.upstream.value.body) then w.upstream.value.body else ""))
  {
    if w.upstream.Some? { RestoredIsInOrder(w.upstream.value.headers); }
  }

  /** Of any other error nothing crosses but its class: the message is one of three fixed
      ones, whatever the error's own text says. */
  lemma NoTextCrosses(valid: string -> bool, e: Failure)
    requires FirstRuntime(e).None?
    ensures var r := Crossed(valid, e);
      && r.Runtime? && r.detail.upstream == None && r.detail.runtimeId == "" && r.detail.kind == "" && r.detail.operation == ""
      && r.detail.status == 0 && !r.detail.retryable && r.detail.retryAfter == 0
      && (Is(e, DeadlineExceeded) ==> r.detail.code == Timeout && r.detail.message == "request deadline exceeded")
      && (!Is(e, DeadlineExceeded) && Is(e, Canceled) ==> r.detail.code == Connection && r.detail.message == "request cancelled")
      && (!Is(e, DeadlineExceeded) && !Is(e, Canceled) ==>
            r.detail.code == UpstreamFailed && r.detail.message == "unclassified runtime error; see the Agent log for detail")
  {
  }
}
