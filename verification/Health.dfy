/**
 The health machine of one managed runtime, common/runtime/manager.go: failure
 and recovery thresholds, and the "pending" mode of an instance whose first
 probe and discovery have not succeeded yet.
 */
module Health {
  const FAILURE_THRESHOLD := 3
  const SUCCESS_THRESHOLD := 2

  datatype State = Healthy | Unhealthy

  /** What an instance publishes, and the counters behind it. */
  datatype View = View(state: State, reported: State, pending: bool, failures: nat, successes: nat, models: seq<string>)

  /** A new instance: ready when its first probe and discovery succeeded, pending otherwise. */
  function Ready(models: seq<string>): View { View(Healthy, Healthy, false, 0, 0, models) }
  function Pending(): View { View(Unhealthy, Unhealthy, true, 0, 0, []) }

  /** doHealthCheck once the Health call has answered. */
  function Checked(v: View, ok: bool): (r: View) {
    if ok then
      var n := v.successes + 1;
      v.(successes := n, failures := 0, reported := Healthy,
         state := if v.state.Unhealthy? && n >= SUCCESS_THRESHOLD then Healthy else v.state)
    else
      var n := v.failures + 1;
      var state := if v.state.Healthy? && n >= FAILURE_THRESHOLD then Unhealthy else v.state;
      v.(failures := n, successes := 0, state := state, reported := state)
  }

  /** The check that brings the instance back, upon which models are discovered anew. */
  predicate Recovers(v: View, ok: bool) {
    v.state.Unhealthy? && Checked(v, ok).state.Healthy?
  }

  /** retryInitialization: both checks succeed and everything is published at once. */
  function Initialized(v: View, models: seq<string>): (r: View) {
    v.(pending := false, state := Healthy, reported := Healthy, models := models)
  }

  function Discovered(v: View, models: seq<string>): (r: View) { v.(models := models) }

  /** While pending an instance is unhealthy, uncounted and has no models. */
  predicate Consistent(v: View) {
    v.pending ==> v == Pending()
  }

  // ---------------------------------------------------------------- the source's object

  /** managedInstance, restricted to what the checks read and write. */
  class Instance {
    var view: View
    var closed: bool

    constructor (view: View)
      ensures this.view == view && !closed
    {
      this.view, closed := view, false;
    }

    /** doHealthCheck: `ok` is whether the Health call succeeded and reported healthy,
        `initialized` whether a pending instance's Probe and Discover did. */
    method DoHealthCheck(ok: bool, initialized: bool, models: seq<string>) returns (recovered: bool)
      requires Consistent(view)
      modifies this`view
      ensures Consistent(view)
      ensures closed ==> view == old(view) && !recovered
      ensures !closed && old(view).pending ==>
        !recovered && view == if initialized then Initialized(old(view), models) else old(view)
      ensures !closed && !old(view).pending ==>
        view == Checked(old(view), ok) && recovered == Recovers(old(view), ok)
    {
      if view.pending {
        RetryInitialization(initialized, models);
        return false;
      }
      recovered := false;
      if closed {
        return;
      }
      if ok {
        var successes := view.successes + 1;
        var state := view.state;
        if state.Unhealthy? && successes >= SUCCESS_THRESHOLD {
          state := Healthy;
          recovered := true;
        }
        view := view.(successes := successes, failures := 0, state := state, reported := Healthy);
      } else {
        var failures := view.failures + 1;
        var state := view.state;
        if state.Healthy? && failures >= FAILURE_THRESHOLD {
          state := Unhealthy;
        }
        view := view.(failures := failures, successes := 0, state := state, reported := state);
      }
    }

    method RetryInitialization(initialized: bool, models: seq<string>)
      requires view.pending && Consistent(view)
      modifies this`view
      ensures Consistent(view)
      ensures view == if !closed && initialized then Initialized(old(view), models) else old(view)
    {
      if closed || !initialized {
        return;
      }
      view := view.(pending := false, state := Healthy, reported := Healthy, models := models);
    }

    method DoDiscoverRefresh(found: bool, models: seq<string>)
      requires Consistent(view)
      modifies this`view
      ensures Consistent(view)
      ensures view == if !closed && !old(view).pending && found then Discovered(old(view), models) else old(view)
    {
      if view.pending || !found || closed {
        return;
      }
      view := view.(models := models);
    }
  }

  // ---------------------------------------------------------------- history

  /** All checks of an initialised instance, oldest first. */
  function After(v: View, history: seq<bool>): (r: View) {
    if history == [] then v else Checked(After(v, history[..|history| - 1]), history[|history| - 1])
  }

  /** The history up to check `k` ends in three failures, or in two successes. */
  predicate DownAt(h: seq<bool>, k: int) {
    3 <= k <= |h| && !h[k - 1] && !h[k - 2] && !h[k - 3]
  }
  predicate UpAt(h: seq<bool>, k: int) {
    2 <= k <= |h| && h[k - 1] && h[k - 2]
  }

  /** The most recent such point was a down. */
  ghost predicate LastWasDown(h: seq<bool>) {
    exists k :: DownAt(h, k) && forall j :: k < j ==> !UpAt(h, j)
  }

  function Trailing(h: seq<bool>, b: bool): (n: nat)
    ensures n <= |h|
    ensures forall i :: |h| - n <= i < |h| ==> h[i] == b
    ensures n < |h| ==> h[|h| - n - 1] != b
  {
    if h == [] || h[|h| - 1] != b then 0 else 1 + Trailing(h[..|h| - 1], b)
  }

  lemma {:induction false} Counters(models: seq<string>, h: seq<bool>)
    ensures var v := After(Ready(models), h);
      v.failures == Trailing(h, false) && v.successes == Trailing(h, true) && !v.pending && v.models == models
  {
    if h != [] { Counters(models, h[..|h| - 1]); }
  }

  lemma LastWasDownStep(h: seq<bool>)
    requires h != []
    ensures LastWasDown(h) <==> DownAt(h, |h|) || (LastWasDown(h[..|h| - 1]) && !UpAt(h, |h|))
  {
    var g := h[..|h| - 1];
    forall k | k <= |g| ensures DownAt(h, k) == DownAt(g, k) && UpAt(h, k) == UpAt(g, k) { }
    if LastWasDown(h) && !DownAt(h, |h|) {
      var k :| DownAt(h, k) && forall j :: k < j ==> !UpAt(h, j);
      assert DownAt(g, k);
      assert !UpAt(h, |h|);
      forall j | k < j ensures !UpAt(g, j) {
        assert j <= |g| ==> UpAt(h, j) == UpAt(g, j);
        assert !UpAt(h, j);
      }
    }
    if LastWasDown(g) && !UpAt(h, |h|) {
      var k :| DownAt(g, k) && forall j :: k < j ==> !UpAt(g, j);
      assert DownAt(h, k);
      forall j | k < j ensures !UpAt(h, j) {
        assert !UpAt(g, j);
        assert j <= |g| ==> UpAt(h, j) == UpAt(g, j);
      }
    }
    if DownAt(h, |h|) {
      assert forall j :: |h| < j ==> !UpAt(h, j);
    }
  }

  /** The counters are an implementation of the history rule: after every history of
      checks the instance is unhealthy exactly when the most recent run of three
      failures came after the most recent run of two successes. */
  lemma {:induction false} StateIsHistory(models: seq<string>, h: seq<bool>)
    ensures After(Ready(models), h).state.Unhealthy? <==> LastWasDown(h)
  {
    if h == [] {
    } else {
      var g := h[..|h| - 1];
      StateIsHistory(models, g);
      LastWasDownStep(h);
      Counters(models, g);
      var v := After(Ready(models), g);
      if h[|h| - 1] {
        TrailingAtLeast(g, true, 1);
      } else {
        TrailingAtLeast(g, false, 2);
      }
    }
  }

  lemma TrailingAtLeast(g: seq<bool>, b: bool, n: nat)
    requires n <= 2
    ensures Trailing(g, b) >= n <==> n <= |g| && (n >= 1 ==> g[|g| - 1] == b) && (n >= 2 ==> g[|g| - 2] == b)
  {
    var t := Trailing(g, b);
    if t < n && t < |g| { assert g[|g| - t - 1] != b; }
  }

  /** Checks that took the instance down, and that brought it back. */
  function Downs(models: seq<string>, h: seq<bool>): (n: nat) {
    if h == [] then 0 else
      var g := h[..|h| - 1];
      Downs(models, g) + (if After(Ready(models), g).state.Healthy? && After(Ready(models), h).state.Unhealthy? then 1 else 0)
  }
  function Ups(models: seq<string>, h: seq<bool>): (n: nat) {
    if h == [] then 0 else
      var g := h[..|h| - 1];
      Ups(models, g) + (if Recovers(After(Ready(models), g), h[|h| - 1]) then 1 else 0)
  }

  /** Every change of state is paid for by checks of its own, so an instance cannot
      flap faster than once in five checks. */
  lemma {:induction false} ChangesArePaidFor(models: seq<string>, h: seq<bool>)
    ensures 3 * Downs(models, h) + 2 * Ups(models, h) <= |h|
    ensures Downs(models, h) - Ups(models, h) == if After(Ready(models), h).state.Healthy? then 0 else 1
    decreases |h|
  {
    Budget(models, h);
  }

  lemma {:induction false} Budget(models: seq<string>, h: seq<bool>)
    ensures var v := After(Ready(models), h);
      && 3 * Downs(models, h) + 2 * Ups(models, h) + (if v.state.Healthy? then v.failures else v.successes) <= |h|
      && (v.state.Healthy? ==> v.failures < 3 && Downs(models, h) == Ups(models, h))
      && (v.state.Unhealthy? ==> v.successes < 2 && Downs(models, h) == Ups(models, h) + 1)
  {
    if h != [] {
      var g := h[..|h| - 1];
      Budget(models, g);
    }
  }
}
