/** The fixed-window request limiter of a provider. Times are nanoseconds. */
module RateWindow {
  import opened Wrappers
  import opened Units

  const MILLISECOND: nat := 1_000_000

  datatype Window = Window(started: nat, requests: nat)

  /** The window that a call at `now` counts in: the current one, or a new one a second later. */
  function Current(window: Option<Window>, now: nat): Window {
    match window
    case None => Window(now, 0)
    case Some(w) => if Elapsed(now, w.started) >= SECOND then Window(now, 0) else w
  }

  predicate Admits(window: Option<Window>, limit: nat, now: nat) { Current(window, now).requests < limit }

  function After(window: Option<Window>, limit: nat, now: nat): Window {
    var w := Current(window, now);
    if w.requests < limit then w.(requests := w.requests + 1) else w
  }

  /** What is left of a second, in milliseconds and at least one. */
  function RetryHint(elapsed: nat): nat {
    var left := if elapsed < SECOND then (SECOND - elapsed) / MILLISECOND else 0;
    if left < 1 then 1 else left
  }

  /** How long the window in place has been open; a first call opens one. */
  function SinceStart(window: Option<Window>, now: nat): nat {
    if window.Some? then Elapsed(now, window.value.started) else 0
  }

  /** The limits of all providers. */
  class ProviderLimits {
    var limits: map<nat, Window>

    constructor ()
      ensures limits == map[]
    {
      limits := map[];
    }

    function Of(provider: nat): Option<Window>
      reads this
    {
      if provider in limits then Some(limits[provider]) else None
    }

    /** Nothing when the request is admitted, else when to try again; the windows of other
        providers do not change. */
    method RetryAfter(provider: nat, limit: nat, now: nat) returns (r: Option<nat>)
      modifies this
      ensures r.None? <==> old(Admits(Of(provider), limit, now))
      ensures r.Some? ==> r.value == RetryHint(old(SinceStart(Of(provider), now))) && 1 <= r.value <= 1000
      ensures limits == old(limits)[provider := old(After(Of(provider), limit, now))]
    {
      var state := if provider in limits then limits[provider] else Window(now, 0);
      var elapsed := Elapsed(now, state.started);
      if elapsed >= SECOND { state := Window(now, 0); }
      if state.requests < limit {
        state := state.(requests := state.requests + 1);
        r := None;
      } else {
        HintIsBounded(elapsed);
        r := Some(RetryHint(elapsed));
      }
      limits := limits[provider := state];
    }
  }

  /** Every hint is between 1 and 1000 ms, and a millisecond more than it reaches the end of the
      window. */
  lemma HintIsBounded(elapsed: nat)
    ensures 1 <= RetryHint(elapsed) <= 1000
    ensures elapsed + (RetryHint(elapsed) + 1) * MILLISECOND > SECOND
    ensures elapsed + MILLISECOND <= SECOND ==> elapsed + RetryHint(elapsed) * MILLISECOND <= SECOND
  {
  }

  // ---- runs ---------------------------------------------------------------------------------------------

  /** The window after calls at the given times. */
  function WindowAfter(times: seq<nat>, limit: nat): Option<Window> {
    if times == [] then None
    else Some(After(WindowAfter(times[..|times| - 1], limit), limit, times[|times| - 1]))
  }

  /** How many of the calls with `low <= time < high` were admitted. */
  function Admitted(times: seq<nat>, limit: nat, low: nat, high: nat): nat {
    if times == [] then 0
    else
      var before, now := times[..|times| - 1], times[|times| - 1];
      Admitted(before, limit, low, high)
      + (if low <= now < high && Admits(WindowAfter(before, limit), limit, now) then 1 else 0)
  }

  /** The clock does not go back. */
  predicate Ordered(times: seq<nat>) { forall i, j | 0 <= i <= j < |times| :: times[i] <= times[j] }

  function Last(times: seq<nat>): nat
    requires times != []
  {
    times[|times| - 1]
  }

  /** The window holds the last call, and a first one that was admitted at its start. */
  lemma {:induction false} WindowHoldsLast(times: seq<nat>, limit: nat)
    requires Ordered(times) && times != [] && limit > 0
    ensures var w := WindowAfter(times, limit).value;
            w.started <= Last(times) < w.started + SECOND && 1 <= w.requests <= limit
  {
    var before := times[..|times| - 1];
    if before != [] {
      assert Last(before) == times[|times| - 2];
      WindowHoldsLast(before, limit);
    }
  }

  lemma {:induction false} NothingBefore(times: seq<nat>, limit: nat, low: nat, high: nat)
    requires Ordered(times) && (times != [] ==> Last(times) < low)
    ensures Admitted(times, limit, low, high) == 0
  {
    if times != [] {
      var before := times[..|times| - 1];
      assert before != [] ==> Last(before) == times[|times| - 2];
      NothingBefore(before, limit, low, high);
    }
  }

  /** A window admits as many requests as it counts, so never more than the limit. */
  lemma {:induction false} AtMostLimitPerWindow(times: seq<nat>, limit: nat, high: nat)
    requires Ordered(times) && times != [] && limit > 0 && high > Last(times)
    ensures var w := WindowAfter(times, limit).value;
            Admitted(times, limit, w.started, high) == w.requests <= limit
  {
    var before, now := times[..|times| - 1], Last(times);
    WindowHoldsLast(times, limit);
    if before == [] {
      assert Admitted(before, limit, now, high) == 0;
    } else {
      assert Last(before) == times[|times| - 2];
      WindowHoldsLast(before, limit);
      AtMostLimitPerWindow(before, limit, high);
      if Elapsed(now, WindowAfter(before, limit).value.started) >= SECOND {
        NothingBefore(before, limit, now, high);
      }
    }
  }

  /** How many requests of the interval a run can have had, by where its window started. */
  function Bound(w: Window, limit: nat, low: nat): int {
    if w.started < low then w.requests - 1
    else if w.started < low + SECOND then limit - 1 + w.requests
    else 2 * limit - 1
  }

  lemma BoundStep(w: Window, limit: nat, now: nat, low: nat, count: nat)
    requires limit > 0 && w.started <= now && 1 <= w.requests <= limit && count <= Bound(w, limit, low)
    requires now < low ==> count == 0
    ensures var next := After(Some(w), limit, now);
            var more := if low <= now < low + SECOND && Admits(Some(w), limit, now) then 1 else 0;
            count + more <= Bound(next, limit, low)
  {
  }

  lemma {:induction false} BoundHolds(times: seq<nat>, limit: nat, low: nat)
    requires Ordered(times) && times != [] && limit > 0
    ensures Admitted(times, limit, low, low + SECOND) <= Bound(WindowAfter(times, limit).value, limit, low)
  {
    var before, now := times[..|times| - 1], Last(times);
    if before == [] {
      assert Admitted(before, limit, low, low + SECOND) == 0;
    } else {
      assert Last(before) == times[|times| - 2];
      BoundHolds(before, limit, low);
      WindowHoldsLast(before, limit);
      if now < low { NothingBefore(before, limit, low, low + SECOND); }
      BoundStep(WindowAfter(before, limit).value, limit, now, low, Admitted(before, limit, low, low + SECOND));
    }
  }

  /** Over every run, any half-open second admits less than twice the limit. */
  lemma LessThanTwiceLimitPerSecond(times: seq<nat>, limit: nat, low: nat)
    requires Ordered(times) && limit > 0
    ensures Admitted(times, limit, low, low + SECOND) <= 2 * limit - 1
  {
    if times != [] {
      BoundHolds(times, limit, low);
      WindowHoldsLast(times, limit);
    }
  }

  // ---- the bound is reached -------------------------------------------------------------------------------

  function Repeat(now: nat, n: nat): (s: seq<nat>)
    ensures |s| == n && forall i | 0 <= i < n :: s[i] == now
  {
    seq(n, _ => now)
  }

  lemma OneMore(times: seq<nat>, limit: nat, now: nat, w: Window, low: nat, high: nat)
    requires times != [] && WindowAfter(times, limit) == Some(w) && w.started <= now < w.started + SECOND
    requires w.requests < limit && low <= now < high
    ensures WindowAfter(times + [now], limit) == Some(w.(requests := w.requests + 1))
    ensures Admitted(times + [now], limit, low, high) == Admitted(times, limit, low, high) + 1
  {
    var all := times + [now];
    assert all[..|all| - 1] == times && all[|all| - 1] == now;
  }

  lemma FirstCall(limit: nat, low: nat, high: nat)
    requires limit > 0 && low > 0
    ensures WindowAfter([0], limit) == Some(Window(0, 1)) && Admitted([0], limit, low, high) == 0
  {
    var a: seq<nat> := [0];
    assert a[..|a| - 1] == [] && a[|a| - 1] == 0;
    assert WindowAfter([], limit) == None && Admitted([], limit, low, high) == 0;
    assert WindowAfter(a, limit) == Some(After(None, limit, 0));
  }

  lemma NextWindow(times: seq<nat>, limit: nat, now: nat, w: Window, low: nat, high: nat)
    requires times != [] && WindowAfter(times, limit) == Some(w) && w.started + SECOND <= now
    requires limit > 0 && low <= now < high
    ensures WindowAfter(times + [now], limit) == Some(Window(now, 1))
    ensures Admitted(times + [now], limit, low, high) == Admitted(times, limit, low, high) + 1
  {
    var all := times + [now];
    assert all[..|all| - 1] == times && all[|all| - 1] == now;
  }

  lemma RepeatStep(times: seq<nat>, now: nat, n: nat)
    requires n > 0
    ensures times + Repeat(now, n) == times + Repeat(now, n - 1) + [now]
  {
  }

  /** More calls within a window are admitted up to the limit. */
  lemma {:induction false} BurstIsAdmitted(times: seq<nat>, limit: nat, now: nat, n: nat, w: Window, low: nat,
                                           high: nat)
    requires times != [] && WindowAfter(times, limit) == Some(w) && w.started <= now < w.started + SECOND
    requires w.requests + n <= limit && low <= now < high
    ensures WindowAfter(times + Repeat(now, n), limit) == Some(w.(requests := w.requests + n))
    ensures Admitted(times + Repeat(now, n), limit, low, high) == Admitted(times, limit, low, high) + n
  {
    if n == 0 {
      assert times + Repeat(now, n) == times;
    } else {
      BurstIsAdmitted(times, limit, now, n - 1, w, low, high);
      OneMore(times + Repeat(now, n - 1), limit, now, w.(requests := w.requests + n - 1), low, high);
      RepeatStep(times, now, n);
    }
  }

  /** One call, a burst at the end of its window, and a burst in the next one. */
  function WorstCase(limit: nat): seq<nat>
    requires limit > 0
  {
    [0] + Repeat(SECOND - 1, limit - 1) + [SECOND] + Repeat(SECOND, limit - 1)
  }

  lemma WorstCaseIsOrdered(limit: nat)
    requires limit > 0
    ensures Ordered(WorstCase(limit))
  {
  }

  lemma WorstCaseReachesBound(limit: nat)
    requires limit > 0
    ensures Ordered(WorstCase(limit))
    ensures Admitted(WorstCase(limit), limit, SECOND - 1, 2 * SECOND - 1) == 2 * limit - 1
  {
    WorstCaseIsOrdered(limit);
    var low, high := SECOND - 1, 2 * SECOND - 1;
    var a := [0];
    FirstCall(limit, low, high);
    BurstIsAdmitted(a, limit, SECOND - 1, limit - 1, Window(0, 1), low, high);
    var b := a + Repeat(SECOND - 1, limit - 1);
    NextWindow(b, limit, SECOND, Window(0, limit), low, high);
    var c := b + [SECOND];
    BurstIsAdmitted(c, limit, SECOND, limit - 1, Window(SECOND, 1), low, high);
  }
}
