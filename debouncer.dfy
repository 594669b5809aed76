/** The debounce gate of `src/debouncer.rs`: a time filter over one
    `last_update` cell. The clock read `esp_timer_get_time()` becomes the
    parameter `now`. */
module Debouncing {
  import opened Machine

  /** What one `should_update` call answers and what it leaves in `last_update`. */
  datatype Verdict = Verdict(accepted: bool, lastUpdate: Micros)

  /** One call at time `now` on a gate whose last accepted time is `last`. */
  function Step(last: Micros, window: Micros, now: Micros): Verdict
  {
    if now - last >= window then Verdict(true, now) else Verdict(false, last)
  }

  /** The answers of successive calls and the `last_update` they leave. */
  datatype Outcome = Outcome(verdicts: seq<bool>, lastUpdate: Micros)

  /** Successive calls at `times`, starting from `last`: one answer per call. */
  function Run(last: Micros, window: Micros, times: seq<Micros>): (r: Outcome)
    ensures |r.verdicts| == |times|
    ensures times == [] ==> r.lastUpdate == last
    decreases |times|
  {
    if times == [] then Outcome([], last)
    else
      var v := Step(last, window, times[0]);
      var rest := Run(v.lastUpdate, window, times[1..]);
      Outcome([v.accepted] + rest.verdicts, rest.lastUpdate)
  }

  /** Calls whose times are non-decreasing and at least `window` apart, the
      first at least `window` after `last`. */
  ghost predicate Spaced(last: Micros, window: Micros, times: seq<Micros>)
  {
    && (|times| > 0 ==> times[0] - last >= window)
    && forall i :: 0 < i < |times| ==> times[i] - times[i - 1] >= window
  }

  class Debouncer {
    var lastUpdate: Micros
    const debounceDuration: Micros

    /** `Debouncer::new`: the last accepted time starts at 0. */
    constructor (debounceDuration: Micros)
      ensures this.debounceDuration == debounceDuration
      ensures lastUpdate == 0
    {
      this.debounceDuration := debounceDuration;
      lastUpdate := 0;
    }

    /** `Debouncer::should_update` with the clock reading `now`: accepts iff
        at least the window has elapsed since the last accepted call, and only
        then records `now`. */
    method ShouldUpdate(now: Micros) returns (accepted: bool)
      modifies this
      ensures accepted <==> now - old(lastUpdate) >= debounceDuration
      ensures lastUpdate == (if accepted then now else old(lastUpdate))
      ensures Verdict(accepted, lastUpdate) == Step(old(lastUpdate), debounceDuration, now)
    {
      var last := lastUpdate;
      if now - last >= debounceDuration {
        lastUpdate := now;
        accepted := true;
      } else {
        accepted := false;
      }
    }
  }

  /** The first call after construction is accepted iff `now` is at least the window. */
  lemma FirstCallAfterNew(window: Micros, now: Micros)
    ensures Step(0, window, now).accepted <==> now >= window
  {
  }

  /** After a call accepted at `t`, the next call at `t2` is accepted iff it
      comes at least the window later. */
  lemma NextCallAfterAccepted(last: Micros, window: Micros, t: Micros, t2: Micros)
    requires Step(last, window, t).accepted
    ensures Run(last, window, [t, t2]).verdicts == [true, t2 - t >= window]
  {
    assert [t, t2][1..] == [t2];
  }

  /** Calls spaced at least the window apart are all accepted, and the last one
      is what `last_update` then holds. */
  lemma {:induction false} SpacedCallsAllAccepted(last: Micros, window: Micros, times: seq<Micros>)
    requires Spaced(last, window, times)
    ensures forall i :: 0 <= i < |times| ==> Run(last, window, times).verdicts[i]
    ensures |times| > 0 ==> Run(last, window, times).lastUpdate == times[|times| - 1]
    decreases |times|
  {
    if times != [] {
      var rest := times[1..];
      assert Spaced(times[0], window, rest) by {
        forall i | 0 < i < |rest| ensures rest[i] - rest[i - 1] >= window {
          assert rest[i] == times[i + 1] && rest[i - 1] == times[i];
        }
      }
      SpacedCallsAllAccepted(times[0], window, rest);
      var r := Run(last, window, times).verdicts;
      forall i | 0 <= i < |times| ensures r[i] {
        if i > 0 { assert r[i] == Run(times[0], window, rest).verdicts[i - 1]; }
      }
    }
  }

  /** A zero window accepts every call of a non-decreasing sequence that does
      not start before the last accepted time. */
  lemma ZeroWindowAcceptsAll(last: Micros, times: seq<Micros>)
    requires |times| > 0 ==> times[0] >= last
    requires forall i :: 0 < i < |times| ==> times[i - 1] <= times[i]
    ensures forall i :: 0 <= i < |times| ==> Run(last, 0, times).verdicts[i]
  {
    SpacedCallsAllAccepted(last, 0, times);
  }

  /** Calls that come less than the window after the accepted time `t` are all
      rejected and leave `last_update` at `t`: a bounce is filtered out however
      many edges it produces. */
  lemma {:induction false} BouncesRejected(t: Micros, window: Micros, bounces: seq<Micros>)
    requires forall i :: 0 <= i < |bounces| ==> bounces[i] - t < window
    ensures forall i :: 0 <= i < |bounces| ==> !Run(t, window, bounces).verdicts[i]
    ensures Run(t, window, bounces).lastUpdate == t
  {
    if bounces != [] {
      var rest := bounces[1..];
      BouncesRejected(t, window, rest);
      var r := Run(t, window, bounces).verdicts;
      forall i | 0 <= i < |bounces| ensures !r[i] {
        if i > 0 { assert r[i] == Run(t, window, rest).verdicts[i - 1]; }
      }
    }
  }

  /** Of two calls less than the window apart, the second is rejected once the
      first was accepted: exactly one of them gets through. */
  lemma CloseCallsOneAccepted(last: Micros, window: Micros, t1: Micros, t2: Micros)
    requires Step(last, window, t1).accepted
    requires t2 - t1 < window
    ensures Run(last, window, [t1, t2]).verdicts == [true, false]
  {
    NextCallAfterAccepted(last, window, t1, t2);
  }

  /** Two calls less than the window apart need not let one through: right
      after `new`, calls at 1 ms and 2 ms with a 5 ms window are both
      rejected, because `last_update` starts at 0 rather than "never". */
  lemma CloseCallsAtBootBothRejected()
    ensures Run(0, 5000, [1000, 2000]).verdicts == [false, false]
  {
  }
}
