/**
 The circuit breaker of packages/storage/src/utils/circuitBreaker.ts, the retry loop of utils/retry.ts, and the two
 ways the package puts them together: the Redis stream adapter asks the breaker inside the retry loop, the storage
 client asks it once outside.
 */
module CircuitBreaker {
  import opened Common

  datatype Phase = Closed | Open | HalfOpen
  datatype Options = Options(failureThreshold: int, successThreshold: int, resetTimeoutMs: int)
  datatype State = State(phase: Phase, failures: nat, successes: nat, nextAttempt: int)

  function AllowStep(s: State, now: int): (bool, State) {
    if s.phase == Open && now > s.nextAttempt then (true, s.(phase := HalfOpen)) else (s.phase != Open, s)
  }

  function SuccessStep(o: Options, s: State): State {
    if s.phase == HalfOpen && s.successes + 1 < o.successThreshold then s.(successes := s.successes + 1)
    else State(Closed, 0, 0, s.nextAttempt)
  }

  function FailureStep(o: Options, s: State, now: int): State {
    if s.failures + 1 >= o.failureThreshold then State(Open, s.failures + 1, s.successes, now + o.resetTimeoutMs)
    else s.(failures := s.failures + 1)
  }

  class CircuitBreaker {
    const options: Options
    var phase: Phase
    var failures: nat
    var successes: nat
    var nextAttempt: int

    function Value(): State
      reads this
    {
      State(phase, failures, successes, nextAttempt)
    }

    constructor (options: Options, now: int)
      ensures this.options == options && Value() == State(Closed, 0, 0, now)
    {
      this.options := options;
      phase, failures, successes, nextAttempt := Closed, 0, 0, now;
    }

    method ShouldAllow(now: int) returns (allowed: bool)
      modifies this
      ensures (allowed, Value()) == AllowStep(old(Value()), now)
    {
      if phase == Open && now > nextAttempt {
        phase := HalfOpen;
        return true;
      }
      return phase != Open;
    }

    method RecordSuccess()
      modifies this
      ensures Value() == SuccessStep(options, old(Value()))
    {
      if phase == HalfOpen {
        successes := successes + 1;
        if successes >= options.successThreshold {
          Reset();
        }
      } else {
        Reset();
      }
    }

    method RecordFailure(now: int)
      modifies this
      ensures Value() == FailureStep(options, old(Value()), now)
    {
      failures := failures + 1;
      if failures >= options.failureThreshold {
        Trip(now);
      }
    }

    method Trip(now: int)
      modifies this
      ensures Value() == old(Value()).(phase := Open, nextAttempt := now + options.resetTimeoutMs)
    {
      phase := Open;
      nextAttempt := now + options.resetTimeoutMs;
    }

    method Reset()
      modifies this
      ensures Value() == State(Closed, 0, 0, old(nextAttempt))
    {
      failures := 0;
      successes := 0;
      phase := Closed;
    }
  }

  // ----- any interleaving of callers -------------------------------------------------------------------------------

  datatype Event = Allow(now: int) | Success | Failure(now: int)

  function EventStep(o: Options, s: State, ev: Event): State {
    match ev
    case Allow(now) => AllowStep(s, now).1
    case Success => SuccessStep(o, s)
    case Failure(now) => FailureStep(o, s, now)
  }

  function Run(o: Options, now: int, evs: seq<Event>): State {
    if evs == [] then State(Closed, 0, 0, now) else EventStep(o, Run(o, now, evs[..|evs| - 1]), evs[|evs| - 1])
  }

  /** However checks and late results interleave, the breaker is closed exactly while it counts too few failures. */
  lemma {:induction false} ClosedIffBelowThreshold(o: Options, now: int, evs: seq<Event>)
    requires o.failureThreshold >= 1
    ensures var s := Run(o, now, evs); s.phase == Closed <==> s.failures < o.failureThreshold
  {
    if evs != [] {
      ClosedIffBelowThreshold(o, now, evs[..|evs| - 1]);
    }
  }

  /** So one failed probe re-opens a half-open breaker, for a whole new timeout. */
  lemma FailedProbeReopens(o: Options, now: int, evs: seq<Event>, at: int)
    requires o.failureThreshold >= 1 && Run(o, now, evs).phase == HalfOpen
    ensures var s := FailureStep(o, Run(o, now, evs), at); s.phase == Open && s.nextAttempt == at + o.resetTimeoutMs
  {
    ClosedIffBelowThreshold(o, now, evs);
  }

  // ----- what a run of events leaves behind ------------------------------------------------------------------------

  function Failures(evs: seq<Event>): nat {
    if evs == [] then 0 else Failures(evs[..|evs| - 1]) + if evs[|evs| - 1].Failure? then 1 else 0
  }

  function Successes(evs: seq<Event>): nat {
    if evs == [] then 0 else Successes(evs[..|evs| - 1]) + if evs[|evs| - 1].Success? then 1 else 0
  }

  /** When the newest failure was recorded. */
  function LastFailure(evs: seq<Event>): (at: Option<int>)
    ensures at.Some? <==> Failures(evs) > 0
  {
    if evs == [] then None
    else if evs[|evs| - 1].Failure? then Some(evs[|evs| - 1].now) else LastFailure(evs[..|evs| - 1])
  }

  /** When the newest failure tripped the breaker, the events being those since its last recovery. */
  function TrippedAt(o: Options, evs: seq<Event>): Option<int> {
    if Failures(evs) >= o.failureThreshold then LastFailure(evs) else None
  }

  /** Since that failure a check has been made after the timeout was over. */
  predicate Probed(o: Options, evs: seq<Event>) {
    var at := TrippedAt(o, evs);
    at.Some? && exists i :: 0 <= i < |evs| && evs[i].Allow? && evs[i].now > at.value + o.resetTimeoutMs &&
                            Failures(evs[..i]) == Failures(evs)
  }

  /**
   The events since the last recovery.  A success is one, unless the breaker is being probed and too few successes
   have come in: successThreshold of them are asked for, counted over all the probes of the outage.
   */
  function SinceRecovery(o: Options, evs: seq<Event>): seq<Event> {
    if evs == [] then [] else GoesOn(o, SinceRecovery(o, evs[..|evs| - 1]), evs[|evs| - 1])
  }

  function GoesOn(o: Options, since: seq<Event>, ev: Event): seq<Event> {
    if ev.Success? && (Probed(o, since) ==> Successes(since) + 1 >= o.successThreshold) then [] else since + [ev]
  }

  lemma {:induction false} FailuresGrow(evs: seq<Event>, i: nat)
    requires i <= |evs|
    ensures Failures(evs[..i]) <= Failures(evs)
  {
    if i < |evs| {
      FailuresGrow(evs[..|evs| - 1], i);
      assert evs[..|evs| - 1][..i] == evs[..i];
    } else {
      assert evs[..i] == evs;
    }
  }

  lemma OneMoreEvent(o: Options, evs: seq<Event>, ev: Event)
    ensures var more := evs + [ev];
            && Failures(more) == Failures(evs) + (if ev.Failure? then 1 else 0)
            && Successes(more) == Successes(evs) + (if ev.Success? then 1 else 0)
            && LastFailure(more) == (if ev.Failure? then Some(ev.now) else LastFailure(evs))
            && (Probed(o, more) <==>
                  && !ev.Failure? && TrippedAt(o, evs).Some?
                  && (Probed(o, evs) || (ev.Allow? && ev.now > TrippedAt(o, evs).value + o.resetTimeoutMs)))
  {
    var more := evs + [ev];
    assert more[..|evs|] == evs;
    forall i | 0 <= i < |evs| ensures more[..i] == evs[..i] && Failures(evs[..i]) <= Failures(evs) {
      FailuresGrow(evs, i);
    }
    if !ev.Failure? && Probed(o, evs) {
      var i :| 0 <= i < |evs| && evs[i].Allow? && evs[i].now > TrippedAt(o, evs).value + o.resetTimeoutMs &&
               Failures(evs[..i]) == Failures(evs);
      assert more[i] == evs[i] && more[..i] == evs[..i];
    }
    if ev.Allow? {
      assert more[|evs|] == ev && Failures(more[..|evs|]) == Failures(more);
    }
    if Probed(o, more) {
      var i :| 0 <= i < |more| && more[i].Allow? && more[i].now > TrippedAt(o, more).value + o.resetTimeoutMs &&
               Failures(more[..i]) == Failures(more);
      assert i < |evs| ==> more[i] == evs[i] && more[..i] == evs[..i];
    }
  }

  /** A breaker as these events since its last recovery make it. */
  ghost predicate MadeBy(o: Options, s: State, since: seq<Event>) {
    var at := TrippedAt(o, since);
    && s.failures == Failures(since) && s.successes == Successes(since)
    && s.phase == (if at.None? then Closed else if Probed(o, since) then HalfOpen else Open)
    && (at.Some? ==> s.nextAttempt == at.value + o.resetTimeoutMs)
  }

  lemma NothingSince(o: Options, nextAttempt: int)
    ensures MadeBy(o, State(Closed, 0, 0, nextAttempt), [])
  {
  }

  lemma CheckKeepsMade(o: Options, s: State, since: seq<Event>, now: int)
    requires MadeBy(o, s, since)
    ensures MadeBy(o, AllowStep(s, now).1, since + [Allow(now)])
  {
    hide Probed, Failures, Successes, LastFailure;
    OneMoreEvent(o, since, Allow(now));
  }

  lemma FailureKeepsMade(o: Options, s: State, since: seq<Event>, now: int)
    requires MadeBy(o, s, since)
    ensures MadeBy(o, FailureStep(o, s, now), since + [Failure(now)])
  {
    hide Probed, Failures, Successes, LastFailure;
    OneMoreEvent(o, since, Failure(now));
  }

  lemma SuccessKeepsMade(o: Options, s: State, since: seq<Event>)
    requires MadeBy(o, s, since)
    ensures MadeBy(o, SuccessStep(o, s), GoesOn(o, since, Success))
  {
    NothingSince(o, s.nextAttempt);
    assert Probed(o, since) ==> TrippedAt(o, since).Some?;
    hide Probed, Failures, Successes, LastFailure;
    OneMoreEvent(o, since, Success);
  }

  /** After any run the breaker is what the events since its last recovery make of it. */
  lemma {:induction false} StateFromEvents(o: Options, now: int, evs: seq<Event>)
    ensures MadeBy(o, Run(o, now, evs), SinceRecovery(o, evs))
  {
    hide MadeBy, AllowStep, FailureStep, SuccessStep, Probed;
    if evs == [] {
      NothingSince(o, now);
    } else {
      var s, since := Run(o, now, evs[..|evs| - 1]), SinceRecovery(o, evs[..|evs| - 1]);
      StateFromEvents(o, now, evs[..|evs| - 1]);
      match evs[|evs| - 1]
      case Allow(t) => CheckKeepsMade(o, s, since, t);
      case Success => SuccessKeepsMade(o, s, since);
      case Failure(t) => FailureKeepsMade(o, s, since, t);
    }
  }

  /**
   A call is refused exactly when the breaker has been tripped, has not been probed since, and no more than the timeout
   has passed since the failure that last tripped it.
   */
  lemma RefusedIff(o: Options, now: int, evs: seq<Event>, t: int)
    ensures var since := SinceRecovery(o, evs);
            !AllowStep(Run(o, now, evs), t).0 <==>
            && TrippedAt(o, since).Some? && !Probed(o, since)
            && t <= TrippedAt(o, since).value + o.resetTimeoutMs
  {
    StateFromEvents(o, now, evs);
  }

  lemma {:induction false} QuietEvents(o: Options, now: int, evs: seq<Event>, more: seq<Event>)
    requires Failures(more) == 0
    ensures var s, t, k := Run(o, now, evs), Run(o, now, evs + more), Successes(more);
            && (s.phase == HalfOpen ==>
                  if k == 0 || s.successes + k < o.successThreshold then t == s.(successes := s.successes + k)
                  else t.phase == Closed && t.failures == 0 == t.successes)
            && (s.phase == Closed ==>
                  t.phase == Closed && t.failures == (if k == 0 then s.failures else 0))
    decreases |more|
  {
    if more == [] {
      assert evs + more == evs;
    } else {
      var n := |more| - 1;
      assert (evs + more)[..|evs| + n] == evs + more[..n];
      QuietEvents(o, now, evs, more[..n]);
    }
  }

  /**
   Recovery: once the timeout of a tripped breaker is over, the next check is let through; and as long as no failure
   comes in, the breaker is closed again, with no failure counted, exactly when successThreshold successes have been
   recorded since it last recovered, at least one of them after that check.
   */
  lemma Recovery(o: Options, now: int, evs: seq<Event>, t: int, more: seq<Event>)
    requires var at := TrippedAt(o, SinceRecovery(o, evs)); at.Some? && t > at.value + o.resetTimeoutMs
    requires Failures(more) == 0
    ensures AllowStep(Run(o, now, evs), t).0
    ensures var s := Run(o, now, evs + [Allow(t)] + more);
            && (s.phase == Closed <==>
                  Successes(more) >= 1 && Successes(SinceRecovery(o, evs)) + Successes(more) >= o.successThreshold)
            && (s.phase == Closed ==> s.failures == 0)
            && (s.phase != Closed ==> s.phase == HalfOpen)
  {
    StateFromEvents(o, now, evs);
    assert (evs + [Allow(t)])[..|evs|] == evs;
    QuietEvents(o, now, evs + [Allow(t)], more);
  }

  // ----- one caller at a time --------------------------------------------------------------------------------------

  /** One guarded operation: asked at `start`, finished at `end` if let through, and how it went. */
  datatype Call = Call(start: int, end: int, ok: bool)

  function CallStep(o: Options, s: State, c: Call): (bool, State) {
    var (allowed, t) := AllowStep(s, c.start);
    (allowed, if !allowed then t else if c.ok then SuccessStep(o, t) else FailureStep(o, t, c.end))
  }

  function AfterCalls(o: Options, s: State, calls: seq<Call>): State {
    if calls == [] then s else CallStep(o, AfterCalls(o, s, calls[..|calls| - 1]), calls[|calls| - 1]).1
  }

  /** The events that guarded calls amount to: a check each, and a result for each that was let through. */
  function EventsOf(o: Options, now: int, calls: seq<Call>): seq<Event> {
    if calls == [] then []
    else
      var before, c := EventsOf(o, now, calls[..|calls| - 1]), calls[|calls| - 1];
      before + [Allow(c.start)] + if !AllowStep(Run(o, now, before), c.start).0 then []
                                  else if c.ok then [Success] else [Failure(c.end)]
  }

  /** So what is true of every run of events is true of every sequence of guarded calls. */
  lemma {:induction false} CallsAreEvents(o: Options, now: int, calls: seq<Call>)
    ensures AfterCalls(o, State(Closed, 0, 0, now), calls) == Run(o, now, EventsOf(o, now, calls))
  {
    if calls != [] {
      var n := |calls| - 1;
      CallsAreEvents(o, now, calls[..n]);
      var before := EventsOf(o, now, calls[..n]);
      var asked, all := before + [Allow(calls[n].start)], EventsOf(o, now, calls);
      assert asked[..|before|] == before && (all == asked || all[..|asked|] == asked);
    }
  }

  /** How many of the calls are let through to the backend at a time in [lo, hi]. */
  function Admitted(o: Options, s: State, calls: seq<Call>, lo: int, hi: int): nat
    decreases |calls|
  {
    if calls == [] then 0
    else
      var (allowed, t) := CallStep(o, s, calls[0]);
      (if allowed && lo <= calls[0].start <= hi then 1 else 0) + Admitted(o, t, calls[1..], lo, hi)
  }

  /** Each call starts when the one before it has ended. */
  ghost predicate Serial(calls: seq<Call>) {
    && (forall i :: 0 <= i < |calls| ==> calls[i].start <= calls[i].end)
    && (forall i :: 0 <= i < |calls| - 1 ==> calls[i].end <= calls[i + 1].start)
  }

  /** How many whole timeouts fit into n milliseconds. */
  function Timeouts(n: nat, timeout: int): nat
    requires timeout >= 1
  {
    if n < timeout then 0 else 1 + Timeouts(n - timeout, timeout)
  }

  lemma {:induction false} TimeoutsMonotonic(m: nat, n: nat, timeout: int)
    requires m <= n && timeout >= 1
    ensures Timeouts(m, timeout) <= Timeouts(n, timeout)
  {
    if m >= timeout {
      TimeoutsMonotonic(m - timeout, n - timeout, timeout);
    }
  }

  lemma {:induction false} TimeoutsFit(n: nat, timeout: int)
    requires timeout >= 1
    ensures Timeouts(n, timeout) * timeout <= n < Timeouts(n, timeout) * timeout + timeout
  {
    if n >= timeout {
      TimeoutsFit(n - timeout, timeout);
      MulSuccessor(Timeouts(n - timeout, timeout), timeout);
    }
  }

  lemma {:induction false} TimeoutsIsDivision(n: nat, timeout: int)
    requires timeout >= 1
    ensures Timeouts(n, timeout) == n / timeout
  {
    TimeoutsFit(n, timeout);
    QuotientUnique(n, timeout, Timeouts(n, timeout));
  }

  /** What is left to admit in [lo, hi] when every operation fails. */
  function Allowance(o: Options, s: State, lo: int, hi: int): int
    requires o.resetTimeoutMs >= 1 && lo <= hi
  {
    if s.phase == Closed then o.failureThreshold - s.failures + Timeouts(hi - lo, o.resetTimeoutMs)
    else AllowanceFrom(o, Max(lo, s.nextAttempt + 1), hi)
  }

  /** The same for an open breaker that lets its next call through at `first` or later. */
  function AllowanceFrom(o: Options, first: int, hi: int): int
    requires o.resetTimeoutMs >= 1
  {
    if first > hi then 0 else 1 + Timeouts(hi - first, o.resetTimeoutMs)
  }

  lemma AllowanceShrinks(o: Options, a: int, b: int, hi: int)
    requires o.resetTimeoutMs >= 1 && a <= b
    ensures AllowanceFrom(o, b, hi) <= AllowanceFrom(o, a, hi)
    ensures a <= hi ==> 1 + AllowanceFrom(o, a + o.resetTimeoutMs + 1, hi) <= AllowanceFrom(o, a, hi)
    ensures a <= hi ==> AllowanceFrom(o, a + o.resetTimeoutMs + 1, hi) <= Timeouts(hi - a, o.resetTimeoutMs)
  {
    if b <= hi {
      TimeoutsMonotonic(hi - b, hi - a, o.resetTimeoutMs);
    }
    var c := a + o.resetTimeoutMs + 1;
    if c <= hi {
      TimeoutsMonotonic(hi - c, hi - a - o.resetTimeoutMs, o.resetTimeoutMs);
    }
  }

  /** A failing call spends what it is admitted for. */
  lemma CallSpends(o: Options, s: State, c: Call, lo: int, hi: int)
    requires o.failureThreshold >= 1 && o.resetTimeoutMs >= 1 && lo <= hi && c.start <= c.end && !c.ok
    requires s.phase != HalfOpen && (s.phase == Closed <==> s.failures < o.failureThreshold)
    ensures var (allowed, t) := CallStep(o, s, c);
            && t.phase != HalfOpen && (t.phase == Closed <==> t.failures < o.failureThreshold)
            && (if allowed && lo <= c.start <= hi then 1 else 0) + Allowance(o, t, lo, hi) <= Allowance(o, s, lo, hi)
  {
    var (allowed, t) := CallStep(o, s, c);
    if allowed && t.phase == Open {
      var was := if s.phase == Open then Max(lo, s.nextAttempt + 1) else lo;
      var first := Max(lo, t.nextAttempt + 1);
      hide Timeouts, AllowanceFrom;
      AllowanceShrinks(o, was, first, hi);
      if lo <= c.start <= hi {
        AllowanceShrinks(o, was, c.start, hi);
        AllowanceShrinks(o, c.start + o.resetTimeoutMs + 1, first, hi);
        AllowanceShrinks(o, c.start, c.start, hi);
        TimeoutsMonotonic(hi - c.start, hi - lo, o.resetTimeoutMs);
      } else {
        AllowanceAtStart(o, lo, hi);
      }
    }
  }

  lemma AllowanceAtStart(o: Options, lo: int, hi: int)
    requires o.resetTimeoutMs >= 1 && lo <= hi
    ensures AllowanceFrom(o, lo, hi) == 1 + Timeouts(hi - lo, o.resetTimeoutMs)
  {
  }

  lemma {:induction false} AdmittedWithinAllowance(o: Options, s: State, calls: seq<Call>, lo: int, hi: int)
    requires o.failureThreshold >= 1 && o.resetTimeoutMs >= 1 && lo <= hi
    requires Serial(calls) && forall i :: 0 <= i < |calls| ==> !calls[i].ok
    requires s.phase != HalfOpen && (s.phase == Closed <==> s.failures < o.failureThreshold)
    ensures Admitted(o, s, calls, lo, hi) <= Allowance(o, s, lo, hi)
    decreases |calls|
  {
    if calls != [] {
      CallSpends(o, s, calls[0], lo, hi);
      AdmittedWithinAllowance(o, CallStep(o, s, calls[0]).1, calls[1..], lo, hi);
    }
  }

  /**
   The bound the breaker is for: with one caller at a time and a backend that always fails, any T milliseconds let at
   most failureThreshold + floor(T / resetTimeoutMs) operations through, however often callers and retries ask.
   */
  lemma FailingBackendIsSpared(o: Options, now: int, calls: seq<Call>, lo: int, T: nat)
    requires o.failureThreshold >= 1 && o.resetTimeoutMs >= 1
    requires Serial(calls) && forall i :: 0 <= i < |calls| ==> !calls[i].ok
    ensures Admitted(o, State(Closed, 0, 0, now), calls, lo, lo + T) <= o.failureThreshold + T / o.resetTimeoutMs
  {
    AdmittedWithinAllowance(o, State(Closed, 0, 0, now), calls, lo, lo + T);
    TimeoutsIsDivision(T, o.resetTimeoutMs);
  }

  // ----- the retry loop --------------------------------------------------------------------------------------------

  datatype Attempt = Succeeded(value: string) | Failed(error: string, retryable: bool)

  function Power2(n: nat): nat {
    if n == 0 then 1 else 2 * Power2(n - 1)
  }

  /** The longest pause after attempt n; jitter takes a random share of it. */
  function Backoff(baseDelayMs: int, maxDelayMs: int, n: nat): int {
    Min(baseDelayMs * Power2(n), maxDelayMs)
  }

  /** The pauses start at the base delay and double until the cap, as they do exactly while the cap is not negative. */
  lemma PausesDouble(baseDelayMs: int, maxDelayMs: int, n: nat)
    ensures Backoff(baseDelayMs, maxDelayMs, 0) == Min(baseDelayMs, maxDelayMs)
    ensures Backoff(baseDelayMs, maxDelayMs, n + 1) == Min(2 * Backoff(baseDelayMs, maxDelayMs, n), maxDelayMs) <==>
            maxDelayMs >= 0 || baseDelayMs * Power2(n) <= maxDelayMs
  {
    assert baseDelayMs * Power2(n + 1) == 2 * (baseDelayMs * Power2(n));
  }

  /** `retry`, where outcomes[n] is what the n-th try would do; with no attempts it throws an undefined error. */
  method Retry(outcomes: seq<Attempt>, attempts: int, baseDelayMs: int, maxDelayMs: int)
    returns (result: Option<Attempt>, tries: nat, pauses: seq<int>)
    requires |outcomes| >= attempts
    ensures attempts <= 0 ==> result == None && tries == 0 && pauses == []
    ensures attempts > 0 ==>
      && 1 <= tries <= attempts && result == Some(outcomes[tries - 1])
      && (tries < attempts ==> outcomes[tries - 1].Failed? ==> !outcomes[tries - 1].retryable)
      && (forall n :: 0 <= n < tries - 1 ==> outcomes[n].Failed? && outcomes[n].retryable)
      && |pauses| == tries - 1 && (forall n :: 0 <= n < |pauses| ==> pauses[n] == Backoff(baseDelayMs, maxDelayMs, n))
  {
    pauses := [];
    var attempt: nat := 0;
    while attempt < attempts
      invariant attempts > 0 ==> attempt < attempts
      invariant attempts <= 0 ==> attempt == 0
      invariant |pauses| == attempt
      invariant forall n :: 0 <= n < attempt ==> outcomes[n].Failed? && outcomes[n].retryable
      invariant forall n :: 0 <= n < |pauses| ==> pauses[n] == Backoff(baseDelayMs, maxDelayMs, n)
      decreases attempts - attempt
    {
      var outcome := outcomes[attempt];
      if outcome.Succeeded? {
        return Some(outcome), attempt + 1, pauses;
      }
      if !outcome.retryable || attempt == attempts - 1 {
        return Some(outcome), attempt + 1, pauses;
      }
      pauses := pauses + [Backoff(baseDelayMs, maxDelayMs, attempt)];
      attempt := attempt + 1;
    }
    return None, 0, pauses;
  }

  /**
   The stream adapter's `execute`: every try asks the breaker, and a refusal is itself a retryable error.  The breaker
   ends where a plain sequence of guarded calls, one a try, would leave it.
   */
  method ExecuteWithRetry(b: CircuitBreaker, attempts: int, calls: seq<Call>, retryable: seq<bool>) returns (tries: nat)
    requires |calls| >= attempts && |retryable| >= attempts
    modifies b
    ensures tries <= Max(0, attempts) && tries <= |calls|
    ensures b.Value() == AfterCalls(b.options, old(b.Value()), calls[..tries])
    ensures attempts > 0 ==> tries >= 1
    ensures 0 < tries < attempts ==>
      CallStep(b.options, AfterCalls(b.options, old(b.Value()), calls[..tries - 1]), calls[tries - 1]).0 &&
      (calls[tries - 1].ok || !retryable[tries - 1])
  {
    tries := 0;
    while tries < attempts
      invariant tries <= Max(0, attempts) && tries <= |calls|
      invariant b.Value() == AfterCalls(b.options, old(b.Value()), calls[..tries])
    {
      ghost var before := b.Value();
      var call := calls[tries];
      assert calls[..tries + 1][..tries] == calls[..tries];
      var allowed := b.ShouldAllow(call.start);
      tries := tries + 1;
      if allowed {
        if call.ok {
          b.RecordSuccess();
          return;
        }
        b.RecordFailure(call.end);
        if !retryable[tries - 1] {
          return;
        }
      }
    }
  }

  /** The client's `recordRequest`: one question to the breaker, up to `attempts` tries, one answer back. */
  method RecordRequest(b: CircuitBreaker, start: int, end: int, outcomes: seq<Attempt>, attempts: int)
    returns (result: Option<Attempt>, backendOps: nat)
    requires |outcomes| >= attempts
    modifies b
    ensures var (allowed, s') :=
              CallStep(b.options, old(b.Value()), Call(start, end, result.Some? && result.value.Succeeded?));
            && b.Value() == s' && (!allowed ==> backendOps == 0 && result == None)
            && (allowed && attempts <= 0 ==> backendOps == 0 && result == None)
            && (allowed && attempts > 0 ==>
                  && 1 <= backendOps <= attempts && result == Some(outcomes[backendOps - 1])
                  && (backendOps < attempts ==>
                        outcomes[backendOps - 1].Failed? ==> !outcomes[backendOps - 1].retryable)
                  && (forall n :: 0 <= n < backendOps - 1 ==> outcomes[n].Failed? && outcomes[n].retryable))
  {
    var allowed := b.ShouldAllow(start);
    if !allowed {
      return None, 0;
    }
    var pauses;
    result, backendOps, pauses := Retry(outcomes, attempts, 100, 2000);
    if result.Some? && result.value.Succeeded? {
      b.RecordSuccess();
    } else {
      b.RecordFailure(end);
    }
  }
}
