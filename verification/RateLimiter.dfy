/**
 The two fixed-window limiters of the messaging service: the per-request hook of src/app/rateLimiter.ts, which never
 forgets a bucket, and the one in middleware/requireParticipant.ts, which sweeps expired buckets now and then.
 */
module RateLimiter {
  import opened Common

  datatype Bucket = Bucket(count: int, resetAt: int)
  datatype Answer = Allowed | Refused(retryAfterMs: int)
  datatype Limits = Limits(max: int, intervalMs: int)
  datatype Call = Call(key: string, now: int)

  const SWEEP_EVERY_MS := 300_000

  type Buckets = map<string, Bucket>

  function TakeStep(c: Limits, b: Buckets, call: Call): (Answer, Buckets) {
    if call.key !in b || b[call.key].resetAt <= call.now then
      (Allowed, b[call.key := Bucket(1, call.now + c.intervalMs)])
    else if b[call.key].count >= c.max then
      (Refused(Max(b[call.key].resetAt - call.now, 0)), b)
    else
      (Allowed, b[call.key := b[call.key].(count := b[call.key].count + 1)])
  }

  class Limiter {
    const limits: Limits
    var buckets: Buckets

    constructor (limits: Limits)
      ensures this.limits == limits && buckets == map[]
    {
      this.limits, buckets := limits, map[];
    }

    method Take(key: string, now: int) returns (answer: Answer)
      modifies this
      ensures (answer, buckets) == TakeStep(limits, old(buckets), Call(key, now))
    {
      if key !in buckets || buckets[key].resetAt <= now {
        buckets := buckets[key := Bucket(1, now + limits.intervalMs)];
        return Allowed;
      }
      var state := buckets[key];
      if state.count >= limits.max {
        return Refused(Max(state.resetAt - now, 0));
      }
      buckets := buckets[key := state.(count := state.count + 1)];
      return Allowed;
    }

    method Clear()
      modifies this
      ensures buckets == map[]
    {
      buckets := map[];
    }
  }

  // ----- the sweeping limiter --------------------------------------------------------------------------------------

  datatype Sweeping = Sweeping(buckets: Buckets, lastSweepAt: int)

  function Swept(b: Buckets, now: int): Buckets {
    map k | k in b && b[k].resetAt > now :: b[k]
  }

  function CheckStep(c: Limits, s: Sweeping, call: Call): (Answer, Sweeping) {
    var t := if call.now - s.lastSweepAt >= SWEEP_EVERY_MS then Sweeping(Swept(s.buckets, call.now), call.now) else s;
    var (answer, b) := TakeStep(c, t.buckets, call);
    (answer, t.(buckets := b))
  }

  class SweepingLimiter {
    const limits: Limits
    var buckets: Buckets
    var lastSweepAt: int

    constructor (limits: Limits)
      ensures this.limits == limits && buckets == map[] && lastSweepAt == 0
    {
      this.limits, buckets, lastSweepAt := limits, map[], 0;
    }

    function Value(): Sweeping
      reads this
    {
      Sweeping(buckets, lastSweepAt)
    }

    method Check(key: string, now: int) returns (answer: Answer)
      modifies this
      ensures (answer, Value()) == CheckStep(limits, old(Value()), Call(key, now))
    {
      MaybeCleanup(now);
      if key !in buckets || buckets[key].resetAt <= now {
        buckets := buckets[key := Bucket(1, now + limits.intervalMs)];
        return Allowed;
      }
      var bucket := buckets[key];
      if bucket.count >= limits.max {
        return Refused(Max(bucket.resetAt - now, 0));
      }
      buckets := buckets[key := bucket.(count := bucket.count + 1)];
      return Allowed;
    }

    method MaybeCleanup(now: int)
      modifies this
      ensures Value() == if now - old(lastSweepAt) >= SWEEP_EVERY_MS then Sweeping(Swept(old(buckets), now), now)
                         else old(Value())
    {
      if now - lastSweepAt >= SWEEP_EVERY_MS {
        Cleanup(now);
        lastSweepAt := now;
      }
    }

    method Cleanup(now: int)
      modifies this`buckets
      ensures buckets == Swept(old(buckets), now)
    {
      var keys := buckets.Keys;
      while keys != {}
        invariant keys <= buckets.Keys <= old(buckets.Keys)
        invariant forall k :: k in buckets ==> buckets[k] == old(buckets)[k]
        invariant forall k :: k in old(buckets) && k !in keys ==> (k in buckets <==> old(buckets)[k].resetAt > now)
        decreases keys
      {
        var k :| k in keys;
        if buckets[k].resetAt <= now {
          buckets := buckets - {k};
        }
        keys := keys - {k};
      }
    }
  }

  // ----- sweeping changes no answer --------------------------------------------------------------------------------

  ghost predicate Ordered(calls: seq<Call>) {
    forall i, j :: 0 <= i < j < |calls| ==> calls[i].now <= calls[j].now
  }

  function Answers(c: Limits, b: Buckets, calls: seq<Call>): seq<Answer>
    decreases |calls|
  {
    if calls == [] then []
    else var (a, b') := TakeStep(c, b, calls[0]); [a] + Answers(c, b', calls[1..])
  }

  function SweepingAnswers(c: Limits, s: Sweeping, calls: seq<Call>): seq<Answer>
    decreases |calls|
  {
    if calls == [] then []
    else var (a, s') := CheckStep(c, s, calls[0]); [a] + SweepingAnswers(c, s', calls[1..])
  }

  /** The sweeper has lost nothing but buckets that are over by `now`. */
  ghost predicate LostOnlyExpired(b: Buckets, swept: Buckets, now: int) {
    && (forall k :: k in swept ==> k in b && b[k] == swept[k])
    && (forall k :: k in b && k !in swept ==> b[k].resetAt <= now)
  }

  lemma {:induction false} SweepingKeepsAnswers(c: Limits, b: Buckets, s: Sweeping, now: int, calls: seq<Call>)
    requires Ordered(calls) && LostOnlyExpired(b, s.buckets, now) && (calls != [] ==> now <= calls[0].now)
    ensures SweepingAnswers(c, s, calls) == Answers(c, b, calls)
    decreases |calls|
  {
    if calls != [] {
      var (a, b') := TakeStep(c, b, calls[0]);
      var (a', s') := CheckStep(c, s, calls[0]);
      assert LostOnlyExpired(b', s'.buckets, calls[0].now);
      SweepingKeepsAnswers(c, b', s', calls[0].now, calls[1..]);
    }
  }

  /** Under a clock that does not run back, the limiter that sweeps answers as the one that never does. */
  lemma SweepingIsInvisible(c: Limits, calls: seq<Call>)
    requires Ordered(calls)
    ensures SweepingAnswers(c, Sweeping(map[], 0), calls) == Answers(c, map[], calls)
  {
    if calls != [] {
      SweepingKeepsAnswers(c, map[], Sweeping(map[], 0), calls[0].now, calls);
    }
  }

  // ----- how much a window can grant -------------------------------------------------------------------------------

  /** The calls for `key` in [lo, hi] that are let through. */
  function Grants(c: Limits, b: Buckets, calls: seq<Call>, key: string, lo: int, hi: int): nat
    decreases |calls|
  {
    if calls == [] then 0
    else
      var (a, b') := TakeStep(c, b, calls[0]);
      (if a == Allowed && calls[0].key == key && lo <= calls[0].now <= hi then 1 else 0) +
      Grants(c, b', calls[1..], key, lo, hi)
  }

  /** Even a limit below one grants the call that opens a bucket. */
  function PerBucket(c: Limits): int {
    Max(1, c.max)
  }

  /** Full buckets opened back to back from `from`, up to `hi`. */
  function FullBuckets(c: Limits, from: int, hi: int): int
    requires c.intervalMs >= 1
    decreases hi - from
  {
    if from > hi then 0 else PerBucket(c) + FullBuckets(c, from + c.intervalMs, hi)
  }

  lemma {:induction false} LaterStartGrantsLess(c: Limits, a: int, b: int, hi: int)
    requires c.intervalMs >= 1 && a <= b
    ensures FullBuckets(c, b, hi) <= FullBuckets(c, a, hi)
    decreases hi - a
  {
    if b <= hi {
      LaterStartGrantsLess(c, a + c.intervalMs, b + c.intervalMs, hi);
    } else {
      FullBucketsNonNegative(c, a, hi);
    }
  }

  lemma {:induction false} FullBucketsNonNegative(c: Limits, a: int, hi: int)
    requires c.intervalMs >= 1
    ensures FullBuckets(c, a, hi) >= 0
    decreases hi - a
  {
    if a <= hi {
      FullBucketsNonNegative(c, a + c.intervalMs, hi);
    }
  }

  lemma {:induction false} FullBucketsInSpan(c: Limits, lo: int, k: nat)
    requires c.intervalMs >= 1
    ensures FullBuckets(c, lo, lo + k * c.intervalMs) == (k + 1) * PerBucket(c)
    ensures FullBuckets(c, lo + 1, lo + k * c.intervalMs) == k * PerBucket(c)
    decreases k
  {
    if k > 0 {
      FullBucketsInSpan(c, lo + c.intervalMs, k - 1);
      assert lo + k * c.intervalMs == lo + c.intervalMs + (k - 1) * c.intervalMs;
      assert k * PerBucket(c) == (k - 1) * PerBucket(c) + PerBucket(c);
      assert (k + 1) * PerBucket(c) == k * PerBucket(c) + PerBucket(c);
      assert k * c.intervalMs == (k - 1) * c.intervalMs + c.intervalMs && (k - 1) * c.intervalMs >= 0;
    }
  }

  /** What the rest of [lo, hi] can still grant to a key: its live bucket's remainder, then full buckets. */
  function Allowance(c: Limits, b: Buckets, key: string, lo: int, hi: int): int
    requires c.intervalMs >= 1
  {
    if key !in b || b[key].resetAt <= lo then FullBuckets(c, lo, hi)
    else PerBucket(c) - b[key].count + FullBuckets(c, b[key].resetAt, hi)
  }

  ghost predicate Counted(c: Limits, b: Buckets, key: string) {
    key in b ==> 1 <= b[key].count <= PerBucket(c)
  }

  lemma TakeSpends(c: Limits, b: Buckets, call: Call, key: string, lo: int, hi: int)
    requires c.intervalMs >= 1 && Counted(c, b, key) && lo <= call.now <= hi
    ensures var (a, b') := TakeStep(c, b, call);
            (if a == Allowed && call.key == key then 1 else 0) + Allowance(c, b', key, lo, hi) <=
            Allowance(c, b, key, lo, hi)
  {
    if call.key == key && (key !in b || b[key].resetAt <= call.now) {
      var from := if key !in b || b[key].resetAt <= lo then lo else b[key].resetAt;
      LaterStartGrantsLess(c, from, call.now, hi);
    }
  }

  lemma {:induction false} NoGrantsAfter(c: Limits, b: Buckets, calls: seq<Call>, key: string, lo: int, hi: int)
    requires forall i :: 0 <= i < |calls| ==> calls[i].now > hi
    ensures Grants(c, b, calls, key, lo, hi) == 0
    decreases |calls|
  {
    if calls != [] {
      NoGrantsAfter(c, TakeStep(c, b, calls[0]).1, calls[1..], key, lo, hi);
    }
  }

  lemma {:induction false} GrantsWithinAllowance(c: Limits, b: Buckets, calls: seq<Call>, key: string, lo: int, hi: int)
    requires c.intervalMs >= 1 && Counted(c, b, key) && Ordered(calls)
    requires forall i :: 0 <= i < |calls| ==> lo <= calls[i].now
    ensures Grants(c, b, calls, key, lo, hi) <= Max(0, Allowance(c, b, key, lo, hi))
    decreases |calls|
  {
    if calls != [] {
      if calls[0].now > hi {
        NoGrantsAfter(c, b, calls, key, lo, hi);
      } else {
        TakeSpends(c, b, calls[0], key, lo, hi);
        GrantsWithinAllowance(c, TakeStep(c, b, calls[0]).1, calls[1..], key, lo, hi);
        AllowanceNonNegative(c, TakeStep(c, b, calls[0]).1, key, lo, hi);
      }
    }
  }

  lemma AllowanceNonNegative(c: Limits, b: Buckets, key: string, lo: int, hi: int)
    requires c.intervalMs >= 1 && Counted(c, b, key)
    ensures Allowance(c, b, key, lo, hi) >= 0
  {
    FullBucketsNonNegative(c, lo, hi);
    if key in b {
      FullBucketsNonNegative(c, b[key].resetAt, hi);
    }
  }

  /** A span of k intervals starts with at most k + 1 buckets' worth, wherever the running bucket stands. */
  lemma AllowanceInSpan(c: Limits, b: Buckets, key: string, lo: int, k: nat)
    requires c.intervalMs >= 1 && Counted(c, b, key)
    ensures Allowance(c, b, key, lo, lo + k * c.intervalMs) <= (k + 1) * PerBucket(c)
  {
    var hi := lo + k * c.intervalMs;
    FullBucketsInSpan(c, lo, k);
    if key in b && b[key].resetAt > lo {
      LaterStartGrantsLess(c, lo + 1, b[key].resetAt, hi);
      assert (k + 1) * PerBucket(c) == k * PerBucket(c) + PerBucket(c);
    }
  }

  lemma {:induction false} SpanGrants(c: Limits, b: Buckets, calls: seq<Call>, key: string, lo: int, k: nat)
    requires c.intervalMs >= 1 && Counted(c, b, key) && Ordered(calls)
    ensures Grants(c, b, calls, key, lo, lo + k * c.intervalMs) <= (k + 1) * PerBucket(c)
    decreases |calls|
  {
    var hi := lo + k * c.intervalMs;
    if calls != [] && calls[0].now < lo {
      SpanGrants(c, TakeStep(c, b, calls[0]).1, calls[1..], key, lo, k);
    } else {
      GrantsWithinAllowance(c, b, calls, key, lo, hi);
      AllowanceInSpan(c, b, key, lo, k);
      assert (k + 1) * PerBucket(c) >= 0;
    }
  }

  /** Under a clock that does not run back, a span of k intervals grants a key at most (k + 1) * max calls. */
  lemma WindowGrantsBounded(c: Limits, calls: seq<Call>, key: string, lo: int, k: nat)
    requires c.max >= 1 && c.intervalMs >= 1 && Ordered(calls)
    ensures Grants(c, map[], calls, key, lo, lo + k * c.intervalMs) <= (k + 1) * c.max
  {
    SpanGrants(c, map[], calls, key, lo, k);
  }

  // ----- what a window grants --------------------------------------------------------------------------------------

  /** The buckets after the calls. */
  function After(c: Limits, b: Buckets, calls: seq<Call>): Buckets {
    if calls == [] then b else TakeStep(c, After(c, b, calls[..|calls| - 1]), calls[|calls| - 1]).1
  }

  lemma {:induction false} OneMoreAnswer(c: Limits, b: Buckets, calls: seq<Call>, call: Call)
    ensures |Answers(c, b, calls)| == |calls|
    ensures Answers(c, b, calls + [call]) == Answers(c, b, calls) + [TakeStep(c, After(c, b, calls), call).0]
    decreases |calls|
  {
    if calls != [] {
      var b' := TakeStep(c, b, calls[0]).1;
      assert (calls + [call])[1..] == calls[1..] + [call];
      OneMoreAnswer(c, b', calls[1..], call);
      AfterFirst(c, b, calls);
    }
  }

  lemma {:induction false} AfterFirst(c: Limits, b: Buckets, calls: seq<Call>)
    requires calls != []
    ensures After(c, b, calls) == After(c, TakeStep(c, b, calls[0]).1, calls[1..])
    decreases |calls|
  {
    var n := |calls| - 1;
    if n > 0 {
      AfterFirst(c, b, calls[..n]);
      assert calls[..n][1..] == calls[1..][..n - 1];
    }
  }

  /**
   Which call opened the newest window of a key: its first call, or one an interval or more after the call that opened
   the window before.
   */
  function Opener(intervalMs: int, calls: seq<Call>, key: string): (i: Option<nat>)
    ensures i.Some? ==> i.value < |calls| && calls[i.value].key == key
  {
    if calls == [] then None
    else
      var n := |calls| - 1;
      var before := Opener(intervalMs, calls[..n], key);
      if calls[n].key == key && (before.None? || calls[n].now >= calls[before.value].now + intervalMs) then Some(n)
      else before
  }

  /** How many calls of the key have been let through from call number `from` on. */
  function GrantedFrom(calls: seq<Call>, answers: seq<Answer>, key: string, from: nat): nat
    requires |answers| == |calls|
  {
    var n := |calls| - 1;
    if |calls| <= from then 0
    else
      GrantedFrom(calls[..n], answers[..n], key, from) + if calls[n].key == key && answers[n].Allowed? then 1 else 0
  }

  /** How many calls of the key have been made from call number `from` on. */
  function AskedFrom(calls: seq<Call>, key: string, from: nat): nat {
    var n := |calls| - 1;
    if |calls| <= from then 0 else AskedFrom(calls[..n], key, from) + if calls[n].key == key then 1 else 0
  }

  lemma {:induction false} BucketIsWindow(c: Limits, calls: seq<Call>, key: string)
    ensures |Answers(c, map[], calls)| == |calls|
    ensures var b, i := After(c, map[], calls), Opener(c.intervalMs, calls, key);
            && (key in b <==> i.Some?)
            && (i.Some? ==>
                  && b[key].resetAt == calls[i.value].now + c.intervalMs
                  && b[key].count == GrantedFrom(calls, Answers(c, map[], calls), key, i.value)
                  && b[key].count == Min(AskedFrom(calls, key, i.value), PerBucket(c)) >= 1)
    decreases |calls|
  {
    if calls != [] {
      var n := |calls| - 1;
      BucketIsWindow(c, calls[..n], key);
      OneMoreAnswer(c, map[], calls[..n], calls[n]);
      assert calls == calls[..n] + [calls[n]];
      assert Answers(c, map[], calls)[..n] == Answers(c, map[], calls[..n]);
      var i := Opener(c.intervalMs, calls, key);
      if i == Some(n) {
        assert GrantedFrom(calls[..n], Answers(c, map[], calls[..n]), key, n) == 0 == AskedFrom(calls[..n], key, n);
      }
    }
  }

  /**
   After any calls under any clock, a call is refused exactly when max calls of its key have been let through in a
   window that is still open, and is told how long that window has left.
   */
  lemma RefusedIffWindowIsSpent(c: Limits, calls: seq<Call>, call: Call)
    ensures var answers, i := Answers(c, map[], calls), Opener(c.intervalMs, calls, call.key);
            && |answers| == |calls|
            && Answers(c, map[], calls + [call]) == answers + [
                 if i.Some? && call.now < calls[i.value].now + c.intervalMs &&
                    GrantedFrom(calls, answers, call.key, i.value) >= c.max
                 then Refused(calls[i.value].now + c.intervalMs - call.now) else Allowed]
  {
    BucketIsWindow(c, calls, call.key);
    OneMoreAnswer(c, map[], calls, call);
  }

  /** In other words, a window lets its first max calls through, its very first one whatever max is, and no other. */
  lemma FirstCallsOfAWindow(c: Limits, calls: seq<Call>, call: Call)
    ensures var i := Opener(c.intervalMs, calls, call.key);
            |Answers(c, map[], calls + [call])| == |calls| + 1 &&
            (Answers(c, map[], calls + [call])[|calls|] == Allowed <==>
             || i.None? || call.now >= calls[i.value].now + c.intervalMs
             || AskedFrom(calls, call.key, i.value) < Max(1, c.max))
  {
    BucketIsWindow(c, calls, call.key);
    OneMoreAnswer(c, map[], calls, call);
  }

  lemma {:induction false} WindowStaysOpen(c: Limits, calls: seq<Call>, more: seq<Call>, key: string)
    requires var i := Opener(c.intervalMs, calls, key);
             i.Some? && forall j :: 0 <= j < |more| && more[j].key == key ==>
               more[j].now < calls[i.value].now + c.intervalMs
    ensures Opener(c.intervalMs, calls + more, key) == Opener(c.intervalMs, calls, key)
    ensures var i := Opener(c.intervalMs, calls, key);
            AskedFrom(calls + more, key, i.value) >= AskedFrom(calls, key, i.value)
    decreases |more|
  {
    if more == [] {
      assert calls + more == calls;
    } else {
      var n := |more| - 1;
      WindowStaysOpen(c, calls, more[..n], key);
      assert (calls + more)[..|calls| + n] == calls + more[..n];
    }
  }

  /**
   The wait a refused call is told is exact: whatever else is asked before it is over, a call of that key is refused
   until then, and let through then.
   */
  lemma RetryAfterIsExact(c: Limits, calls: seq<Call>, refused: Call, others: seq<Call>, retry: Call)
    requires var answers := Answers(c, map[], calls + [refused]);
             |answers| == |calls| + 1 && answers[|calls|].Refused? && retry.key == refused.key &&
             forall j :: 0 <= j < |others| && others[j].key == refused.key ==>
               others[j].now < refused.now + answers[|calls|].retryAfterMs
    ensures var wait := Answers(c, map[], calls + [refused])[|calls|].retryAfterMs;
            var all := Answers(c, map[], calls + [refused] + others + [retry]);
            |all| == |calls| + |others| + 2 &&
            (all[|calls| + |others| + 1] == Allowed <==> retry.now >= refused.now + wait)
  {
    var first := calls + [refused];
    RefusedIffWindowIsSpent(c, calls, refused);
    FirstCallsOfAWindow(c, calls, refused);
    assert first[..|calls|] == calls;
    WindowStaysOpen(c, first, others, refused.key);
    FirstCallsOfAWindow(c, first + others, retry);
  }
}
