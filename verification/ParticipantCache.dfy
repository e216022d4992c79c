/**
 The versioned participant cache of services/messaging/src/app/stream/participantCache.ts: lists live in Redis under a
 key that carries a version, every process keeps its own copy in memory, and a Redis counter is the version.
 */
module ParticipantCache {
  import opened Common

  datatype Cell = Counter(n: nat) | Users(list: seq<string>)
  datatype Cached = Cached(version: nat, userIds: seq<string>)

  type Redis = map<string, Cell>
  type Memory = map<string, Cached>

  // ----- key names -------------------------------------------------------------------------------------------------

  const DIGITS := "0123456789"

  function Decimal(n: nat): (s: string)
    ensures s != [] && forall i :: 0 <= i < |s| ==> s[i] in DIGITS
  {
    if n < 10 then [DIGITS[n]] else Decimal(n / 10) + [DIGITS[n % 10]]
  }

  function VersionKey(conversation: string): string {
    "conv:" + conversation + ":part:ver"
  }

  function CacheKey(conversation: string, version: nat): string {
    "conv:" + conversation + ":participants:v" + Decimal(version)
  }

  lemma DigitsDiffer(i: nat, j: nat)
    requires i < 10 && j < 10 && DIGITS[i] == DIGITS[j]
    ensures i == j
  {
  }

  lemma DecimalParts(n: nat)
    ensures var s := Decimal(n);
            && |s| >= 1 && s[|s| - 1] == DIGITS[n % 10] && (|s| == 1 <==> n < 10)
            && (n >= 10 ==> s[..|s| - 1] == Decimal(n / 10))
  {
  }

  lemma {:induction false} DecimalInjective(m: nat, n: nat)
    requires Decimal(m) == Decimal(n)
    ensures m == n
  {
    hide Decimal, DIGITS;
    DecimalParts(m);
    DecimalParts(n);
    DigitsDiffer(m % 10, n % 10);
    if m >= 10 && n >= 10 {
      DecimalInjective(m / 10, n / 10);
    }
  }

  /** Digits after a letter can be split off in only one way. */
  lemma DigitSuffixUnique(a: string, d: string, b: string, e: string)
    requires a != [] && b != [] && a[|a| - 1] !in DIGITS && b[|b| - 1] !in DIGITS
    requires (forall i :: 0 <= i < |d| ==> d[i] in DIGITS) && (forall i :: 0 <= i < |e| ==> e[i] in DIGITS)
    requires a + d == b + e
    ensures a == b && d == e
  {
    var s := a + d;
    assert s[|a| - 1] == a[|a| - 1] && s[|b| - 1] == b[|b| - 1];
    assert forall i :: |a| <= i < |s| ==> s[i] == d[i - |a|];
    assert forall i :: |b| <= i < |s| ==> s[i] == e[i - |b|];
    assert |a| == |b|;
    assert a == s[..|a|] && b == s[..|b|] && d == s[|a|..] && e == s[|b|..];
  }

  /** Whatever characters conversation ids hold, no two lists share a key. */
  lemma CacheKeyInjective(c: string, v: nat, d: string, w: nat)
    requires CacheKey(c, v) == CacheKey(d, w)
    ensures c == d && v == w
  {
    var a, b := "conv:" + c + ":participants:v", "conv:" + d + ":participants:v";
    DigitSuffixUnique(a, Decimal(v), b, Decimal(w));
    DecimalInjective(v, w);
    assert c == a[5..|a| - 15] && d == b[5..|b| - 15];
  }

  /** Nor does a list share a key with a counter. */
  lemma KeysApart(c: string, d: string, v: nat)
    ensures VersionKey(c) != CacheKey(d, v)
  {
    var a, b := VersionKey(c), CacheKey(d, v);
    assert a[|a| - 1] == 'r' && b[|b| - 1] == Decimal(v)[|Decimal(v)| - 1];
    assert 'r' !in DIGITS;
  }

  lemma VersionKeyInjective(c: string, d: string)
    requires VersionKey(c) == VersionKey(d)
    ensures c == d
  {
    assert c == VersionKey(c)[5..|VersionKey(c)| - 9] && d == VersionKey(d)[5..|VersionKey(d)| - 9];
  }

  // ----- the atomic pieces of the calls ----------------------------------------------------------------------------

  /** A missing counter reads as version 1. */
  function VersionIn(r: Redis, conversation: string): nat {
    var k := VersionKey(conversation);
    if k in r && r[k].Counter? then r[k].n else 1
  }

  /** INCR: a missing counter becomes 1. */
  function Incremented(r: Redis, conversation: string): Redis {
    var k := VersionKey(conversation);
    r[k := Counter(if k in r && r[k].Counter? then r[k].n + 1 else 1)]
  }

  function MemoryHit(m: Memory, conversation: string, version: nat): Option<seq<string>> {
    if conversation in m && m[conversation].version == version then Some(m[conversation].userIds) else None
  }

  function RedisHit(r: Redis, conversation: string, version: nat): Option<seq<string>> {
    var k := CacheKey(conversation, version);
    if k in r && r[k].Users? then Some(r[k].list) else None
  }

  function Remembered(m: Memory, conversation: string, version: nat, userIds: seq<string>): Memory {
    m[conversation := Cached(version, userIds)]
  }

  function Stored(r: Redis, conversation: string, version: nat, userIds: seq<string>): Redis {
    r[CacheKey(conversation, version) := Users(userIds)]
  }

  function Invalidated(m: Memory, conversation: string, newVersion: nat): Memory {
    if conversation in m && m[conversation].version < newVersion then m - {conversation} else m
  }

  // ----- one process, uninterrupted --------------------------------------------------------------------------------

  /** `get` answers a miss with an empty list. */
  function GetAlone(r: Redis, m: Memory, conversation: string): (Option<seq<string>>, Memory) {
    var v := VersionIn(r, conversation);
    if MemoryHit(m, conversation, v).Some? then (MemoryHit(m, conversation, v), m)
    else
      match RedisHit(r, conversation, v)
      case Some(u) => (Some(u), Remembered(m, conversation, v, u))
      case None => (None, m)
  }

  class RedisServer {
    var cells: Redis

    constructor ()
      ensures cells == map[]
    {
      cells := map[];
    }
  }

  class ParticipantCache {
    const redis: RedisServer
    var memoryCache: Memory

    constructor (redis: RedisServer)
      ensures this.redis == redis && memoryCache == map[]
    {
      this.redis, memoryCache := redis, map[];
    }

    method GetCurrentVersion(conversation: string) returns (version: nat)
      ensures version == VersionIn(redis.cells, conversation)
    {
      var k := VersionKey(conversation);
      version := if k in redis.cells && redis.cells[k].Counter? then redis.cells[k].n else 1;
    }

    method IncrementVersion(conversation: string) returns (version: nat)
      modifies redis
      ensures redis.cells == Incremented(old(redis.cells), conversation) &&
              version == VersionIn(redis.cells, conversation)
    {
      var k := VersionKey(conversation);
      version := if k in redis.cells && redis.cells[k].Counter? then redis.cells[k].n + 1 else 1;
      redis.cells := redis.cells[k := Counter(version)];
    }

    method Get(conversation: string) returns (userIds: seq<string>)
      modifies this
      ensures var (hit, m) := GetAlone(redis.cells, old(memoryCache), conversation);
              memoryCache == m && userIds == if hit.Some? then hit.value else []
    {
      var version := GetCurrentVersion(conversation);
      if conversation in memoryCache {
        var cached := memoryCache[conversation];
        if cached.version == version {
          return cached.userIds;
        }
      }
      var hit := RedisHit(redis.cells, conversation, version);
      if hit.Some? {
        memoryCache := memoryCache[conversation := Cached(version, hit.value)];
        return hit.value;
      }
      return [];
    }

    method Set(conversation: string, userIds: seq<string>)
      modifies this, redis
      ensures var v := VersionIn(old(redis.cells), conversation);
              redis.cells == Stored(old(redis.cells), conversation, v, userIds) &&
              memoryCache == Remembered(old(memoryCache), conversation, v, userIds)
    {
      var version := GetCurrentVersion(conversation);
      redis.cells := redis.cells[CacheKey(conversation, version) := Users(userIds)];
      memoryCache := memoryCache[conversation := Cached(version, userIds)];
    }

    method Invalidate(conversation: string) returns (published: nat)
      modifies this, redis
      ensures redis.cells == Incremented(old(redis.cells), conversation)
      ensures memoryCache == old(memoryCache) - {conversation} && published == VersionIn(redis.cells, conversation)
    {
      published := IncrementVersion(conversation);
      memoryCache := memoryCache - {conversation};
    }

    method HandleInvalidation(conversation: string, newVersion: nat)
      modifies this
      ensures memoryCache == Invalidated(old(memoryCache), conversation, newVersion)
    {
      if conversation in memoryCache && memoryCache[conversation].version < newVersion {
        memoryCache := memoryCache - {conversation};
      }
    }
  }

  /** Redis as the cache leaves it: every counter has been raised, and no list lies above its current version. */
  ghost predicate CountersLead(r: Redis, conversation: string) {
    && (VersionKey(conversation) in r ==> r[VersionKey(conversation)].Counter? && r[VersionKey(conversation)].n >= 1)
    && forall v: nat :: v > VersionIn(r, conversation) ==> CacheKey(conversation, v) !in r
  }

  /**
   Set, then invalidate, then get, with nothing in between: the get misses exactly when the counter existed before the
   invalidate.  The first invalidate of a conversation turns a missing counter into 1, which reads the same, and the
   stale list is served again.
   */
  lemma InvalidateHidesIffCounterExisted(r: Redis, m: Memory, conversation: string, userIds: seq<string>)
    requires CountersLead(r, conversation)
    ensures var r1 := Stored(r, conversation, VersionIn(r, conversation), userIds);
            var m1 := Remembered(m, conversation, VersionIn(r, conversation), userIds);
            var hit := GetAlone(Incremented(r1, conversation), m1 - {conversation}, conversation).0;
            && (hit.None? <==> VersionKey(conversation) in r)
            && (hit.Some? ==> hit.value == userIds)
  {
    var v := VersionIn(r, conversation);
    KeysApart(conversation, conversation, v);
    KeysApart(conversation, conversation, v + 1);
    if CacheKey(conversation, v + 1) == CacheKey(conversation, v) {
      CacheKeyInjective(conversation, v + 1, conversation, v);
    }
  }

  // ----- many processes, interleaved at every await ----------------------------------------------------------------

  /** What the version counter has been asked, in order; a `set` records the list it was given. */
  datatype Entry =
    | Incremented_(conversation: string)
    | ReadByGet(conversation: string, version: nat)
    | ReadBySet(conversation: string, version: nat, userIds: seq<string>)

  /** A call in progress: what it waits for, and what it has learned.  `at` is its version read in the log. */
  datatype Call =
    | GetStart(pid: nat, conversation: string)
    | GetVersion(pid: nat, conversation: string, version: nat, at: nat)
    | GetAsking(pid: nat, conversation: string, version: nat, at: nat)
    | GetReply(pid: nat, conversation: string, version: nat, at: nat, reply: Option<seq<string>>)
    | GetDone(conversation: string, version: nat, at: nat, result: Option<seq<string>>)
    | SetStart(pid: nat, conversation: string, userIds: seq<string>)
    | SetVersion(pid: nat, conversation: string, version: nat, userIds: seq<string>)
    | SetWritten(pid: nat, conversation: string, version: nat, userIds: seq<string>)
    | InvalidateStart(pid: nat, conversation: string)
    | InvalidateCounted(pid: nat, conversation: string)
    | Finished

  datatype State = State(redis: Redis, memories: map<nat, Memory>, calls: seq<Call>, log: seq<Entry>)

  datatype Event =
    | Begin(call: Call)
    | Advance(id: nat)
    | Abort(id: nat)
    | Expire(conversation: string, version: nat)
    | Message(pid: nat, conversation: string, version: nat)
    | Stop(pid: nat)

  function MemoryOf(s: State, pid: nat): Memory {
    if pid in s.memories then s.memories[pid] else map[]
  }

  /** One call takes its next atomic piece: a command served by Redis, or the code between two awaits. */
  function AdvanceStep(s: State, id: nat): State
    requires id < |s.calls|
  {
    match s.calls[id]
    case GetStart(p, c) =>
      var v := VersionIn(s.redis, c);
      s.(log := s.log + [ReadByGet(c, v)], calls := s.calls[id := GetVersion(p, c, v, |s.log|)])
    case GetVersion(p, c, v, at) =>
      var hit := MemoryHit(MemoryOf(s, p), c, v);
      s.(calls := s.calls[id := if hit.Some? then GetDone(c, v, at, hit) else GetAsking(p, c, v, at)])
    case GetAsking(p, c, v, at) => s.(calls := s.calls[id := GetReply(p, c, v, at, RedisHit(s.redis, c, v))])
    case GetReply(p, c, v, at, reply) =>
      var t := s.(calls := s.calls[id := GetDone(c, v, at, reply)]);
      if reply.Some? then t.(memories := s.memories[p := Remembered(MemoryOf(s, p), c, v, reply.value)]) else t
    case SetStart(p, c, u) =>
      var v := VersionIn(s.redis, c);
      s.(log := s.log + [ReadBySet(c, v, u)], calls := s.calls[id := SetVersion(p, c, v, u)])
    case SetVersion(p, c, v, u) => s.(redis := Stored(s.redis, c, v, u), calls := s.calls[id := SetWritten(p, c, v, u)])
    case SetWritten(p, c, v, u) =>
      s.(memories := s.memories[p := Remembered(MemoryOf(s, p), c, v, u)], calls := s.calls[id := Finished])
    case InvalidateStart(p, c) =>
      s.(redis := Incremented(s.redis, c), log := s.log + [Incremented_(c)],
         calls := s.calls[id := InvalidateCounted(p, c)])
    case InvalidateCounted(p, c) =>
      s.(memories := s.memories[p := MemoryOf(s, p) - {c}], calls := s.calls[id := Finished])
    case GetDone(_, _, _, _) => s
    case Finished => s
  }

  /** Messages arrive at any time, any number of times, with any number in them, or never. */
  function Step(s: State, ev: Event): State {
    match ev
    case Begin(call) =>
      if call.GetStart? || call.SetStart? || call.InvalidateStart? then s.(calls := s.calls + [call]) else s
    case Advance(id) => if id < |s.calls| then AdvanceStep(s, id) else s
    case Abort(id) => if id < |s.calls| && !s.calls[id].GetDone? then s.(calls := s.calls[id := Finished]) else s
    case Expire(c, v) => s.(redis := s.redis - {CacheKey(c, v)})
    case Message(p, c, v) => s.(memories := s.memories[p := Invalidated(MemoryOf(s, p), c, v)])
    case Stop(p) => s.(memories := s.memories[p := map[]])
  }

  function Run(evs: seq<Event>): State {
    if evs == [] then State(map[], map[], [], []) else Step(Run(evs[..|evs| - 1]), evs[|evs| - 1])
  }

  // ----- what every run keeps --------------------------------------------------------------------------------------

  function Increments(log: seq<Entry>, conversation: string): nat {
    if log == [] then 0
    else Increments(log[..|log| - 1], conversation) + if log[|log| - 1] == Incremented_(conversation) then 1 else 0
  }

  /** A `set` that read this version was given this list. */
  ghost predicate Given(log: seq<Entry>, conversation: string, version: nat, userIds: seq<string>) {
    ReadBySet(conversation, version, userIds) in log
  }

  ghost predicate GivenTo(log: seq<Entry>, conversation: string, version: nat, list: Option<seq<string>>) {
    list.Some? ==> Given(log, conversation, version, list.value)
  }

  /** The counter's value is how often it was raised; it does not exist before the first time. */
  ghost predicate CounterHolds(r: Redis, log: seq<Entry>, conversation: string) {
    var k, n := VersionKey(conversation), Increments(log, conversation);
    if n == 0 then k !in r else k in r && r[k] == Counter(n)
  }

  ghost predicate ListHolds(r: Redis, log: seq<Entry>, conversation: string, version: nat) {
    var k := CacheKey(conversation, version);
    k in r ==> r[k].Users? && Given(log, conversation, version, r[k].list)
  }

  ghost predicate MemoryHolds(log: seq<Entry>, m: Memory) {
    forall c :: c in m ==> Given(log, c, m[c].version, m[c].userIds)
  }

  ghost predicate CallHolds(log: seq<Entry>, call: Call) {
    match call
    case GetVersion(_, c, v, at) => at < |log| && log[at] == ReadByGet(c, v)
    case GetAsking(_, c, v, at) => at < |log| && log[at] == ReadByGet(c, v)
    case GetReply(_, c, v, at, reply) => at < |log| && log[at] == ReadByGet(c, v) && GivenTo(log, c, v, reply)
    case GetDone(c, v, at, result) => at < |log| && log[at] == ReadByGet(c, v) && GivenTo(log, c, v, result)
    case SetVersion(_, c, v, u) => Given(log, c, v, u)
    case SetWritten(_, c, v, u) => Given(log, c, v, u)
    case _ => true
  }

  /** Every version read is the one the counter had at that point of the log. */
  ghost predicate ReadsHold(log: seq<Entry>) {
    forall i :: 0 <= i < |log| && !log[i].Incremented_? ==>
      log[i].version == Max(1, Increments(log[..i], log[i].conversation))
  }

  ghost predicate CountersHold(r: Redis, log: seq<Entry>) {
    forall c :: CounterHolds(r, log, c)
  }

  ghost predicate ListsHold(r: Redis, log: seq<Entry>) {
    forall c, v: nat :: ListHolds(r, log, c, v)
  }

  ghost predicate MemoriesHold(memories: map<nat, Memory>, log: seq<Entry>) {
    forall p :: p in memories ==> MemoryHolds(log, memories[p])
  }

  ghost predicate CallsHold(calls: seq<Call>, log: seq<Entry>) {
    forall i :: 0 <= i < |calls| ==> CallHolds(log, calls[i])
  }

  ghost predicate Inv(s: State) {
    && CountersHold(s.redis, s.log)
    && ListsHold(s.redis, s.log)
    && MemoriesHold(s.memories, s.log)
    && CallsHold(s.calls, s.log)
    && ReadsHold(s.log)
  }

  lemma IncrementsAppend(log: seq<Entry>, e: Entry, c: string)
    ensures Increments(log + [e], c) == Increments(log, c) + if e == Incremented_(c) then 1 else 0
  {
    assert (log + [e])[..|log|] == log;
  }

  lemma VersionIsCount(r: Redis, log: seq<Entry>, c: string)
    requires CountersHold(r, log)
    ensures VersionIn(r, c) == Max(1, Increments(log, c))
  {
    assert CounterHolds(r, log, c);
  }

  /** What has been given stays given, and a read in the log stays where it is. */
  lemma LogGrows(log: seq<Entry>, e: Entry, memories: map<nat, Memory>, calls: seq<Call>)
    requires MemoriesHold(memories, log) && CallsHold(calls, log)
    ensures MemoriesHold(memories, log + [e]) && CallsHold(calls, log + [e])
  {
    var grown := log + [e];
    assert forall c, v, u :: Given(log, c, v, u) ==> Given(grown, c, v, u);
    assert forall k :: 0 <= k < |log| ==> grown[k] == log[k];
    forall p | p in memories ensures MemoryHolds(grown, memories[p]) {
      assert MemoryHolds(log, memories[p]);
    }
    forall i | 0 <= i < |calls| ensures CallHolds(grown, calls[i]) {
      assert CallHolds(log, calls[i]);
    }
  }

  lemma ReadsGrow(log: seq<Entry>, e: Entry)
    requires ReadsHold(log)
    requires e.Incremented_? || e.version == Max(1, Increments(log, e.conversation))
    ensures ReadsHold(log + [e])
  {
    var grown := log + [e];
    forall i | 0 <= i < |grown| && !grown[i].Incremented_?
      ensures grown[i].version == Max(1, Increments(grown[..i], grown[i].conversation))
    {
      if i < |log| {
        assert grown[..i] == log[..i];
      } else {
        assert grown[..i] == log;
      }
    }
  }

  lemma ReadKeepsRedis(r: Redis, log: seq<Entry>, e: Entry)
    requires CountersHold(r, log) && ListsHold(r, log) && !e.Incremented_?
    ensures CountersHold(r, log + [e]) && ListsHold(r, log + [e])
  {
    forall c ensures CounterHolds(r, log + [e], c) {
      assert CounterHolds(r, log, c);
      IncrementsAppend(log, e, c);
    }
    forall c, v: nat ensures ListHolds(r, log + [e], c, v) {
      assert ListHolds(r, log, c, v);
    }
  }

  lemma IncrementKeepsRedis(r: Redis, log: seq<Entry>, d: string)
    requires CountersHold(r, log) && ListsHold(r, log)
    ensures CountersHold(Incremented(r, d), log + [Incremented_(d)])
    ensures ListsHold(Incremented(r, d), log + [Incremented_(d)])
  {
    var r', grown := Incremented(r, d), log + [Incremented_(d)];
    forall c ensures CounterHolds(r', grown, c) {
      assert CounterHolds(r, log, c);
      IncrementsAppend(log, Incremented_(d), c);
      if VersionKey(c) == VersionKey(d) {
        VersionKeyInjective(c, d);
      }
    }
    forall c, v: nat ensures ListHolds(r', grown, c, v) {
      assert ListHolds(r, log, c, v);
      KeysApart(d, c, v);
    }
  }

  lemma StoreKeepsRedis(r: Redis, log: seq<Entry>, d: string, w: nat, u: seq<string>)
    requires CountersHold(r, log) && ListsHold(r, log) && Given(log, d, w, u)
    ensures CountersHold(Stored(r, d, w, u), log) && ListsHold(Stored(r, d, w, u), log)
  {
    var r' := Stored(r, d, w, u);
    forall c ensures CounterHolds(r', log, c) {
      assert CounterHolds(r, log, c);
      KeysApart(c, d, w);
    }
    forall c, v: nat ensures ListHolds(r', log, c, v) {
      assert ListHolds(r, log, c, v);
      if CacheKey(c, v) == CacheKey(d, w) {
        CacheKeyInjective(c, v, d, w);
      }
    }
  }

  lemma ExpireKeepsRedis(r: Redis, log: seq<Entry>, d: string, w: nat)
    requires CountersHold(r, log) && ListsHold(r, log)
    ensures CountersHold(r - {CacheKey(d, w)}, log) && ListsHold(r - {CacheKey(d, w)}, log)
  {
    var r' := r - {CacheKey(d, w)};
    forall c ensures CounterHolds(r', log, c) {
      assert CounterHolds(r, log, c);
      KeysApart(c, d, w);
    }
    forall c, v: nat ensures ListHolds(r', log, c, v) {
      assert ListHolds(r, log, c, v);
    }
  }

  lemma HitIsGiven(r: Redis, m: Memory, log: seq<Entry>, c: string, v: nat)
    requires ListsHold(r, log) && MemoryHolds(log, m)
    ensures GivenTo(log, c, v, RedisHit(r, c, v)) && GivenTo(log, c, v, MemoryHit(m, c, v))
  {
    assert ListHolds(r, log, c, v);
  }

  lemma ReadAdvances(s: State, e: Entry)
    requires Inv(s) && !e.Incremented_? && e.version == VersionIn(s.redis, e.conversation)
    ensures Inv(s.(log := s.log + [e]))
  {
    VersionIsCount(s.redis, s.log, e.conversation);
    ReadKeepsRedis(s.redis, s.log, e);
    LogGrows(s.log, e, s.memories, s.calls);
    ReadsGrow(s.log, e);
  }

  /** A call of a state that keeps the invariant may change to any that holds. */
  lemma CallMoves(s: State, id: nat, call: Call)
    requires Inv(s) && id < |s.calls| && CallHolds(s.log, call)
    ensures Inv(s.(calls := s.calls[id := call]))
  {
    hide CountersHold, ListsHold, MemoriesHold, ReadsHold, CallHolds;
  }

  lemma MemoryMoves(s: State, p: nat, m: Memory)
    requires Inv(s) && MemoryHolds(s.log, m)
    ensures Inv(s.(memories := s.memories[p := m]))
  {
    hide CountersHold, ListsHold, CallsHold, ReadsHold, MemoryHolds;
  }

  lemma IncrementAdvances(s: State, c: string)
    requires Inv(s)
    ensures Inv(s.(redis := Incremented(s.redis, c), log := s.log + [Incremented_(c)]))
  {
    hide CountersHold, ListsHold, CallsHold, ReadsHold, MemoriesHold, Incremented;
    IncrementKeepsRedis(s.redis, s.log, c);
    LogGrows(s.log, Incremented_(c), s.memories, s.calls);
    ReadsGrow(s.log, Incremented_(c));
  }

  lemma MemoryOfHolds(s: State, p: nat)
    requires Inv(s)
    ensures MemoryHolds(s.log, MemoryOf(s, p))
  {
  }

  lemma RememberedHolds(log: seq<Entry>, m: Memory, c: string, v: nat, u: seq<string>)
    requires MemoryHolds(log, m) && Given(log, c, v, u)
    ensures MemoryHolds(log, Remembered(m, c, v, u))
  {
    hide Given;
  }

  lemma ForgottenHolds(log: seq<Entry>, m: Memory, c: string)
    requires MemoryHolds(log, m)
    ensures MemoryHolds(log, m - {c})
  {
    hide Given;
  }

  lemma SetStarts(s: State, id: nat, p: nat, c: string, u: seq<string>)
    requires Inv(s) && id < |s.calls|
    ensures var v := VersionIn(s.redis, c);
            Inv(s.(log := s.log + [ReadBySet(c, v, u)], calls := s.calls[id := SetVersion(p, c, v, u)]))
  {
    hide Inv, VersionIn;
    var v := VersionIn(s.redis, c);
    ReadAdvances(s, ReadBySet(c, v, u));
    assert Given(s.log + [ReadBySet(c, v, u)], c, v, u);
    CallMoves(s.(log := s.log + [ReadBySet(c, v, u)]), id, SetVersion(p, c, v, u));
  }

  lemma GetStarts(s: State, id: nat, p: nat, c: string)
    requires Inv(s) && id < |s.calls|
    ensures var v := VersionIn(s.redis, c);
            Inv(s.(log := s.log + [ReadByGet(c, v)], calls := s.calls[id := GetVersion(p, c, v, |s.log|)]))
  {
    hide Inv, VersionIn;
    var v := VersionIn(s.redis, c);
    ReadAdvances(s, ReadByGet(c, v));
    CallMoves(s.(log := s.log + [ReadByGet(c, v)]), id, GetVersion(p, c, v, |s.log|));
  }

  /** A call that remembers a list it may remember goes on. */
  lemma Remembers(s: State, id: nat, p: nat, c: string, v: nat, u: seq<string>, call: Call)
    requires Inv(s) && id < |s.calls| && Given(s.log, c, v, u) && CallHolds(s.log, call)
    ensures Inv(s.(memories := s.memories[p := Remembered(MemoryOf(s, p), c, v, u)], calls := s.calls[id := call]))
  {
    hide Inv, Remembered, MemoryOf, CallHolds, Given;
    MemoryOfHolds(s, p);
    RememberedHolds(s.log, MemoryOf(s, p), c, v, u);
    MemoryMoves(s, p, Remembered(MemoryOf(s, p), c, v, u));
    CallMoves(s.(memories := s.memories[p := Remembered(MemoryOf(s, p), c, v, u)]), id, call);
  }

  lemma CallOf(s: State, id: nat)
    requires Inv(s) && id < |s.calls|
    ensures CallHolds(s.log, s.calls[id])
  {
  }

  lemma HitOf(s: State, p: nat, c: string, v: nat)
    requires Inv(s)
    ensures GivenTo(s.log, c, v, RedisHit(s.redis, c, v)) && GivenTo(s.log, c, v, MemoryHit(MemoryOf(s, p), c, v))
  {
    hide MemoryHit, RedisHit, Given, MemoryOf;
    MemoryOfHolds(s, p);
    HitIsGiven(s.redis, MemoryOf(s, p), s.log, c, v);
  }

  lemma StoreAdvances(s: State, c: string, v: nat, u: seq<string>)
    requires Inv(s) && Given(s.log, c, v, u)
    ensures Inv(s.(redis := Stored(s.redis, c, v, u)))
  {
    hide CountersHold, ListsHold, CallsHold, ReadsHold, MemoriesHold, Stored;
    StoreKeepsRedis(s.redis, s.log, c, v, u);
  }

  lemma AdvanceKeepsInv(s: State, id: nat)
    requires Inv(s) && id < |s.calls|
    ensures Inv(AdvanceStep(s, id))
  {
    hide Inv, Given, Stored, Incremented, VersionIn, RedisHit, MemoryHit, MemoryOf, Remembered;
    var call := s.calls[id];
    CallOf(s, id);
    match call
    case GetStart(p, c) => GetStarts(s, id, p, c);
    case SetStart(p, c, u) => SetStarts(s, id, p, c, u);
    case GetVersion(p, c, v, at) =>
      HitOf(s, p, c, v);
      var hit := MemoryHit(MemoryOf(s, p), c, v);
      CallMoves(s, id, if hit.Some? then GetDone(c, v, at, hit) else GetAsking(p, c, v, at));
    case GetAsking(p, c, v, at) =>
      HitOf(s, p, c, v);
      CallMoves(s, id, GetReply(p, c, v, at, RedisHit(s.redis, c, v)));
    case GetReply(p, c, v, at, reply) =>
      if reply.Some? {
        Remembers(s, id, p, c, v, reply.value, GetDone(c, v, at, reply));
      } else {
        CallMoves(s, id, GetDone(c, v, at, reply));
      }
    case SetVersion(p, c, v, u) =>
      StoreAdvances(s, c, v, u);
      CallMoves(s.(redis := Stored(s.redis, c, v, u)), id, SetWritten(p, c, v, u));
    case SetWritten(p, c, v, u) => Remembers(s, id, p, c, v, u, Finished);
    case InvalidateStart(p, c) =>
      IncrementAdvances(s, c);
      CallMoves(s.(redis := Incremented(s.redis, c), log := s.log + [Incremented_(c)]), id, InvalidateCounted(p, c));
    case InvalidateCounted(p, c) =>
      MemoryOfHolds(s, p);
      ForgottenHolds(s.log, MemoryOf(s, p), c);
      MemoryMoves(s, p, MemoryOf(s, p) - {c});
      CallMoves(s.(memories := s.memories[p := MemoryOf(s, p) - {c}]), id, Finished);
    case _ =>
  }

  lemma StepKeepsInv(s: State, ev: Event)
    requires Inv(s)
    ensures Inv(Step(s, ev))
  {
    hide AdvanceStep;
    match ev
    case Advance(id) =>
      if id < |s.calls| {
        AdvanceKeepsInv(s, id);
      }
    case Expire(c, v) => ExpireKeepsRedis(s.redis, s.log, c, v);
    case _ =>
  }

  lemma {:induction false} RunKeepsInv(evs: seq<Event>)
    ensures Inv(Run(evs))
  {
    hide Inv, Step;
    if evs == [] {
      InitInv();
    } else {
      RunKeepsInv(evs[..|evs| - 1]);
      StepKeepsInv(Run(evs[..|evs| - 1]), evs[|evs| - 1]);
    }
  }

  lemma InitInv()
    ensures Inv(State(map[], map[], [], []))
  {
  }

  // ----- the promise -----------------------------------------------------------------------------------------------

  lemma {:induction false} IncrementsGrow(log: seq<Entry>, i: nat, j: nat, c: string)
    requires i <= j <= |log|
    ensures Increments(log[..i], c) <= Increments(log[..j], c)
  {
    if i < j {
      IncrementsGrow(log, i, j - 1, c);
      assert log[..j] == log[..j - 1] + [log[j - 1]];
      IncrementsAppend(log[..j - 1], log[j - 1], c);
    }
  }

  /** An increment that lies between two reads of one version was the conversation's first. */
  lemma SameVersionBetween(log: seq<Entry>, i: nat, k: nat, j: nat, c: string)
    requires ReadsHold(log) && i < k < j < |log|
    requires !log[i].Incremented_? && !log[j].Incremented_? && log[k] == Incremented_(c)
    requires log[i].conversation == c == log[j].conversation && log[i].version == log[j].version
    ensures Increments(log[..k], c) == 0
  {
    assert log[..k + 1] == log[..k] + [log[k]];
    IncrementsAppend(log[..k], log[k], c);
    IncrementsGrow(log, i, k, c);
    IncrementsGrow(log, k + 1, j, c);
    hide Increments;
  }

  /** Neither read lies on the far side of an increment, other than the conversation's first. */
  ghost predicate NoLaterIncrementBetween(log: seq<Entry>, c: string, i: nat, j: nat)
    requires i <= |log| && j <= |log|
  {
    forall k :: 0 <= k < |log| && (i < k < j || j < k < i) && log[k] == Incremented_(c) ==> Increments(log[..k], c) == 0
  }

  /**
   Whatever processes interleave, crash or miss messages: a list that a `get` returns was given to a `set` that read the
   version this very `get` read, and no increment but the conversation's first lies between the two reads.
   */
  lemma EveryHitWasGiven(evs: seq<Event>, id: nat) returns (i: nat)
    requires id < |Run(evs).calls| && Run(evs).calls[id].GetDone? && Run(evs).calls[id].result.Some?
    ensures var log, call := Run(evs).log, Run(evs).calls[id];
            && i < |log| && call.at < |log|
            && log[call.at] == ReadByGet(call.conversation, call.version)
            && log[i] == ReadBySet(call.conversation, call.version, call.result.value)
            && NoLaterIncrementBetween(log, call.conversation, i, call.at)
  {
    hide Run, AdvanceStep, Step;
    RunKeepsInv(evs);
    var log, call := Run(evs).log, Run(evs).calls[id];
    assert CallHolds(log, call);
    i :| 0 <= i < |log| && log[i] == ReadBySet(call.conversation, call.version, call.result.value);
    var c := call.conversation;
    forall k | 0 <= k < |log| && (i < k < call.at || call.at < k < i) && log[k] == Incremented_(c)
      ensures Increments(log[..k], c) == 0
    {
      if i < k {
        SameVersionBetween(log, i, k, call.at, c);
      } else {
        SameVersionBetween(log, call.at, k, i, c);
      }
    }
  }

  // ----- the first invalidation, in any run ------------------------------------------------------------------------

  /** Every run leaves Redis as the lemma about the first invalidation takes it: no list lies above the counter. */
  lemma RunCountersLead(evs: seq<Event>, c: string)
    ensures CountersLead(Run(evs).redis, c)
  {
    hide Run, AdvanceStep, Step;
    RunKeepsInv(evs);
    var s := Run(evs);
    assert CounterHolds(s.redis, s.log, c);
    VersionIsCount(s.redis, s.log, c);
    forall v: nat | v > VersionIn(s.redis, c) ensures CacheKey(c, v) !in s.redis {
      if CacheKey(c, v) in s.redis {
        assert ListHolds(s.redis, s.log, c, v);
        var i :| 0 <= i < |s.log| && s.log[i] == ReadBySet(c, v, s.redis[CacheKey(c, v)].list);
        ReadBelowCount(s.log, i, c);
      }
    }
  }

  lemma ReadBelowCount(log: seq<Entry>, i: nat, c: string)
    requires ReadsHold(log) && i < |log| && !log[i].Incremented_? && log[i].conversation == c
    ensures log[i].version <= Max(1, Increments(log, c))
  {
    IncrementsGrow(log, i, |log|, c);
    assert log[..|log|] == log;
  }

  /**
   After any run: a process that sets, invalidates and gets with nothing in between misses exactly when the conversation
   had been invalidated before; the first time, the old list is served again.
   */
  lemma FirstInvalidateHidesNothing(evs: seq<Event>, pid: nat, c: string, userIds: seq<string>)
    ensures var r, m := Run(evs).redis, MemoryOf(Run(evs), pid);
            var r1 := Stored(r, c, VersionIn(r, c), userIds);
            var m1 := Remembered(m, c, VersionIn(r, c), userIds);
            var hit := GetAlone(Incremented(r1, c), m1 - {c}, c).0;
            && (hit.None? <==> Increments(Run(evs).log, c) > 0)
            && (hit.Some? ==> hit.value == userIds)
  {
    hide Run, AdvanceStep, Step, GetAlone, Stored, Incremented, Remembered;
    RunKeepsInv(evs);
    RunCountersLead(evs, c);
    assert CounterHolds(Run(evs).redis, Run(evs).log, c);
    InvalidateHidesIffCounterExisted(Run(evs).redis, MemoryOf(Run(evs), pid), c, userIds);
  }

  // ----- what a get finds ------------------------------------------------------------------------------------------

  lemma StoredKeepsVersion(r: Redis, c: string, v: nat, u: seq<string>)
    ensures VersionIn(Stored(r, c, v, u), c) == VersionIn(r, c)
    ensures VersionIn(r - {CacheKey(c, v)}, c) == VersionIn(r, c)
  {
    KeysApart(c, c, v);
  }

  /**
   A get hits exactly when the process holds a copy of the version it reads or Redis holds a list under that version's
   key.  The copy is served first; what Redis serves is copied, so that the next get needs no Redis list.
   */
  lemma HitIff(r: Redis, m: Memory, c: string)
    ensures var v, (hit, m') := VersionIn(r, c), GetAlone(r, m, c);
            && (hit.Some? <==> (c in m && m[c].version == v) || (CacheKey(c, v) in r && r[CacheKey(c, v)].Users?))
            && (c in m && m[c].version == v ==> hit.value == m[c].userIds)
            && (hit.Some? && (c in m ==> m[c].version != v) ==> hit.value == r[CacheKey(c, v)].list)
            && m' - {c} == m - {c} && (hit.None? ==> m' == m)
            && (hit.Some? ==> m'[c := Cached(v, hit.value)] == m' && GetAlone(r - {CacheKey(c, v)}, m', c).0 == hit)
  {
    if CacheKey(c, VersionIn(r, c)) in r {
      StoredKeepsVersion(r, c, VersionIn(r, c), []);
    }
  }

  /**
   What was set is what is got: by the process that set it, and by any other, unless that one holds a different copy of
   the very version the list was set for.
   */
  lemma SetThenGet(r: Redis, m: Memory, other: Memory, c: string, u: seq<string>)
    ensures var v := VersionIn(r, c);
            var r1 := Stored(r, c, v, u);
            && GetAlone(r1, Remembered(m, c, v, u), c).0 == Some(u)
            && (GetAlone(r1, other, c).0 == Some(u) <==>
                  (c in other && other[c].version == v ==> other[c].userIds == u))
  {
    StoredKeepsVersion(r, c, VersionIn(r, c), u);
  }

  /** The list that lies ready for a call's next piece: its process's copy of the version, then Redis's list. */
  function Ready(s: State, id: nat): Option<seq<string>> {
    if id >= |s.calls| then None
    else
      match s.calls[id]
      case GetVersion(p, c, v, _) =>
        if c in MemoryOf(s, p) && MemoryOf(s, p)[c].version == v then Some(MemoryOf(s, p)[c].userIds) else None
      case GetAsking(_, c, v, _) =>
        if CacheKey(c, v) in s.redis && s.redis[CacheKey(c, v)].Users? then Some(s.redis[CacheKey(c, v)].list) else None
      case _ => None
  }

  /** At some moment of the run this call took a piece and found this list ready. */
  ghost predicate Found(evs: seq<Event>, id: nat, u: seq<string>) {
    exists n :: 0 <= n < |evs| && evs[n] == Advance(id) && Ready(Run(evs[..n]), id) == Some(u)
  }

  lemma FoundStep(evs: seq<Event>, id: nat, u: seq<string>)
    requires evs != []
    ensures var n := |evs| - 1;
            Found(evs, id, u) <==>
            Found(evs[..n], id, u) || (evs[n] == Advance(id) && Ready(Run(evs[..n]), id) == Some(u))
  {
    hide Run, Ready;
    var n := |evs| - 1;
    forall k | 0 <= k < n ensures evs[..n][..k] == evs[..k] && evs[..n][k] == evs[k] {
    }
    if Found(evs, id, u) {
      var k :| 0 <= k < |evs| && evs[k] == Advance(id) && Ready(Run(evs[..k]), id) == Some(u);
      assert k < n ==> evs[..n][k] == Advance(id) && Ready(Run(evs[..n][..k]), id) == Some(u);
    }
    if Found(evs[..n], id, u) {
      var k :| 0 <= k < n && evs[..n][k] == Advance(id) && Ready(Run(evs[..n][..k]), id) == Some(u);
      assert evs[k] == Advance(id) && Ready(Run(evs[..k]), id) == Some(u);
    }
  }

  /** A call that is still looking has found nothing; one that has looked knows what it found. */
  ghost predicate KnowsWhatItFound(s: State, evs: seq<Event>, id: nat, u: seq<string>) {
    if id >= |s.calls| || s.calls[id].GetStart? || s.calls[id].GetVersion? || s.calls[id].GetAsking? then
      !Found(evs, id, u)
    else if s.calls[id].GetReply? then Found(evs, id, u) <==> s.calls[id].reply == Some(u)
    else s.calls[id].GetDone? ==> (Found(evs, id, u) <==> s.calls[id].result == Some(u))
  }

  lemma OnlyItsOwnSteps(s: State, ev: Event, id: nat)
    requires ev != Advance(id)
    ensures var calls := Step(s, ev).calls;
            if id >= |s.calls| then
              Ready(s, id) == None && (id < |calls| ==> !calls[id].GetVersion? && !calls[id].GetAsking? &&
                                                        !calls[id].GetReply? && !calls[id].GetDone?)
            else id < |calls| && (calls[id] == s.calls[id] || calls[id].Finished?)
  {
    hide MemoryOf, Stored, Incremented, Remembered, Invalidated, VersionIn, RedisHit, MemoryHit, CacheKey;
    if ev.Advance? && ev.id < |s.calls| {
      AdvanceTouchesOne(s, ev.id);
    }
  }

  lemma AdvanceTouchesOne(s: State, id: nat)
    requires id < |s.calls|
    ensures |AdvanceStep(s, id).calls| == |s.calls|
    ensures forall j :: 0 <= j < |s.calls| && j != id ==> AdvanceStep(s, id).calls[j] == s.calls[j]
  {
    hide MemoryOf, Stored, Incremented, Remembered, VersionIn, RedisHit, MemoryHit;
  }

  lemma OwnStepFinds(s: State, id: nat)
    requires id < |s.calls|
    ensures id < |Step(s, Advance(id)).calls|
    ensures var call, next := s.calls[id], Step(s, Advance(id)).calls[id];
            && (call.GetStart? ==> next.GetVersion?)
            && (call.GetVersion? ==> if Ready(s, id).Some? then next.GetDone? && next.result == Ready(s, id)
                                     else next.GetAsking?)
            && (call.GetAsking? ==> next.GetReply? && next.reply == Ready(s, id))
            && (call.GetReply? ==> next.GetDone? && next.result == call.reply)
            && (call.GetDone? ==> next == call)
            && (!call.GetVersion? && !call.GetAsking? ==> Ready(s, id).None?)
            && (next.GetReply? ==> call.GetAsking?)
            && (next.GetDone? ==> call.GetVersion? || call.GetReply? || call.GetDone?)
            && !next.GetStart? && (next.GetVersion? ==> call.GetStart?) && (next.GetAsking? ==> call.GetVersion?)
  {
  }

  lemma StepKeepsKnowing(s: State, evs: seq<Event>, id: nat, u: seq<string>)
    requires evs != [] && s == Run(evs[..|evs| - 1]) && KnowsWhatItFound(s, evs[..|evs| - 1], id, u)
    ensures KnowsWhatItFound(Step(s, evs[|evs| - 1]), evs, id, u)
  {
    hide Run, Step, Ready, Found;
    var ev := evs[|evs| - 1];
    FoundStep(evs, id, u);
    if ev != Advance(id) {
      OnlyItsOwnSteps(s, ev, id);
    } else if id < |s.calls| {
      OwnStepFinds(s, id);
    } else {
      NoSuchCall(s, id);
    }
  }

  lemma NoSuchCall(s: State, id: nat)
    requires id >= |s.calls|
    ensures Step(s, Advance(id)) == s && Ready(s, id) == None
  {
  }

  lemma {:induction false} CallsKnow(evs: seq<Event>, id: nat, u: seq<string>)
    ensures KnowsWhatItFound(Run(evs), evs, id, u)
  {
    hide Step, KnowsWhatItFound;
    if evs == [] {
      NothingFound(id, u);
    } else {
      CallsKnow(evs[..|evs| - 1], id, u);
      StepKeepsKnowing(Run(evs[..|evs| - 1]), evs, id, u);
    }
  }

  lemma NothingFound(id: nat, u: seq<string>)
    ensures KnowsWhatItFound(Run([]), [], id, u)
  {
  }

  /**
   In every run a get that has ended returned a list exactly when that list lay ready for it: in its process's memory,
   under the version it had read, when it looked there, or else in Redis, under that version's key, when Redis did.
   */
  lemma EveryGetHitsIff(evs: seq<Event>, id: nat, u: seq<string>)
    requires id < |Run(evs).calls| && Run(evs).calls[id].GetDone?
    ensures Run(evs).calls[id].result == Some(u) <==>
            exists n :: 0 <= n < |evs| && evs[n] == Advance(id) && Ready(Run(evs[..n]), id) == Some(u)
  {
    hide Run, Ready;
    CallsKnow(evs, id, u);
  }

  /** The list that was written last for a version of a conversation, unless it has expired since. */
  function LastWritten(evs: seq<Event>, c: string, v: nat): Option<seq<string>> {
    if evs == [] then None
    else
      var before, s := LastWritten(evs[..|evs| - 1], c, v), Run(evs[..|evs| - 1]);
      match evs[|evs| - 1]
      case Expire(d, w) => if d == c && w == v then None else before
      case Advance(id) =>
        if id < |s.calls| && s.calls[id].SetVersion? && s.calls[id].conversation == c && s.calls[id].version == v
        then Some(s.calls[id].userIds) else before
      case _ => before
  }

  lemma {:induction false} RedisHoldsLastWritten(evs: seq<Event>, c: string, v: nat)
    ensures var r, k := Run(evs).redis, CacheKey(c, v);
            if k in r && r[k].Users? then LastWritten(evs, c, v) == Some(r[k].list) else LastWritten(evs, c, v) == None
  {
    if evs != [] {
      var n := |evs| - 1;
      RedisHoldsLastWritten(evs[..n], c, v);
      var s := Run(evs[..n]);
      hide Run, CacheKey, VersionKey, VersionIn;
      match evs[n]
      case Expire(d, w) =>
        if CacheKey(d, w) == CacheKey(c, v) {
          CacheKeyInjective(d, w, c, v);
        }
      case Advance(id) =>
        if id < |s.calls| {
          var call := s.calls[id];
          if call.SetVersion? && CacheKey(call.conversation, call.version) == CacheKey(c, v) {
            CacheKeyInjective(call.conversation, call.version, c, v);
          } else if call.InvalidateStart? {
            KeysApart(call.conversation, c, v);
          }
        }
      case _ =>
    }
  }

  /** The copy that a process last took of a conversation, unless it was told to drop it or stopped since. */
  function LastCopy(evs: seq<Event>, pid: nat, c: string): Option<Cached> {
    if evs == [] then None
    else
      var before, s := LastCopy(evs[..|evs| - 1], pid, c), Run(evs[..|evs| - 1]);
      match evs[|evs| - 1]
      case Stop(p) => if p == pid then None else before
      case Message(p, d, newVersion) =>
        if p == pid && d == c && before.Some? && before.value.version < newVersion then None else before
      case Advance(id) =>
        if id >= |s.calls| then before
        else
          (match s.calls[id]
           case GetReply(p, d, v, _, Some(u)) => if p == pid && d == c then Some(Cached(v, u)) else before
           case SetWritten(p, d, v, u) => if p == pid && d == c then Some(Cached(v, u)) else before
           case InvalidateCounted(p, d) => if p == pid && d == c then None else before
           case _ => before)
      case _ => before
  }

  lemma {:induction false} MemoryHoldsLastCopy(evs: seq<Event>, pid: nat, c: string)
    ensures var m := MemoryOf(Run(evs), pid);
            LastCopy(evs, pid, c) == if c in m then Some(m[c]) else None
  {
    if evs != [] {
      hide CacheKey, VersionIn, RedisHit, MemoryHit, Stored, Incremented;
      var n := |evs| - 1;
      MemoryHoldsLastCopy(evs[..n], pid, c);
      var s := Run(evs[..n]);
      if evs[n].Advance? && evs[n].id < |s.calls| {
        AdvanceMemories(s, evs[n].id, pid);
      }
    }
  }

  lemma AdvanceMemories(s: State, id: nat, pid: nat)
    requires id < |s.calls|
    ensures MemoryOf(AdvanceStep(s, id), pid) ==
            match s.calls[id] {
              case GetReply(p, c, v, _, Some(u)) =>
                if p == pid then Remembered(MemoryOf(s, pid), c, v, u) else MemoryOf(s, pid)
              case SetWritten(p, c, v, u) =>
                if p == pid then Remembered(MemoryOf(s, pid), c, v, u) else MemoryOf(s, pid)
              case InvalidateCounted(p, c) => if p == pid then MemoryOf(s, pid) - {c} else MemoryOf(s, pid)
              case _ => MemoryOf(s, pid)
            }
  {
    hide Stored, Incremented, Remembered, VersionIn, RedisHit, MemoryHit;
  }

  // ----- a call that nothing interrupts ----------------------------------------------------------------------------

  /** The call takes its next n pieces, one after the other. */
  function Uninterrupted(s: State, id: nat, n: nat): State {
    if n == 0 then s else Step(Uninterrupted(s, id, n - 1), Advance(id))
  }

  /** Begun and run to its end with nothing in between. */
  function AtOnce(s: State, call: Call): State {
    Uninterrupted(Step(s, Begin(call)), |s.calls|, 4)
  }

  /** Four pieces that lead from the first state, with the call begun, to the last. */
  lemma FourPieces(s: State, call: Call, s1: State, s2: State, s3: State, s4: State)
    requires var id := |s.calls|;
             && s1 == Step(Step(s, Begin(call)), Advance(id)) && s2 == Step(s1, Advance(id))
             && s3 == Step(s2, Advance(id)) && s4 == Step(s3, Advance(id))
    ensures AtOnce(s, call) == s4
  {
    hide Step;
    var s0, id := Step(s, Begin(call)), |s.calls|;
    assert Uninterrupted(s0, id, 1) == s1;
    assert Uninterrupted(s0, id, 2) == s2;
    assert Uninterrupted(s0, id, 3) == s3;
  }

  lemma GetHitAtOnce(s: State, p: nat, c: string)
    requires MemoryHit(MemoryOf(s, p), c, VersionIn(s.redis, c)).Some?
    ensures var v := VersionIn(s.redis, c);
            AtOnce(s, GetStart(p, c)) ==
            State(s.redis, s.memories, s.calls + [GetDone(c, v, |s.log|, MemoryHit(MemoryOf(s, p), c, v))],
                  s.log + [ReadByGet(c, v)])
  {
    hide VersionIn, RedisHit, MemoryHit, Remembered, AtOnce, MemoryOf;
    var v := VersionIn(s.redis, c);
    var s1 := State(s.redis, s.memories, s.calls + [GetVersion(p, c, v, |s.log|)], s.log + [ReadByGet(c, v)]);
    var s2 := s1.(calls := s.calls + [GetDone(c, v, |s.log|, MemoryHit(MemoryOf(s, p), c, v))]);
    assert MemoryOf(s1, p) == MemoryOf(s, p) by {
      SameMemories(s, s1, p);
    }
    FourPieces(s, GetStart(p, c), s1, s2, s2, s2);
  }

  lemma SameMemories(s: State, t: State, p: nat)
    requires s.memories == t.memories
    ensures MemoryOf(s, p) == MemoryOf(t, p)
  {
  }

  lemma GetMissAtOnce(s: State, p: nat, c: string)
    requires MemoryHit(MemoryOf(s, p), c, VersionIn(s.redis, c)).None?
    ensures var v := VersionIn(s.redis, c);
            var reply := RedisHit(s.redis, c, v);
            AtOnce(s, GetStart(p, c)) ==
            State(s.redis, if reply.None? then s.memories
                           else s.memories[p := Remembered(MemoryOf(s, p), c, v, reply.value)],
                  s.calls + [GetDone(c, v, |s.log|, reply)], s.log + [ReadByGet(c, v)])
  {
    hide VersionIn, RedisHit, MemoryHit, Remembered, AtOnce, MemoryOf;
    var v := VersionIn(s.redis, c);
    var reply := RedisHit(s.redis, c, v);
    var s1 := State(s.redis, s.memories, s.calls + [GetVersion(p, c, v, |s.log|)], s.log + [ReadByGet(c, v)]);
    var s2 := s1.(calls := s.calls + [GetAsking(p, c, v, |s.log|)]);
    var s3 := s1.(calls := s.calls + [GetReply(p, c, v, |s.log|, reply)]);
    SameMemories(s, s1, p);
    SameMemories(s, s3, p);
    FourPieces(s, GetStart(p, c), s1, s2, s3, Step(s3, Advance(|s.calls|)));
  }

  /** Then a get does what `ParticipantCache.Get` does. */
  lemma GetAtOnce(s: State, p: nat, c: string)
    ensures var t, (hit, m) := AtOnce(s, GetStart(p, c)), GetAlone(s.redis, MemoryOf(s, p), c);
            && t.calls == s.calls + [GetDone(c, VersionIn(s.redis, c), |s.log|, hit)]
            && t.redis == s.redis && MemoryOf(t, p) == m
            && forall q :: q != p ==> MemoryOf(t, q) == MemoryOf(s, q)
  {
    hide VersionIn, RedisHit, MemoryHit, Remembered, AtOnce;
    if MemoryHit(MemoryOf(s, p), c, VersionIn(s.redis, c)).Some? {
      GetHitAtOnce(s, p, c);
    } else {
      GetMissAtOnce(s, p, c);
    }
  }

  /** And a set what `ParticipantCache.Set` does. */
  lemma SetAtOnce(s: State, p: nat, c: string, u: seq<string>)
    ensures var t, v := AtOnce(s, SetStart(p, c, u)), VersionIn(s.redis, c);
            && t.calls == s.calls + [Finished]
            && t.redis == Stored(s.redis, c, v, u) && MemoryOf(t, p) == Remembered(MemoryOf(s, p), c, v, u)
            && forall q :: q != p ==> MemoryOf(t, q) == MemoryOf(s, q)
  {
    hide VersionIn, Stored, Remembered, AtOnce;
    var v, log := VersionIn(s.redis, c), s.log + [ReadBySet(c, VersionIn(s.redis, c), u)];
    var s1 := State(s.redis, s.memories, s.calls + [SetVersion(p, c, v, u)], log);
    var s2 := State(Stored(s.redis, c, v, u), s.memories, s.calls + [SetWritten(p, c, v, u)], log);
    var s3 := s2.(memories := s.memories[p := Remembered(MemoryOf(s, p), c, v, u)], calls := s.calls + [Finished]);
    FourPieces(s, SetStart(p, c, u), s1, s2, s3, s3);
  }

  /** And an invalidate what `ParticipantCache.Invalidate` does. */
  lemma InvalidateAtOnce(s: State, p: nat, c: string)
    ensures var t := AtOnce(s, InvalidateStart(p, c));
            && t.calls == s.calls + [Finished]
            && t.redis == Incremented(s.redis, c) && MemoryOf(t, p) == MemoryOf(s, p) - {c}
            && forall q :: q != p ==> MemoryOf(t, q) == MemoryOf(s, q)
  {
    hide Incremented, AtOnce;
    var s1 := State(Incremented(s.redis, c), s.memories, s.calls + [InvalidateCounted(p, c)],
                    s.log + [Incremented_(c)]);
    var s2 := s1.(memories := s.memories[p := MemoryOf(s, p) - {c}], calls := s.calls + [Finished]);
    FourPieces(s, InvalidateStart(p, c), s1, s2, s2, s2);
  }
}
