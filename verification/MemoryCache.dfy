/**
 The in-process LRU cache of packages/storage/src/cache/memoryCache.ts: a key-value map and an array of keys, the least
 recently used first.  An expired entry leaves the map on `get` but stays in the array.
 */
module MemoryCache {
  import opened Common

  datatype Envelope = Envelope(value: string, storedAt: int)
  datatype Entry = Entry(envelope: Envelope, expiresAt: Option<int>)
  datatype Options = Options(maxItems: int, ttlSeconds: int)
  datatype State = State(store: map<string, Entry>, order: seq<string>)

  datatype Op =
    | Get(key: string, now: int)
    | Set(key: string, envelope: Envelope, ttlSeconds: Option<int>, now: int)
    | Delete(key: string)

  // ----- one call --------------------------------------------------------------------------------------------------

  function IndexOf(order: seq<string>, key: string): (i: int)
    ensures -1 <= i < |order|
    ensures i >= 0 ==> order[i] == key && key !in order[..i]
    ensures i < 0 ==> key !in order
  {
    if order == [] then -1
    else if order[0] == key then 0
    else
      var i := IndexOf(order[1..], key);
      assert order == [order[0]] + order[1..];
      if i < 0 then -1 else i + 1
  }

  function Spliced(order: seq<string>, key: string): seq<string> {
    var i := IndexOf(order, key);
    if i >= 0 then order[..i] + order[i + 1..] else order
  }

  function Bumped(order: seq<string>, key: string): seq<string> {
    Spliced(order, key) + [key]
  }

  predicate Expired(e: Entry, now: int) {
    e.expiresAt.Some? && e.expiresAt.value != 0 && e.expiresAt.value < now
  }

  function MakeEntry(c: Options, envelope: Envelope, ttlSeconds: Option<int>, now: int): Entry {
    var ttl := if ttlSeconds.Some? then ttlSeconds.value else c.ttlSeconds;
    Entry(envelope, if ttl > 0 then Some(now + ttl * 1000) else None)
  }

  function GetStep(s: State, key: string, now: int): (Option<Envelope>, State) {
    if key !in s.store then (None, s)
    else if Expired(s.store[key], now) then (None, s.(store := s.store - {key}))
    else (Some(s.store[key].envelope), s.(order := Bumped(s.order, key)))
  }

  /** Making room: drop the head of the array; the empty string is falsy and leaves the map alone. */
  function Evicted(c: Options, s: State, key: string): State {
    if |s.store| >= c.maxItems && key !in s.store && s.order != [] then
      State(if s.order[0] != "" then s.store - {s.order[0]} else s.store, s.order[1..])
    else s
  }

  function SetStep(c: Options, s: State, key: string, envelope: Envelope, ttl: Option<int>, now: int): State {
    var t := Evicted(c, s, key);
    State(t.store[key := MakeEntry(c, envelope, ttl, now)], Bumped(t.order, key))
  }

  function DeleteStep(s: State, key: string): State {
    State(s.store - {key}, Spliced(s.order, key))
  }

  class MemoryCache {
    const options: Options
    var store: map<string, Entry>
    var order: seq<string>

    function Value(): State
      reads this
    {
      State(store, order)
    }

    constructor (options: Options)
      ensures this.options == options && Value() == State(map[], [])
    {
      this.options := options;
      store, order := map[], [];
    }

    method Dispose()
      modifies this
      ensures Value() == State(map[], [])
    {
      store, order := map[], [];
    }

    method Get(key: string, now: int) returns (hit: Option<Envelope>)
      modifies this
      ensures (hit, Value()) == GetStep(old(Value()), key, now)
    {
      if key !in store {
        return None;
      }
      var entry := store[key];
      if entry.expiresAt.Some? && entry.expiresAt.value != 0 && entry.expiresAt.value < now {
        store := store - {key};
        return None;
      }
      Bump(key);
      return Some(entry.envelope);
    }

    method Set(key: string, envelope: Envelope, ttlSeconds: Option<int>, now: int)
      modifies this
      ensures Value() == SetStep(options, old(Value()), key, envelope, ttlSeconds, now)
    {
      if |store| >= options.maxItems && key !in store && order != [] {
        var oldest := order[0];
        order := order[1..];
        if oldest != "" {
          store := store - {oldest};
        }
      }
      store := store[key := MakeEntry(options, envelope, ttlSeconds, now)];
      Bump(key);
    }

    method Delete(key: string)
      modifies this
      ensures Value() == DeleteStep(old(Value()), key)
    {
      hide IndexOf;
      store := store - {key};
      var index := IndexOf(order, key);
      if index >= 0 {
        order := order[..index] + order[index + 1..];
      }
    }

    method Bump(key: string)
      modifies this`order
      ensures order == Bumped(old(order), key)
    {
      hide IndexOf;
      var index := IndexOf(order, key);
      if index >= 0 {
        order := order[..index] + order[index + 1..];
      }
      order := order + [key];
    }
  }

  // ----- runs ------------------------------------------------------------------------------------------------------

  function Step(c: Options, s: State, op: Op): State {
    match op
    case Get(k, now) => GetStep(s, k, now).1
    case Set(k, e, ttl, now) => SetStep(c, s, k, e, ttl, now)
    case Delete(k) => DeleteStep(s, k)
  }

  function Run(c: Options, ops: seq<Op>): State {
    if ops == [] then State(map[], []) else Step(c, Run(c, ops[..|ops| - 1]), ops[|ops| - 1])
  }

  predicate RemovesExpired(s: State, op: Op) {
    op.Get? && op.key in s.store && Expired(s.store[op.key], op.now)
  }

  /** How many gets of a run removed an expired entry. */
  function Expiries(c: Options, ops: seq<Op>): nat {
    if ops == [] then 0
    else
      var front := ops[..|ops| - 1];
      Expiries(c, front) + if RemovesExpired(Run(c, front), ops[|ops| - 1]) then 1 else 0
  }

  ghost predicate Distinct(order: seq<string>) {
    forall i, j :: 0 <= i < j < |order| ==> order[i] != order[j]
  }

  ghost predicate Covers(s: State) {
    Distinct(s.order) && forall k :: k in s.store ==> k in s.order
  }

  lemma SplicedFacts(order: seq<string>, key: string)
    requires Distinct(order)
    ensures Distinct(Spliced(order, key)) && key !in Spliced(order, key)
    ensures forall k :: k in Spliced(order, key) <==> k in order && k != key
    ensures |Spliced(order, key)| == |order| - if key in order then 1 else 0
  {
    var i := IndexOf(order, key);
    if i >= 0 {
      assert order == order[..i] + [key] + order[i + 1..];
    }
  }

  predicate Keyed(op: Op) {
    op.key != ""
  }

  ghost predicate Sound(s: State) {
    Covers(s) && "" !in s.order
  }

  lemma RemovedSizes(s: State)
    requires Sound(s) && s.order != []
    ensures var t := State(s.store - {s.order[0]}, s.order[1..]); Sound(t) && |s.store| - 1 <= |t.store| <= |s.store|
  {
    var head := s.order[0];
    assert s.order == [head] + s.order[1..];
    assert (s.store - {head}).Keys == s.store.Keys - {head};
  }

  /** Evicting a stored key frees a place in both; evicting a key the map has lost frees one in the array. */
  lemma EvictedSizes(c: Options, s: State, key: string)
    requires c.maxItems >= 1 && Sound(s)
    ensures var t := Evicted(c, s, key);
            && Sound(t) && (key !in s.store ==> key !in t.store) && (key in s.store ==> t == s)
            && (t == s || |t.order| == |s.order| - 1)
            && (t == s ==> key in s.store || |s.store| < c.maxItems)
            && (t != s ==> |s.store| >= c.maxItems && |s.store| - 1 <= |t.store| <= |s.store|)
  {
    if s.order == [] {
      assert s.store == map[];
    } else {
      assert s.order[0] in s.order;
      RemovedSizes(s);
      hide Sound, Covers, Distinct;
    }
  }

  lemma BumpedFacts(order: seq<string>, key: string)
    requires Distinct(order)
    ensures Distinct(Bumped(order, key))
    ensures forall k :: k in Bumped(order, key) <==> k in order || k == key
    ensures |Bumped(order, key)| == |order| + if key in order then 0 else 1
  {
    SplicedFacts(order, key);
    hide Spliced;
  }

  lemma PutSizes(t: State, key: string, e: Entry)
    requires Sound(t) && key != ""
    ensures var s' := State(t.store[key := e], Bumped(t.order, key));
            && Sound(s')
            && |s'.store| == |t.store| + (if key in t.store then 0 else 1)
            && |s'.order| == |t.order| + (if key in t.order then 0 else 1)
  {
    BumpedFacts(t.order, key);
    hide Bumped;
    assert t.store[key := e].Keys == t.store.Keys + {key};
  }

  lemma SetSizes(c: Options, s: State, op: Op)
    requires c.maxItems >= 1 && Keyed(op) && Sound(s) && op.Set?
    ensures var s' := Step(c, s, op);
            Sound(s') && Max(|s'.store|, c.maxItems) + |s'.order| - |s'.store| <=
                         Max(|s.store|, c.maxItems) + |s.order| - |s.store|
  {
    var t := Evicted(c, s, op.key);
    EvictedSizes(c, s, op.key);
    PutSizes(t, op.key, MakeEntry(c, op.envelope, op.ttlSeconds, op.now));
    assert op.key in t.store ==> op.key in t.order;
    hide Evicted, Bumped, Distinct;
  }

  lemma ShrunkSizes(s: State, key: string)
    requires Sound(s)
    ensures var t := s.(store := s.store - {key});
            Sound(t) && |t.store| == |s.store| - (if key in s.store then 1 else 0)
  {
    assert (s.store - {key}).Keys == s.store.Keys - {key};
  }

  lemma HitSizes(s: State, key: string)
    requires Sound(s) && key in s.store
    ensures Sound(s.(order := Bumped(s.order, key))) && |Bumped(s.order, key)| == |s.order|
  {
    hide Bumped;
    BumpedFacts(s.order, key);
  }

  /** An expired entry leaves the map alone; a hit moves its key to the end of the array. */
  lemma GetSizes(c: Options, s: State, op: Op)
    requires Sound(s) && op.Get?
    ensures var s' := Step(c, s, op);
            && Sound(s') && |s'.order| == |s.order|
            && |s'.store| == |s.store| - (if RemovesExpired(s, op) then 1 else 0)
  {
    hide Sound, Bumped, Expired;
    ShrunkSizes(s, op.key);
    if op.key in s.store {
      HitSizes(s, op.key);
    }
  }

  lemma DeleteSizes(c: Options, s: State, op: Op)
    requires Sound(s) && op.Delete?
    ensures var s' := Step(c, s, op);
            && Sound(s')
            && |s'.order| == |s.order| - (if op.key in s.order then 1 else 0)
            && |s'.store| == |s.store| - (if op.key in s.store then 1 else 0)
  {
    SplicedFacts(s.order, op.key);
    hide Spliced;
    assert (s.store - {op.key}).Keys == s.store.Keys - {op.key};
  }

  /** The size bound of one step, where a step that removes an expired entry may pay one. */
  lemma StepKeepsSizes(c: Options, s: State, op: Op)
    requires c.maxItems >= 1 && Keyed(op) && Sound(s)
    ensures var s' := Step(c, s, op);
            Sound(s') && Max(|s'.store|, c.maxItems) + |s'.order| - |s'.store| <=
                         Max(|s.store|, c.maxItems) + |s.order| - |s.store| + if RemovesExpired(s, op) then 1 else 0
  {
    assert op.key in s.store ==> op.key in s.order;
    hide Step, Sound, Covers, Distinct;
    match op
    case Set(_, _, _, _) => SetSizes(c, s, op);
    case Get(_, _) => GetSizes(c, s, op);
    case Delete(_) => DeleteSizes(c, s, op);
  }

  lemma {:induction false} RunKeepsSizes(c: Options, ops: seq<Op>)
    requires c.maxItems >= 1 && forall i :: 0 <= i < |ops| ==> Keyed(ops[i])
    ensures var s := Run(c, ops);
            && Sound(s)
            && Max(|s.store|, c.maxItems) + |s.order| - |s.store| <= c.maxItems + Expiries(c, ops)
  {
    if ops != [] {
      RunKeepsSizes(c, ops[..|ops| - 1]);
      StepKeepsSizes(c, Run(c, ops[..|ops| - 1]), ops[|ops| - 1]);
    }
  }

  lemma {:induction false} DistinctCount(order: seq<string>)
    requires Distinct(order)
    ensures |set k | k in order| == |order|
  {
    if order != [] {
      var front, last := order[..|order| - 1], order[|order| - 1];
      DistinctCount(front);
      assert order == front + [last];
      assert (set k | k in order) == (set k | k in front) + {last};
    }
  }

  /** Keys the array still holds although the map has lost them. */
  function Ghosts(s: State): set<string> {
    set k | k in s.order && k !in s.store
  }

  /** The amortised bound: each expired entry ever removed may cost one place, and nothing else does. */
  lemma {:induction false} SizeBound(c: Options, ops: seq<Op>)
    requires c.maxItems >= 1 && forall i :: 0 <= i < |ops| ==> Keyed(ops[i])
    ensures var s := Run(c, ops);
            && Max(|s.store|, c.maxItems) + |Ghosts(s)| <= c.maxItems + Expiries(c, ops)
            && (Expiries(c, ops) == 0 ==> |s.store| <= c.maxItems && Ghosts(s) == {})
  {
    var s := Run(c, ops);
    RunKeepsSizes(c, ops);
    DistinctCount(s.order);
    var keys := set k | k in s.order;
    assert s.store.Keys <= keys && Ghosts(s) == keys - s.store.Keys;
  }

  // ----- what a hit returns ----------------------------------------------------------------------------------------

  /** The entry of the latest set of a key that no delete followed, whatever the cache evicted in between. */
  function Latest(c: Options, ops: seq<Op>, key: string): Option<Entry> {
    if ops == [] then None
    else
      match ops[|ops| - 1]
      case Set(k, e, ttl, now) => if k == key then Some(MakeEntry(c, e, ttl, now)) else Latest(c, ops[..|ops| - 1], key)
      case Delete(k) => if k == key then None else Latest(c, ops[..|ops| - 1], key)
      case Get(_, _) => Latest(c, ops[..|ops| - 1], key)
  }

  lemma {:induction false} StoreIsLatest(c: Options, ops: seq<Op>, key: string)
    ensures var s := Run(c, ops); key in s.store ==> Latest(c, ops, key) == Some(s.store[key])
  {
    if ops != [] {
      StoreIsLatest(c, ops[..|ops| - 1], key);
    }
  }

  /** A hit is the key's latest set, neither deleted since nor past its expiry. */
  lemma {:induction false} HitIsLatestSet(c: Options, ops: seq<Op>, key: string, now: int)
    ensures var hit := GetStep(Run(c, ops), key, now).0;
            hit.Some? ==> Latest(c, ops, key).Some? && Latest(c, ops, key).value.envelope == hit.value &&
                          !Expired(Latest(c, ops, key).value, now)
  {
    StoreIsLatest(c, ops, key);
  }

  /** A set still counts at `now`: its own time to live, or else the cache's, in seconds, is not over or is none. */
  predicate Alive(c: Options, op: Op, now: int) {
    op.Set? &&
    var ttl := if op.ttlSeconds.Some? then op.ttlSeconds.value else c.ttlSeconds;
    ttl <= 0 || op.now + 1000 * ttl == 0 || now <= op.now + 1000 * ttl
  }

  /** A set of another key makes room by dropping this one. */
  predicate MakesWay(c: Options, s: State, op: Op, key: string) {
    op.Set? && op.key != key && op.key !in s.store && |s.store| >= c.maxItems && s.order != [] && s.order[0] == key &&
    key != ""
  }

  /** The latest set of a key that was neither deleted, nor dropped to make room, nor found to be over. */
  function Standing(c: Options, ops: seq<Op>, key: string): Option<Op> {
    if ops == [] then None
    else
      var before, s, last := Standing(c, ops[..|ops| - 1], key), Run(c, ops[..|ops| - 1]), ops[|ops| - 1];
      if last.Set? && last.key == key then Some(last)
      else if last.Delete? && last.key == key then None
      else if last.Get? && last.key == key && before.Some? && !Alive(c, before.value, last.now) then None
      else if MakesWay(c, s, last, key) then None
      else before
  }

  lemma {:induction false} StoreIsStanding(c: Options, ops: seq<Op>, key: string)
    ensures var s, standing := Run(c, ops), Standing(c, ops, key);
            && (key in s.store <==> standing.Some?)
            && (standing.Some? ==>
                  && standing.value.Set?
                  && s.store[key] ==
                     MakeEntry(c, standing.value.envelope, standing.value.ttlSeconds, standing.value.now))
  {
    if ops != [] {
      var before, last := Standing(c, ops[..|ops| - 1], key), ops[|ops| - 1];
      hide Step, MakeEntry, MakesWay, Alive, Expired;
      StoreIsStanding(c, ops[..|ops| - 1], key);
      StepKeepsEntry(c, Run(c, ops[..|ops| - 1]), last, key);
      if before.Some? && last.Get? {
        AliveUntilExpired(c, before.value, last.now);
      }
    }
  }

  lemma AliveUntilExpired(c: Options, op: Op, now: int)
    requires op.Set?
    ensures Alive(c, op, now) <==> !Expired(MakeEntry(c, op.envelope, op.ttlSeconds, op.now), now)
  {
  }

  lemma StepKeepsEntry(c: Options, s: State, op: Op, key: string)
    ensures var t := Step(c, s, op);
            && (key in t.store <==>
                  || (op.Set? && op.key == key)
                  || (key in s.store && !MakesWay(c, s, op, key) && !(op.Delete? && op.key == key) &&
                      !(op.Get? && op.key == key && Expired(s.store[key], op.now))))
            && (key in t.store ==>
                  t.store[key] == if op.Set? && op.key == key then MakeEntry(c, op.envelope, op.ttlSeconds, op.now)
                                  else s.store[key])
  {
    hide Bumped, Spliced, MakeEntry, Expired;
  }

  /** After any run, a get answers with what still stands for its key, unless that is over, and misses otherwise. */
  lemma HitsIffStanding(c: Options, ops: seq<Op>, key: string, now: int)
    ensures var standing := Standing(c, ops, key);
            GetStep(Run(c, ops), key, now).0 ==
            if standing.Some? && Alive(c, standing.value, now) then Some(standing.value.envelope) else None
  {
    StoreIsStanding(c, ops, key);
  }

  // ----- what an eviction takes ------------------------------------------------------------------------------------

  /** An operation uses a key when it sets it, or gets it and hits. */
  predicate Uses(s: State, op: Op, key: string) {
    op.key == key && (op.Set? || (op.Get? && GetStep(s, key, op.now).0.Some?))
  }

  function LastUse(c: Options, ops: seq<Op>, key: string): int {
    if ops == [] then -1
    else if Uses(Run(c, ops[..|ops| - 1]), ops[|ops| - 1], key) then |ops| - 1
    else LastUse(c, ops[..|ops| - 1], key)
  }

  lemma {:induction false} LastUseBelow(c: Options, ops: seq<Op>, key: string)
    ensures LastUse(c, ops, key) < |ops|
  {
    if ops != [] {
      LastUseBelow(c, ops[..|ops| - 1], key);
    }
  }

  ghost predicate ByLastUse(c: Options, ops: seq<Op>, order: seq<string>) {
    forall i, j :: 0 <= i < j < |order| ==> LastUse(c, ops, order[i]) < LastUse(c, ops, order[j])
  }

  lemma SplicedAt(order: seq<string>, key: string, j: nat)
    requires j < |Spliced(order, key)|
    ensures var i := IndexOf(order, key);
            var k := if i < 0 || j < i then j else j + 1;
            k < |order| && Spliced(order, key)[j] == order[k]
  {
    hide IndexOf;
  }

  lemma LastUseOfOther(c: Options, ops: seq<Op>, op: Op, key: string)
    requires key != op.key
    ensures LastUse(c, ops + [op], key) == LastUse(c, ops, key)
  {
    assert (ops + [op])[..|ops|] == ops;
    hide Run;
  }

  lemma SpliceKeepsOrder(c: Options, ops: seq<Op>, op: Op, order: seq<string>)
    requires Distinct(order) && ByLastUse(c, ops, order)
    ensures ByLastUse(c, ops + [op], Spliced(order, op.key))
  {
    hide LastUse, Spliced, IndexOf, Distinct;
    var spliced := Spliced(order, op.key);
    SplicedFacts(order, op.key);
    forall i, j | 0 <= i < j < |spliced|
      ensures LastUse(c, ops + [op], spliced[i]) < LastUse(c, ops + [op], spliced[j])
    {
      assert spliced[i] in spliced && spliced[j] in spliced;
      LastUseOfOther(c, ops, op, spliced[i]);
      LastUseOfOther(c, ops, op, spliced[j]);
      SplicedAt(order, op.key, i);
      SplicedAt(order, op.key, j);
    }
  }

  /** Splicing and appending keep the array sorted when the appended key is the one just used. */
  lemma BumpKeepsOrder(c: Options, ops: seq<Op>, op: Op, order: seq<string>)
    requires Distinct(order) && ByLastUse(c, ops, order) && Uses(Run(c, ops), op, op.key)
    ensures ByLastUse(c, ops + [op], Bumped(order, op.key))
  {
    var spliced := Spliced(order, op.key);
    SplicedFacts(order, op.key);
    SpliceKeepsOrder(c, ops, op, order);
    hide Spliced, Step;
    assert (ops + [op])[..|ops|] == ops;
    forall i | 0 <= i < |spliced| ensures LastUse(c, ops + [op], spliced[i]) < |ops| {
      LastUseBelow(c, ops, spliced[i]);
    }
  }

  lemma UnusedKeepsOrder(c: Options, ops: seq<Op>, op: Op, order: seq<string>)
    requires ByLastUse(c, ops, order) && forall k :: k in order ==> !Uses(Run(c, ops), op, k)
    ensures ByLastUse(c, ops + [op], order)
  {
    assert (ops + [op])[..|ops|] == ops;
  }

  lemma EvictedKeepsOrder(c: Options, ops: seq<Op>, s: State, key: string)
    requires Sound(s) && ByLastUse(c, ops, s.order)
    ensures Distinct(Evicted(c, s, key).order) && ByLastUse(c, ops, Evicted(c, s, key).order)
  {
  }

  lemma StepSortsByLastUse(c: Options, ops: seq<Op>, op: Op)
    requires Sound(Run(c, ops)) && ByLastUse(c, ops, Run(c, ops).order)
    ensures ByLastUse(c, ops + [op], Step(c, Run(c, ops), op).order)
  {
    var s := Run(c, ops);
    assert Distinct(s.order);
    hide ByLastUse, Evicted, Bumped, Spliced, Distinct, LastUse, Run;
    match op {
      case Get(k, now) =>
        if GetStep(s, k, now).0.Some? {
          BumpKeepsOrder(c, ops, op, s.order);
        } else {
          UnusedKeepsOrder(c, ops, op, s.order);
        }
      case Set(k, _, _, _) =>
        EvictedKeepsOrder(c, ops, s, k);
        BumpKeepsOrder(c, ops, op, Evicted(c, s, k).order);
      case Delete(k) =>
        SpliceKeepsOrder(c, ops, op, s.order);
    }
  }

  lemma RunLast(c: Options, ops: seq<Op>)
    requires ops != []
    ensures Run(c, ops) == Step(c, Run(c, ops[..|ops| - 1]), ops[|ops| - 1])
  {
  }

  lemma RunIsSound(c: Options, ops: seq<Op>)
    requires c.maxItems >= 1 && forall i :: 0 <= i < |ops| ==> Keyed(ops[i])
    ensures Sound(Run(c, ops))
  {
    RunKeepsSizes(c, ops);
  }

  /** In every run the array is sorted by last use. */
  lemma {:induction false} RunSortsByLastUse(c: Options, ops: seq<Op>)
    requires c.maxItems >= 1 && forall i :: 0 <= i < |ops| ==> Keyed(ops[i])
    ensures ByLastUse(c, ops, Run(c, ops).order)
  {
    if ops != [] {
      hide ByLastUse, Step, Sound, Run, Keyed;
      var front, op := ops[..|ops| - 1], ops[|ops| - 1];
      RunSortsByLastUse(c, front);
      RunIsSound(c, front);
      StepSortsByLastUse(c, front, op);
      RunLast(c, ops);
      assert ops == front + [op];
    }
  }

  lemma HeadIsOldest(c: Options, ops: seq<Op>, s: State, k: string)
    requires Covers(s) && ByLastUse(c, ops, s.order) && k in s.store && s.order != [] && k != s.order[0]
    ensures LastUse(c, ops, s.order[0]) < LastUse(c, ops, k)
  {
    var j :| 0 <= j < |s.order| && s.order[j] == k;
  }

  ghost predicate LeastRecentlyUsed(c: Options, ops: seq<Op>, store: map<string, Entry>, victim: string) {
    victim in store && forall k :: k in store && k != victim ==> LastUse(c, ops, victim) < LastUse(c, ops, k)
  }

  /** A set that replaces the stored key used longest ago by its own. */
  ghost predicate Displaces(c: Options, ops: seq<Op>, op: Op, victim: string)
    requires op.Set?
  {
    var s := Run(c, ops);
    && LeastRecentlyUsed(c, ops, s.store, victim)
    && Step(c, s, op).store == (s.store - {victim})[op.key := MakeEntry(c, op.envelope, op.ttlSeconds, op.now)]
  }

  /**
   In every run: a set of a new key at capacity takes out exactly the stored key used longest ago, if and only if the
   map still holds the head of the order array; otherwise it takes out nothing, and so does any other set.
   */
  lemma {:induction false} EvictsLeastRecentlyUsedIff(c: Options, ops: seq<Op>, op: Op)
    requires c.maxItems >= 1 && op.Set? && Keyed(op) && (forall i :: 0 <= i < |ops| ==> Keyed(ops[i]))
    ensures var s := Run(c, ops);
            var grown := s.store[op.key := MakeEntry(c, op.envelope, op.ttlSeconds, op.now)];
            if op.key in s.store || |s.store| < c.maxItems then Step(c, s, op).store == grown
            else
              && s.order != []
              && ((exists victim :: Displaces(c, ops, op, victim)) <==> s.order[0] in s.store)
              && (s.order[0] !in s.store ==> Step(c, s, op).store == grown)
  {
    hide ByLastUse, LastUse, Run, Spliced, Bumped, Sound, Covers;
    var s := Run(c, ops);
    RunIsSound(c, ops);
    if op.key !in s.store && |s.store| >= c.maxItems {
      RunSortsByLastUse(c, ops);
      FullHasHead(c, s);
      HeadGoes(c, s, op);
      var head := s.order[0];
      if head in s.store {
        forall k | k in s.store && k != head ensures LastUse(c, ops, head) < LastUse(c, ops, k) {
          SoundCovers(s);
          HeadIsOldest(c, ops, s, k);
        }
        assert Displaces(c, ops, op, head);
      } else {
        forall victim ensures !Displaces(c, ops, op, victim) {
          assert victim in s.store ==> victim in Step(c, s, op).store;
        }
      }
    }
  }

  lemma SoundCovers(s: State)
    requires Sound(s)
    ensures Covers(s)
  {
  }

  lemma FullHasHead(c: Options, s: State)
    requires c.maxItems >= 1 && Sound(s) && |s.store| >= c.maxItems
    ensures s.order != [] && s.order[0] != ""
  {
    assert s.order == [] ==> s.store == map[];
    assert s.order != [] ==> s.order[0] in s.order;
  }

  lemma HeadGoes(c: Options, s: State, op: Op)
    requires op.Set? && op.key !in s.store && |s.store| >= c.maxItems && s.order != [] && s.order[0] != ""
    ensures Step(c, s, op).store == (s.store - {s.order[0]})[op.key := MakeEntry(c, op.envelope, op.ttlSeconds, op.now)]
    ensures s.order[0] !in s.store ==> s.store - {s.order[0]} == s.store
  {
    hide Bumped;
  }

  /** With nothing removed by expiry the head is always stored, and the cache is an LRU cache of maxItems entries. */
  lemma {:induction false} EvictsLeastRecentlyUsed(c: Options, ops: seq<Op>, op: Op)
    requires c.maxItems >= 1 && op.Set? && Keyed(op) && (forall i :: 0 <= i < |ops| ==> Keyed(ops[i]))
    requires Expiries(c, ops) == 0 && op.key !in Run(c, ops).store && |Run(c, ops).store| >= c.maxItems
    ensures exists victim :: Displaces(c, ops, op, victim)
  {
    hide Run, Step, Expiries, Displaces, Sound;
    var s := Run(c, ops);
    SizeBound(c, ops);
    RunIsSound(c, ops);
    FullHasHead(c, s);
    assert s.order[0] in s.order && s.order[0] !in Ghosts(s);
    EvictsLeastRecentlyUsedIff(c, ops, op);
  }

  lemma RunOfFour(c: Options, a: Op, b: Op, d: Op, e: Op)
    ensures Run(c, [a, b, d, e]) == Step(c, Step(c, Step(c, Step(c, State(map[], []), a), b), d), e)
  {
    hide Step;
    assert [a, b, d, e][..3] == [a, b, d] && [a, b, d][..2] == [a, b] && [a, b][..1] == [a] && [a][..0] == [];
    assert Run(c, [a]) == Step(c, State(map[], []), a);
    assert Run(c, [a, b]) == Step(c, Run(c, [a]), b);
    assert Run(c, [a, b, d]) == Step(c, Run(c, [a, b]), d);
  }

  lemma NewKeyGoesLast(order: seq<string>, key: string)
    requires key !in order
    ensures Bumped(order, key) == order + [key]
  {
  }

  /** A set of a new key with room to spare. */
  lemma SetWithRoom(c: Options, s: State, key: string, e: Envelope, ttl: int, now: int)
    requires |s.store| < c.maxItems && key !in s.order
    ensures Step(c, s, Set(key, e, Some(ttl), now))
         == State(s.store[key := Entry(e, if ttl > 0 then Some(now + ttl * 1000) else None)], s.order + [key])
  {
    NewKeyGoesLast(s.order, key);
    hide Bumped;
  }

  // ----- when the plain bound holds --------------------------------------------------------------------------------

  /** A set of a new key at capacity that drops a key the map has already lost, and so makes no room. */
  predicate Overfills(c: Options, s: State, op: Op) {
    op.Set? && |s.store| == c.maxItems && op.key !in s.store && s.order != [] && s.order[0] !in s.store
  }

  /** From a cache within its limit, one operation leads out of it exactly when it is such a set. */
  lemma {:induction false} OneStepOverfillsIff(c: Options, s: State, op: Op)
    requires c.maxItems >= 1 && Keyed(op) && Sound(s) && |s.store| <= c.maxItems
    ensures |Step(c, s, op).store| > c.maxItems <==> Overfills(c, s, op)
  {
    if op.Set? {
      SetGrows(c, s, op);
    } else if op.Get? {
      GetSizes(c, s, op);
    } else {
      DeleteSizes(c, s, op);
    }
  }

  lemma EvictionAtCapacity(c: Options, s: State, key: string)
    requires c.maxItems >= 1 && Sound(s) && |s.store| == c.maxItems && key !in s.store
    ensures s.order != [] && |Evicted(c, s, key).store| == |s.store| - (if s.order[0] in s.store then 1 else 0)
  {
    assert s.order == [] ==> s.store == map[];
    var head := s.order[0];
    assert head in s.order;
    hide Sound, Covers, Distinct;
    assert (s.store - {head}).Keys == s.store.Keys - {head};
  }

  lemma SetGrows(c: Options, s: State, op: Op)
    requires c.maxItems >= 1 && Keyed(op) && Sound(s) && op.Set? && |s.store| <= c.maxItems
    ensures |Step(c, s, op).store| > c.maxItems <==> Overfills(c, s, op)
  {
    EvictedSizes(c, s, op.key);
    if op.key !in s.store && |s.store| == c.maxItems {
      EvictionAtCapacity(c, s, op.key);
    }
    hide Evicted, Sound, Bumped;
    PutSizes(Evicted(c, s, op.key), op.key, MakeEntry(c, op.envelope, op.ttlSeconds, op.now));
  }

  /** A run stays within maxItems all the way exactly when no set of it makes no room. */
  lemma {:induction false} RunFitsIff(c: Options, ops: seq<Op>)
    requires c.maxItems >= 1 && forall i :: 0 <= i < |ops| ==> Keyed(ops[i])
    ensures (forall n :: 0 <= n <= |ops| ==> |Run(c, ops[..n]).store| <= c.maxItems) <==>
            (forall n :: 0 <= n < |ops| ==> !Overfills(c, Run(c, ops[..n]), ops[n]))
  {
    hide Run, Overfills, Step, Keyed;
    if ops == [] {
      EmptyRun(c);
      assert ops[..0] == [];
    } else {
      var front, last := ops[..|ops| - 1], ops[|ops| - 1];
      RunFitsIff(c, front);
      RunIsSound(c, front);
      RunLast(c, ops);
      assert forall n :: 0 <= n <= |front| ==> front[..n] == ops[..n];
      assert ops[..|ops|] == ops && ops[..|front|] == front;
      if |Run(c, front).store| <= c.maxItems {
        OneStepOverfillsIff(c, Run(c, front), last);
      }
    }
  }

  lemma EmptyRun(c: Options)
    ensures Run(c, []) == State(map[], [])
  {
  }

  /** The plain bound fails once entries expire: one expiry leaves room for two entries in a cache of one. */
  lemma OverflowsAfterExpiry(e: Envelope)
    ensures var ops := [Set("a", e, Some(1), 0), Get("a", 2000), Set("b", e, Some(0), 2000),
                        Set("c", e, Some(0), 2000)];
            Run(Options(1, 60), ops).store.Keys == {"b", "c"}
  {
    hide Run, Step;
    var c := Options(1, 60);
    RunOfFour(c, Set("a", e, Some(1), 0), Get("a", 2000), Set("b", e, Some(0), 2000), Set("c", e, Some(0), 2000));
    var s1 := State(map["a" := Entry(e, Some(1000))], ["a"]);
    var s3 := State(map["b" := Entry(e, None)], ["a", "b"]);
    SetWithRoom(c, State(map[], []), "a", e, 1, 0);
    assert Step(c, State(map[], []), Set("a", e, Some(1), 0)) == s1;
    ExpiredGet(c, e);
    assert "a" != "b" by {
      assert "a"[0] != "b"[0];
    }
    SetWithRoom(c, State(map[], ["a"]), "b", e, 0, 2000);
    assert Step(c, State(map[], ["a"]), Set("b", e, Some(0), 2000)) == s3;
    EvictionOfGhost(c, e);
  }

  lemma ExpiredGet(c: Options, e: Envelope)
    ensures Step(c, State(map["a" := Entry(e, Some(1000))], ["a"]), Get("a", 2000)) == State(map[], ["a"])
  {
    hide Bumped;
    assert map["a" := Entry(e, Some(1000))] - {"a"} == map[];
  }

  lemma EvictionOfGhost(c: Options, e: Envelope)
    requires c.maxItems == 1
    ensures Step(c, State(map["b" := Entry(e, None)], ["a", "b"]), Set("c", e, Some(0), 2000)).store.Keys == {"b", "c"}
  {
    hide Bumped;
    var s := State(map["b" := Entry(e, None)], ["a", "b"]);
    assert "a" != "b" && "c" != "b";
    assert s.store - {"a"} == s.store;
    assert ["a", "b"][1..] == ["b"];
  }
}
