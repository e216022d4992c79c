/**
 The read-through cache of packages/storage/src/client.ts, over a cache manager that stamps what it stores
 (packages/storage/src/cache/cacheManager.ts).  The provider is a map that may lose a key at any time.
 */
module StorageClient {
  import opened Common

  datatype Kind = Blob | Record
  datatype Ref = Ref(kind: Kind, namespace: string, id: string)
  datatype Envelope = Envelope(value: string, storedAt: int)
  datatype Mode = Strong | Eventual | CacheOnly

  // ----- cache keys ------------------------------------------------------------------------------------------------

  function CacheKey(ref: Ref): string {
    (if ref.kind.Blob? then "blob:" else "record:") + Join(ref.namespace, ref.id)
  }

  lemma KeyParts(r: Ref, q: Ref)
    requires CacheKey(r) == CacheKey(q)
    ensures r.kind == q.kind && Join(r.namespace, r.id) == Join(q.namespace, q.id)
  {
    var s := CacheKey(r);
    assert s[0] == if r.kind.Blob? then 'b' else 'r';
    assert s[0] == if q.kind.Blob? then 'b' else 'r';
    var k := if r.kind.Blob? then 5 else 7;
    assert s[k..] == Join(r.namespace, r.id);
    assert s[k..] == Join(q.namespace, q.id);
  }

  /** Two objects share a key only if their namespaces clash; a blob and a record never do. */
  lemma CacheKeyInjective(r: Ref, q: Ref)
    requires r.kind == q.kind ==> !Clash(r.namespace, q.namespace)
    requires CacheKey(r) == CacheKey(q)
    ensures r == q
  {
    KeyParts(r, q);
    JoinInjective(r.namespace, r.id, q.namespace, q.id);
  }

  /** Two namespaces have objects that share a key exactly when one of them, with a colon, begins the other. */
  lemma KeysSharedIff(kind: Kind, n: string, m: string)
    requires n != m
    ensures (exists i, j :: CacheKey(Ref(kind, n, i)) == CacheKey(Ref(kind, m, j))) <==> Clash(n, m)
  {
    JoinSharedIff(n, m, 0);
    forall i, j ensures CacheKey(Ref(kind, n, i)) == CacheKey(Ref(kind, m, j)) <==> Join(n, i) == Join(m, j) {
      if CacheKey(Ref(kind, n, i)) == CacheKey(Ref(kind, m, j)) {
        KeyParts(Ref(kind, n, i), Ref(kind, m, j));
      }
    }
  }

  /** The namespaces in use. */
  datatype Spaces = Spaces(blobs: set<string>, records: set<string>)

  predicate Within(ref: Ref, spaces: Spaces) {
    ref.namespace in if ref.kind.Blob? then spaces.blobs else spaces.records
  }

  /** No name followed by a colon begins another. */
  ghost predicate Separate(names: set<string>) {
    forall n, m :: n in names && m in names ==> !Clash(n, m)
  }

  lemma SeparateKeys(spaces: Spaces, r: Ref, q: Ref)
    requires Within(r, spaces) && Within(q, spaces) && CacheKey(r) == CacheKey(q)
    requires if r.kind.Blob? then Separate(spaces.blobs) else Separate(spaces.records)
    ensures r == q
  {
    KeyParts(r, q);
    CacheKeyInjective(r, q);
  }

  // ----- one operation at a time -----------------------------------------------------------------------------------

  datatype Store = Store(adapter: map<Ref, string>, provider: map<string, Envelope>)

  datatype Answer = Hit(value: string, stale: bool) | Fetched(value: string) | CacheMiss | NotFound

  predicate Stale(e: Envelope, now: int, budget: int) {
    now - e.storedAt > budget
  }

  /** Which cached values a read is content with.  cache_only ignores the bypass option, and any age. */
  predicate Serves(mode: Mode, bypass: bool, stale: bool) {
    mode.CacheOnly? || (!bypass && (mode.Eventual? || !stale))
  }

  function ReadAnswer(s: Store, ref: Ref, mode: Mode, bypass: bool, now: int, budget: int): Answer {
    var k := CacheKey(ref);
    if k in s.provider && Serves(mode, bypass, Stale(s.provider[k], now, budget))
    then Hit(s.provider[k].value, Stale(s.provider[k], now, budget))
    else if mode.CacheOnly? then CacheMiss
    else if ref in s.adapter then Fetched(s.adapter[ref])
    else NotFound
  }

  function AfterRead(s: Store, ref: Ref, mode: Mode, bypass: bool, now: int, budget: int): Store {
    match ReadAnswer(s, ref, mode, bypass, now, budget)
    case Fetched(value) => s.(provider := s.provider[CacheKey(ref) := Envelope(value, now)])
    case _ => s
  }

  /** Only blobs are purged from the cache when they change; records are not. */
  function AfterWrite(s: Store, ref: Ref, value: string): Store {
    Store(s.adapter[ref := value], if ref.kind.Blob? then s.provider - {CacheKey(ref)} else s.provider)
  }

  function AfterDelete(s: Store, ref: Ref): Store {
    Store(s.adapter - {ref}, if ref.kind.Blob? then s.provider - {CacheKey(ref)} else s.provider)
  }

  class Client {
    const budget: int
    var adapter: map<Ref, string>
    var provider: map<string, Envelope>

    ghost function Contents(): Store
      reads this
    {
      Store(adapter, provider)
    }

    constructor (budget: int)
      ensures this.budget == budget && Contents() == Store(map[], map[])
    {
      this.budget, adapter, provider := budget, map[], map[];
    }

    /** readBlob and getRecord. */
    method Read(ref: Ref, mode: Mode, bypass: bool, now: int) returns (answer: Answer)
      modifies this
      ensures answer == ReadAnswer(old(Contents()), ref, mode, bypass, now, budget)
      ensures Contents() == AfterRead(old(Contents()), ref, mode, bypass, now, budget)
    {
      var cacheKey := CacheKey(ref);
      if mode.CacheOnly? {
        if cacheKey !in provider {
          return CacheMiss;
        }
        return Hit(provider[cacheKey].value, now - provider[cacheKey].storedAt > budget);
      }
      if !bypass && cacheKey in provider {
        var cached := provider[cacheKey];
        var stale := now - cached.storedAt > budget;
        if mode.Eventual? || (mode.Strong? && !stale) {
          return Hit(cached.value, stale);
        }
      }
      if ref !in adapter {
        return NotFound;
      }
      provider := provider[cacheKey := Envelope(adapter[ref], now)];
      return Fetched(adapter[ref]);
    }

    method WriteBlob(ref: Ref, value: string)
      requires ref.kind.Blob?
      modifies this
      ensures Contents() == AfterWrite(old(Contents()), ref, value)
    {
      adapter := adapter[ref := value];
      provider := provider - {CacheKey(ref)};
    }

    method DeleteBlob(ref: Ref)
      requires ref.kind.Blob?
      modifies this
      ensures Contents() == AfterDelete(old(Contents()), ref)
    {
      adapter := adapter - {ref};
      provider := provider - {CacheKey(ref)};
    }

    method UpsertRecord(ref: Ref, value: string)
      requires ref.kind.Record?
      modifies this
      ensures Contents() == AfterWrite(old(Contents()), ref, value)
    {
      adapter := adapter[ref := value];
    }

    method DeleteRecord(ref: Ref)
      requires ref.kind.Record?
      modifies this
      ensures Contents() == AfterDelete(old(Contents()), ref)
    {
      adapter := adapter - {ref};
    }
  }

  /**
   A read answers from the cache exactly when there is a copy that its mode lets it have: any at all under cache_only,
   and without the bypass any under eventual and one within the budget under strong.  Only cache_only never asks the
   adapter, and what the adapter answers is what an unhurried second read is answered.
   */
  lemma ServesCopyIff(s: Store, ref: Ref, mode: Mode, bypass: bool, now: int, budget: int)
    ensures var a, k := ReadAnswer(s, ref, mode, bypass, now, budget), CacheKey(ref);
            && (a.Hit? <==>
                  && k in s.provider
                  && match mode
                     case CacheOnly => true
                     case Eventual => !bypass
                     case Strong => !bypass && now <= s.provider[k].storedAt + budget)
            && (a.Hit? ==>
                  && a == Hit(s.provider[k].value, now > s.provider[k].storedAt + budget)
                  && AfterRead(s, ref, mode, bypass, now, budget) == s)
            && (!a.Hit? ==>
                  a == if mode == CacheOnly then CacheMiss
                       else if ref in s.adapter then Fetched(s.adapter[ref]) else NotFound)
            && (a.Fetched? && budget >= 0 ==>
                  ReadAnswer(AfterRead(s, ref, mode, bypass, now, budget), ref, mode, false, now, budget) ==
                  Hit(a.value, false))
  {
    hide CacheKey;
  }

  // ----- what one client may rely on, one operation at a time ------------------------------------------------------

  datatype Op =
    | Read(ref: Ref, mode: Mode, bypass: bool, now: int)
    | Write(ref: Ref, value: string)
    | Delete(ref: Ref)
    | Expire(key: string)

  function Apply(s: Store, op: Op, budget: int): Store {
    match op
    case Read(ref, mode, bypass, now) => AfterRead(s, ref, mode, bypass, now, budget)
    case Write(ref, value) => AfterWrite(s, ref, value)
    case Delete(ref) => AfterDelete(s, ref)
    case Expire(key) => s.(provider := s.provider - {key})
  }

  function Run(ops: seq<Op>, budget: int): Store {
    if ops == [] then Store(map[], map[]) else Apply(Run(ops[..|ops| - 1], budget), ops[|ops| - 1], budget)
  }

  predicate AllWithin(ops: seq<Op>, spaces: Spaces) {
    forall i :: 0 <= i < |ops| && !ops[i].Expire? ==> Within(ops[i].ref, spaces)
  }

  /** Every cached blob is what the adapter holds. */
  ghost predicate Coherent(s: Store, spaces: Spaces) {
    forall ref: Ref :: ref.kind.Blob? && Within(ref, spaces) && CacheKey(ref) in s.provider ==>
      ref in s.adapter && s.provider[CacheKey(ref)].value == s.adapter[ref]
  }

  lemma ApplyKeepsCoherent(s: Store, op: Op, budget: int, spaces: Spaces)
    requires Separate(spaces.blobs) && Coherent(s, spaces) && (op.Expire? || Within(op.ref, spaces))
    ensures Coherent(Apply(s, op, budget), spaces)
  {
    hide CacheKey, Stale, Serves, Within, Separate;
    var t := Apply(s, op, budget);
    forall ref: Ref | ref.kind.Blob? && Within(ref, spaces) && CacheKey(ref) in t.provider
      ensures ref in t.adapter && t.provider[CacheKey(ref)].value == t.adapter[ref]
    {
      if !op.Expire? && CacheKey(ref) == CacheKey(op.ref) {
        SeparateKeys(spaces, ref, op.ref);
      }
    }
  }

  lemma {:induction false} RunIsCoherent(ops: seq<Op>, budget: int, spaces: Spaces)
    requires Separate(spaces.blobs) && AllWithin(ops, spaces)
    ensures Coherent(Run(ops, budget), spaces)
  {
    if ops != [] {
      RunIsCoherent(ops[..|ops| - 1], budget, spaces);
      ApplyKeepsCoherent(Run(ops[..|ops| - 1], budget), ops[|ops| - 1], budget, spaces);
    }
  }

  /** What a read answers is what the adapter holds. */
  predicate Exact(s: Store, ref: Ref, mode: Mode, bypass: bool, now: int, budget: int) {
    match ReadAnswer(s, ref, mode, bypass, now, budget)
    case Hit(value, _) => ref in s.adapter && value == s.adapter[ref]
    case Fetched(value) => ref in s.adapter && value == s.adapter[ref]
    case CacheMiss => mode.CacheOnly?
    case NotFound => ref !in s.adapter
  }

  /** In every mode, fresh or stale, a blob that is read is the blob that the adapter holds. */
  lemma BlobReadsAreExact(ops: seq<Op>, budget: int, spaces: Spaces, ref: Ref, mode: Mode, bypass: bool, now: int)
    requires Separate(spaces.blobs) && AllWithin(ops, spaces) && Within(ref, spaces) && ref.kind.Blob?
    ensures Exact(Run(ops, budget), ref, mode, bypass, now, budget)
  {
    hide Run, CacheKey, Within, Separate;
    RunIsCoherent(ops, budget, spaces);
  }

  /**
   Two blobs of clashing namespaces: one is written and read, and the other, which does not exist, answers with it.
   */
  lemma ClashMixesBlobsUp(n: string, m: string, value: string, budget: int) returns (ops: seq<Op>, ref: Ref)
    requires n != m && Clash(n, m)
    ensures AllWithin(ops, Spaces({n}, {})) && ref.kind.Blob? && ref.namespace == m
    ensures !Exact(Run(ops, budget), ref, Eventual, false, 0, budget)
  {
    var i, j := ClashingJoin(n, m, "");
    var written := Ref(Blob, n, i);
    ref := Ref(Blob, m, j);
    ops := [Write(written, value), Read(written, Strong, true, 0)];
    assert CacheKey(written) == CacheKey(ref);
    assert ops[..1] == [Write(written, value)] && ops[..1][..0] == [];
    assert Run(ops[..1], budget).adapter == map[written := value];
    assert Run(ops, budget).adapter == map[written := value];
  }

  ghost predicate AlwaysExact(spaces: Spaces, budget: int) {
    forall ops, ref: Ref, mode, bypass, now ::
      AllWithin(ops, spaces) && Within(ref, spaces) && ref.kind.Blob? ==>
        Exact(Run(ops, budget), ref, mode, bypass, now, budget)
  }

  /** Blob reads are exact in every run over given namespaces exactly when no two of the blob namespaces clash. */
  lemma AlwaysExactIffSeparate(spaces: Spaces, budget: int)
    ensures AlwaysExact(spaces, budget) <==> Separate(spaces.blobs)
  {
    if Separate(spaces.blobs) {
      forall ops, ref: Ref, mode, bypass, now | AllWithin(ops, spaces) && Within(ref, spaces) && ref.kind.Blob?
        ensures Exact(Run(ops, budget), ref, mode, bypass, now, budget)
      {
        BlobReadsAreExact(ops, budget, spaces, ref, mode, bypass, now);
      }
    } else {
      hide Run, Exact;
      var n, m :| n in spaces.blobs && m in spaces.blobs && Clash(n, m);
      NotOfItself(n);
      var ops, ref := ClashMixesBlobsUp(n, m, "", budget);
      assert AllWithin(ops, spaces) && Within(ref, spaces);
    }
  }

  lemma NotOfItself(n: string)
    ensures !Clash(n, n)
  {
    assert |n + ":"| > |n|;
  }

  // ----- records ---------------------------------------------------------------------------------------------------

  /** The operation reads from the adapter and leaves a copy under this key. */
  predicate Fetches(s: Store, op: Op, key: string, budget: int) {
    op.Read? && CacheKey(op.ref) == key && ReadAnswer(s, op.ref, op.mode, op.bypass, op.now, budget).Fetched?
  }

  /** Operation i of the run fetched, and since then the key was neither fetched again nor lost. */
  ghost predicate LastFetch(ops: seq<Op>, budget: int, key: string, i: nat) {
    && i < |ops| && Fetches(Run(ops[..i], budget), ops[i], key, budget)
    && forall j :: i < j < |ops| ==> ops[j] != Expire(key) && !Fetches(Run(ops[..j], budget), ops[j], key, budget)
  }

  /** What a fetch leaves behind. */
  function Copied(ops: seq<Op>, budget: int, i: nat): Envelope
    requires i < |ops| && ops[i].Read? && ops[i].ref in Run(ops[..i], budget).adapter
  {
    Envelope(Run(ops[..i], budget).adapter[ops[i].ref], ops[i].now)
  }

  lemma RunLast(ops: seq<Op>, budget: int)
    requires ops != []
    ensures Run(ops, budget) == Apply(Run(ops[..|ops| - 1], budget), ops[|ops| - 1], budget)
  {
  }

  /** What one operation does to the copy of a record: only a fetch or an expiry touches it. */
  lemma CopyStep(s: Store, op: Op, ref: Ref, budget: int)
    requires ref.kind.Record?
    ensures var k, t := CacheKey(ref), Apply(s, op, budget);
            if op == Expire(k) then k !in t.provider
            else if Fetches(s, op, k, budget) then
              op.ref in s.adapter && k in t.provider && t.provider[k] == Envelope(s.adapter[op.ref], op.now)
            else (k in t.provider <==> k in s.provider) && (k in s.provider ==> t.provider[k] == s.provider[k])
  {
    if !op.Expire? && op.ref.kind.Blob? && CacheKey(op.ref) == CacheKey(ref) {
      KeyParts(op.ref, ref);
    }
    hide CacheKey, Stale, Serves;
  }

  lemma LastFetchGoesOn(ops: seq<Op>, budget: int, key: string, i: nat)
    requires ops != []
    ensures var front, last := ops[..|ops| - 1], ops[|ops| - 1];
            LastFetch(ops, budget, key, i) <==>
            if i == |front| then Fetches(Run(front, budget), last, key, budget)
            else LastFetch(front, budget, key, i) && last != Expire(key) &&
                 !Fetches(Run(front, budget), last, key, budget)
  {
    hide Run, Fetches;
    var front := ops[..|ops| - 1];
    assert ops[..|front|] == front;
    assert forall j :: 0 <= j < |front| ==> front[j] == ops[j] && front[..j] == ops[..j];
  }

  /** A record's key is cached exactly if it has a last fetch, and then it holds what that fetch copied. */
  lemma {:induction false} CopyIsLastFetch(ops: seq<Op>, budget: int, ref: Ref, i: nat)
    requires ref.kind.Record?
    ensures var k, s := CacheKey(ref), Run(ops, budget);
            && (k in s.provider ==> exists j: nat :: LastFetch(ops, budget, k, j))
            && (LastFetch(ops, budget, k, i) ==>
                 && ops[i].ref in Run(ops[..i], budget).adapter
                 && k in s.provider && s.provider[k] == Copied(ops, budget, i))
  {
    hide Fetches, LastFetch, CacheKey, Apply, Run;
    var k := CacheKey(ref);
    if ops == [] {
      NothingAtFirst(budget, k, i);
    } else {
      var front, last := ops[..|ops| - 1], ops[|ops| - 1];
      RunLast(ops, budget);
      CopyStep(Run(front, budget), last, ref, budget);
      CopyIsLastFetch(front, budget, ref, i);
      LastFetchGoesOn(ops, budget, k, i);
      LastFetchIsBefore(front, budget, k, i);
      assert ops[..|front|] == front;
      assert i < |front| ==> front[i] == ops[i] && front[..i] == ops[..i];
      FetchIsRead(ops, budget, k, i);
      if k in Run(ops, budget).provider {
        if Fetches(Run(front, budget), last, k, budget) {
          LastFetchGoesOn(ops, budget, k, |front|);
        } else {
          var j: nat :| LastFetch(front, budget, k, j);
          LastFetchIsBefore(front, budget, k, j);
          LastFetchGoesOn(ops, budget, k, j);
        }
      }
    }
  }

  lemma NothingAtFirst(budget: int, key: string, i: nat)
    ensures Run([], budget).provider == map[] && !LastFetch([], budget, key, i)
  {
  }

  lemma LastFetchIsBefore(ops: seq<Op>, budget: int, key: string, i: nat)
    ensures LastFetch(ops, budget, key, i) ==> i < |ops|
  {
  }

  lemma FetchIsRead(ops: seq<Op>, budget: int, key: string, i: nat)
    ensures LastFetch(ops, budget, key, i) ==> ops[i].Read?
  {
  }

  predicate Changes(op: Op, ref: Ref) {
    (op.Write? || op.Delete?) && op.ref == ref
  }

  /** The last write or delete of the object. */
  function LastChange(ops: seq<Op>, ref: Ref): Option<Op> {
    if ops == [] then None
    else if Changes(ops[|ops| - 1], ref) then Some(ops[|ops| - 1])
    else LastChange(ops[..|ops| - 1], ref)
  }

  /** What the adapter holds for an object is what the last change since made of it. */
  lemma {:induction false} AdapterIsLastChange(ops: seq<Op>, budget: int, ref: Ref, i: nat)
    requires i <= |ops|
    ensures var before, after := Run(ops[..i], budget).adapter, Run(ops, budget).adapter;
            match LastChange(ops[i..], ref)
            case None => (ref in after <==> ref in before) && (ref in before ==> after[ref] == before[ref])
            case Some(op) =>
              Changes(op, ref) && if op.Write? then ref in after && after[ref] == op.value else ref !in after
  {
    if i == |ops| {
      assert ops[..i] == ops;
    } else {
      hide CacheKey, Stale, Serves;
      var front := ops[..|ops| - 1];
      AdapterIsLastChange(front, budget, ref, i);
      assert front[..i] == ops[..i] && ops[i..][..|ops| - 1 - i] == front[i..];
    }
  }

  /**
   Whatever is written, deleted, read or lost meanwhile: a record read that is content with the cached copy answers
   what the adapter held when that copy was last fetched.  If the fetch was of this record, that is right exactly when
   the record has not been changed since, or last to this value again.  Every other read is exact.
   */
  lemma {:induction false} RecordReadsIgnoreChanges(ops: seq<Op>, budget: int, ref: Ref, i: nat, mode: Mode,
                                                    bypass: bool, now: int)
    requires ref.kind.Record? && LastFetch(ops, budget, CacheKey(ref), i)
    ensures ops[i].Read? && ops[i].ref in Run(ops[..i], budget).adapter
    ensures var copy, s := Copied(ops, budget, i), Run(ops, budget);
            if Serves(mode, bypass, Stale(copy, now, budget)) then
              && ReadAnswer(s, ref, mode, bypass, now, budget) == Hit(copy.value, Stale(copy, now, budget))
              && (ops[i].ref == ref ==>
                   (Exact(s, ref, mode, bypass, now, budget) <==>
                      var change := LastChange(ops[i..], ref);
                      change.None? || change == Some(Write(ref, copy.value))))
            else Exact(s, ref, mode, bypass, now, budget)
  {
    hide Run, CacheKey;
    CopyIsLastFetch(ops, budget, ref, i);
    AdapterIsLastChange(ops, budget, ref, i);
  }

  /** Without such a copy the read is exact. */
  lemma UncopiedRecordIsExact(ops: seq<Op>, budget: int, ref: Ref, mode: Mode, bypass: bool, now: int)
    requires ref.kind.Record? && forall i: nat :: !LastFetch(ops, budget, CacheKey(ref), i)
    ensures Exact(Run(ops, budget), ref, mode, bypass, now, budget)
  {
    hide Run, CacheKey, LastFetch;
    CopyIsLastFetch(ops, budget, ref, 0);
  }
}
