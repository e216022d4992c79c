/**
 Reads, writes and deletes of one storage client, interleaved at every await of packages/storage/src/client.ts:325-456,
 with its retries.  Cache commands may land late, more than once, or never; the cache may lose a key, and others may
 change the adapter.
 */
module StorageRun {
  import opened Common
  import opened StorageClient

  type Contents = map<Ref, string>

  /** A value on its way into the cache: read from the adapter's contents of that number, and stamped. */
  datatype Fill = Fill(ref: Ref, value: string, contents: nat, stamp: int)

  /** Where an answer came from: the adapter's contents of that number, or a cached value that was checked at a time. */
  datatype Source = FromAdapter(contents: nat) | FromCache(checkedAt: int)

  /** `since` is the number of the adapter's contents when the call began. */
  datatype Call =
    | ReadStart(ref: Ref, mode: Mode, bypass: bool, since: nat)
    | ReadReply(ref: Ref, mode: Mode, bypass: bool, since: nat, reply: Option<Envelope>)
    | ReadAdapter(ref: Ref, mode: Mode, bypass: bool, since: nat)
    | ReadFetched(ref: Ref, mode: Mode, bypass: bool, since: nat, contents: nat, value: string)
    | ReadDone(ref: Ref, mode: Mode, bypass: bool, since: nat, value: string, source: Source)
    | WriteStart(ref: Ref, value: string)
    | DeleteStart(ref: Ref)
    | Changed(ref: Ref, written: Option<string>)
    | Ended

  datatype State = State(now: int, history: seq<Contents>, provider: map<string, Envelope>, fills: seq<Fill>,
                         calls: seq<Call>)

  datatype Event =
    | Begin(call: Call)
    | Advance(id: nat)
    | Abort(id: nat)
    | Retry(id: nat)
    | Fills(id: nat)
    | Land(fill: nat)
    | Drop(key: string)
    | Change(contents: Contents)
    | Tick(ms: nat)

  function Current(s: State): Contents {
    if s.history == [] then map[] else s.history[|s.history| - 1]
  }

  function Newest(s: State): nat {
    if s.history == [] then 0 else |s.history| - 1
  }

  /** One call goes on until it waits again. */
  function AdvanceStep(s: State, id: nat, budget: int): State
    requires id < |s.calls|
  {
    match s.calls[id]
    case ReadStart(ref, mode, bypass, since) =>
      var k := CacheKey(ref);
      s.(calls := s.calls[id :=
        if mode.CacheOnly? || !bypass
        then ReadReply(ref, mode, bypass, since, if k in s.provider then Some(s.provider[k]) else None)
        else ReadAdapter(ref, mode, bypass, since)])
    case ReadReply(ref, mode, bypass, since, reply) =>
      s.(calls := s.calls[id :=
        if reply.Some? && Serves(mode, bypass, Stale(reply.value, s.now, budget))
        then ReadDone(ref, mode, bypass, since, reply.value.value, FromCache(s.now))
        else if mode.CacheOnly? then Ended
        else ReadAdapter(ref, mode, bypass, since)])
    case ReadAdapter(ref, mode, bypass, since) =>
      s.(calls := s.calls[id :=
        if ref in Current(s) then ReadFetched(ref, mode, bypass, since, Newest(s), Current(s)[ref]) else Ended])
    case ReadFetched(ref, mode, bypass, since, contents, value) =>
      s.(calls := s.calls[id := ReadDone(ref, mode, bypass, since, value, FromAdapter(contents))])
    case WriteStart(ref, value) =>
      s.(history := s.history + [Current(s)[ref := value]], calls := s.calls[id := Changed(ref, Some(value))])
    case DeleteStart(ref) =>
      s.(history := s.history + [Current(s) - {ref}], calls := s.calls[id := Changed(ref, None)])
    case Changed(ref, _) =>
      s.(provider := if ref.kind.Blob? then s.provider - {CacheKey(ref)} else s.provider,
         calls := s.calls[id := Ended])
    case ReadDone(_, _, _, _, _, _) => s
    case Ended => s
  }

  /** After a timeout the retry loop runs the adapter's part of a call again, from its start. */
  function Retried(call: Call): Call {
    match call
    case ReadFetched(ref, mode, bypass, since, _, _) => ReadAdapter(ref, mode, bypass, since)
    case Changed(ref, Some(value)) => WriteStart(ref, value)
    case Changed(ref, None) => DeleteStart(ref)
    case _ => call
  }

  function Step(s: State, ev: Event, budget: int): State {
    match ev
    case Begin(call) =>
      (match call
       case ReadStart(ref, mode, bypass, _) => s.(calls := s.calls + [ReadStart(ref, mode, bypass, Newest(s))])
       case WriteStart(_, _) => s.(calls := s.calls + [call])
       case DeleteStart(_) => s.(calls := s.calls + [call])
       case _ => s)
    case Advance(id) => if id < |s.calls| then AdvanceStep(s, id, budget) else s
    case Abort(id) => if id < |s.calls| && !s.calls[id].ReadDone? then s.(calls := s.calls[id := Ended]) else s
    case Retry(id) => if id < |s.calls| then s.(calls := s.calls[id := Retried(s.calls[id])]) else s
    case Fills(id) =>
      if id < |s.calls| && s.calls[id].ReadFetched? then
        var c := s.calls[id];
        s.(fills := s.fills + [Fill(c.ref, c.value, c.contents, s.now)])
      else s
    case Land(i) =>
      if i < |s.fills| then
        s.(provider := s.provider[CacheKey(s.fills[i].ref) := Envelope(s.fills[i].value, s.fills[i].stamp)])
      else s
    case Drop(key) => s.(provider := s.provider - {key})
    case Change(contents) => s.(history := s.history + [contents])
    case Tick(ms) => s.(now := s.now + ms)
  }

  function Run(evs: seq<Event>, budget: int): State {
    if evs == [] then State(0, [map[]], map[], [], [])
    else Step(Run(evs[..|evs| - 1], budget), evs[|evs| - 1], budget)
  }

  // ----- what every run keeps --------------------------------------------------------------------------------------

  predicate Held(history: seq<Contents>, contents: nat, ref: Ref, value: string) {
    contents < |history| && ref in history[contents] && history[contents][ref] == value
  }

  /** Some fill under this object's key carried this value and this stamp. */
  ghost predicate Filled(fills: seq<Fill>, ref: Ref, e: Envelope) {
    exists i :: 0 <= i < |fills| && CacheKey(fills[i].ref) == CacheKey(ref) &&
           Envelope(fills[i].value, fills[i].stamp) == e
  }

  ghost predicate FillsHold(fills: seq<Fill>, history: seq<Contents>, now: int, spaces: Spaces) {
    forall i :: 0 <= i < |fills| ==>
      Within(fills[i].ref, spaces) && Held(history, fills[i].contents, fills[i].ref, fills[i].value) &&
        fills[i].stamp <= now
  }

  ghost predicate ProviderHolds(provider: map<string, Envelope>, fills: seq<Fill>, spaces: Spaces) {
    forall ref: Ref :: Within(ref, spaces) && CacheKey(ref) in provider ==> Filled(fills, ref, provider[CacheKey(ref)])
  }

  /** A cached value that a read in this mode may answer with, when it is checked at that time. */
  ghost predicate Served(fills: seq<Fill>, ref: Ref, mode: Mode, value: string, checkedAt: int, budget: int) {
    exists i :: 0 <= i < |fills| && CacheKey(fills[i].ref) == CacheKey(ref) && fills[i].value == value &&
           fills[i].stamp <= checkedAt &&
                (mode.Strong? ==> checkedAt - fills[i].stamp <= budget)
  }

  ghost predicate CallHolds(call: Call, fills: seq<Fill>, history: seq<Contents>, budget: int, spaces: Spaces) {
    match call
    case ReadStart(ref, _, _, since) => Within(ref, spaces) && since < |history|
    case ReadReply(ref, mode, bypass, since, reply) =>
      && Within(ref, spaces) && since < |history| && (bypass ==> mode.CacheOnly?)
      && (reply.Some? ==> Filled(fills, ref, reply.value))
    case ReadAdapter(ref, mode, _, since) => Within(ref, spaces) && since < |history| && !mode.CacheOnly?
    case ReadFetched(ref, mode, bypass, since, contents, value) =>
      Within(ref, spaces) && since <= contents && Held(history, contents, ref, value) && !mode.CacheOnly?
    case ReadDone(ref, mode, bypass, since, value, source) =>
      Within(ref, spaces) &&
      (match source
       case FromAdapter(contents) => !mode.CacheOnly? && since <= contents && Held(history, contents, ref, value)
       case FromCache(checkedAt) => (bypass ==> mode.CacheOnly?) && Served(fills, ref, mode, value, checkedAt, budget))
    case _ => true
  }

  ghost predicate CallsHold(calls: seq<Call>, fills: seq<Fill>, history: seq<Contents>, budget: int, spaces: Spaces) {
    forall i :: 0 <= i < |calls| ==> CallHolds(calls[i], fills, history, budget, spaces)
  }

  ghost predicate Inv(s: State, budget: int, spaces: Spaces) {
    && s.history != []
    && FillsHold(s.fills, s.history, s.now, spaces)
    && ProviderHolds(s.provider, s.fills, spaces)
    && CallsHold(s.calls, s.fills, s.history, budget, spaces)
  }

  lemma CallGrows(call: Call, fills: seq<Fill>, history: seq<Contents>, fills': seq<Fill>, history': seq<Contents>,
                  budget: int, spaces: Spaces)
    requires CallHolds(call, fills, history, budget, spaces) && fills <= fills' && history <= history'
    ensures CallHolds(call, fills', history', budget, spaces)
  {
    assert forall i :: 0 <= i < |fills| ==> fills'[i] == fills[i];
    assert forall i :: 0 <= i < |history| ==> history'[i] == history[i];
    match call
    case ReadReply(ref, _, _, _, reply) =>
      if reply.Some? {
        var i :| 0 <= i < |fills| && CacheKey(fills[i].ref) == CacheKey(ref) &&
            Envelope(fills[i].value, fills[i].stamp) == reply.value;
        assert fills'[i] == fills[i];
      }
    case ReadDone(ref, mode, _, _, value, FromCache(checkedAt)) =>
      var i :| 0 <= i < |fills| && CacheKey(fills[i].ref) == CacheKey(ref) && fills[i].value == value &&
          fills[i].stamp <= checkedAt &&
               (mode.Strong? ==> checkedAt - fills[i].stamp <= budget);
      assert fills'[i] == fills[i];
    case _ =>
  }

  /** The adapter's contents change: what has been read was held then, and stays on record. */
  lemma HistoryGrows(s: State, contents: Contents, budget: int, spaces: Spaces)
    requires Inv(s, budget, spaces)
    ensures Inv(s.(history := s.history + [contents]), budget, spaces)
  {
    var history' := s.history + [contents];
    forall i | 0 <= i < |s.calls| ensures CallHolds(s.calls[i], s.fills, history', budget, spaces) {
      CallGrows(s.calls[i], s.fills, s.history, s.fills, history', budget, spaces);
    }
    forall i | 0 <= i < |s.fills| ensures Held(history', s.fills[i].contents, s.fills[i].ref, s.fills[i].value) {
      assert Held(s.history, s.fills[i].contents, s.fills[i].ref, s.fills[i].value);
    }
  }

  lemma FilledStays(fills: seq<Fill>, fill: Fill, ref: Ref, e: Envelope)
    requires Filled(fills, ref, e)
    ensures Filled(fills + [fill], ref, e)
  {
    hide CacheKey;
    var i :| 0 <= i < |fills| && CacheKey(fills[i].ref) == CacheKey(ref) &&
        Envelope(fills[i].value, fills[i].stamp) == e;
    assert (fills + [fill])[i] == fills[i];
  }

  lemma FillAdded(s: State, fill: Fill, budget: int, spaces: Spaces)
    requires Inv(s, budget, spaces)
    requires Within(fill.ref, spaces) && Held(s.history, fill.contents, fill.ref, fill.value) && fill.stamp <= s.now
    ensures Inv(s.(fills := s.fills + [fill]), budget, spaces)
  {
    hide CacheKey, Filled, CallHolds, Within;
    var fills' := s.fills + [fill];
    forall i | 0 <= i < |s.calls| ensures CallHolds(s.calls[i], fills', s.history, budget, spaces) {
      CallGrows(s.calls[i], s.fills, s.history, fills', s.history, budget, spaces);
    }
    forall ref: Ref | Within(ref, spaces) && CacheKey(ref) in s.provider
      ensures Filled(fills', ref, s.provider[CacheKey(ref)])
    {
      FilledStays(s.fills, fill, ref, s.provider[CacheKey(ref)]);
    }
  }

  lemma LandKeepsProvider(provider: map<string, Envelope>, fills: seq<Fill>, i: nat, spaces: Spaces)
    requires ProviderHolds(provider, fills, spaces) && i < |fills| && Within(fills[i].ref, spaces)
    ensures ProviderHolds(provider[CacheKey(fills[i].ref) := Envelope(fills[i].value, fills[i].stamp)], fills, spaces)
  {
    hide CacheKey, Within;
    var provider' := provider[CacheKey(fills[i].ref) := Envelope(fills[i].value, fills[i].stamp)];
    forall ref: Ref | Within(ref, spaces) && CacheKey(ref) in provider'
      ensures Filled(fills, ref, provider'[CacheKey(ref)]) {
      assert CacheKey(ref) != CacheKey(fills[i].ref) ==> Filled(fills, ref, provider[CacheKey(ref)]);
    }
  }

  lemma DropKeepsProvider(provider: map<string, Envelope>, fills: seq<Fill>, key: string, spaces: Spaces)
    requires ProviderHolds(provider, fills, spaces)
    ensures ProviderHolds(provider - {key}, fills, spaces)
  {
  }

  /** A reply that passes the staleness test was stamped within the budget. */
  lemma ReplyIsServed(s: State, ref: Ref, mode: Mode, bypass: bool, e: Envelope, budget: int, spaces: Spaces)
    requires FillsHold(s.fills, s.history, s.now, spaces) && Filled(s.fills, ref, e)
    requires Serves(mode, bypass, Stale(e, s.now, budget))
    ensures Served(s.fills, ref, mode, e.value, s.now, budget)
  {
    var i :| 0 <= i < |s.fills| && CacheKey(s.fills[i].ref) == CacheKey(ref) &&
        Envelope(s.fills[i].value, s.fills[i].stamp) == e;
    assert s.fills[i].stamp <= s.now;
  }

  lemma AdvanceKeepsInv(s: State, id: nat, budget: int, spaces: Spaces)
    requires Inv(s, budget, spaces) && id < |s.calls|
    ensures Inv(AdvanceStep(s, id, budget), budget, spaces)
  {
    hide CacheKey, Within, FillsHold, ProviderHolds, Served, Filled, Serves, Stale;
    var call := s.calls[id];
    assert CallHolds(call, s.fills, s.history, budget, spaces);
    match call
    case ReadStart(ref, mode, bypass, since) => ReplyIsFilled(s, ref, spaces);
    case ReadReply(ref, mode, bypass, since, reply) =>
      if reply.Some? && Serves(mode, bypass, Stale(reply.value, s.now, budget)) {
        ReplyIsServed(s, ref, mode, bypass, reply.value, budget, spaces);
      }
    case WriteStart(ref, value) => HistoryGrows(s, Current(s)[ref := value], budget, spaces);
    case DeleteStart(ref) => HistoryGrows(s, Current(s) - {ref}, budget, spaces);
    case Changed(ref, _) => DropKeepsProvider(s.provider, s.fills, CacheKey(ref), spaces);
    case _ =>
  }

  lemma ReplyIsFilled(s: State, ref: Ref, spaces: Spaces)
    requires ProviderHolds(s.provider, s.fills, spaces)
    ensures Within(ref, spaces) && CacheKey(ref) in s.provider ==> Filled(s.fills, ref, s.provider[CacheKey(ref)])
  {
  }

  /** The client reads within these namespaces. */
  predicate EventWithin(ev: Event, spaces: Spaces) {
    ev.Begin? && ev.call.ReadStart? ==> Within(ev.call.ref, spaces)
  }

  lemma StepKeepsInv(s: State, ev: Event, budget: int, spaces: Spaces)
    requires Inv(s, budget, spaces) && EventWithin(ev, spaces)
    ensures Inv(Step(s, ev, budget), budget, spaces)
  {
    hide AdvanceStep, CacheKey, Within, ProviderHolds, Served, Filled;
    match ev
    case Advance(id) =>
      if id < |s.calls| {
        AdvanceKeepsInv(s, id, budget, spaces);
      }
    case Fills(id) =>
      if id < |s.calls| && s.calls[id].ReadFetched? {
        var c := s.calls[id];
        assert CallHolds(c, s.fills, s.history, budget, spaces);
        FillAdded(s, Fill(c.ref, c.value, c.contents, s.now), budget, spaces);
      }
    case Land(i) =>
      if i < |s.fills| {
        LandKeepsProvider(s.provider, s.fills, i, spaces);
      }
    case Drop(key) => DropKeepsProvider(s.provider, s.fills, key, spaces);
    case Change(contents) => HistoryGrows(s, contents, budget, spaces);
    case _ =>
  }

  lemma {:induction false} RunKeepsInv(evs: seq<Event>, budget: int, spaces: Spaces)
    requires forall i :: 0 <= i < |evs| ==> EventWithin(evs[i], spaces)
    ensures Inv(Run(evs, budget), budget, spaces)
  {
    hide Step, EventWithin;
    if evs != [] {
      RunKeepsInv(evs[..|evs| - 1], budget, spaces);
      StepKeepsInv(Run(evs[..|evs| - 1], budget), evs[|evs| - 1], budget, spaces);
    }
  }

  // ----- the promise -----------------------------------------------------------------------------------------------

  /** The adapter held this value at some time since the call began. */
  ghost predicate OwnRead(s: State, call: Call)
    requires call.ReadDone?
  {
    call.source.FromAdapter? && call.since <= call.source.contents &&
      Held(s.history, call.source.contents, call.ref, call.value)
  }

  /** The value came with a fill under the object's key, of an object which the adapter held when the fill read it. */
  ghost predicate FromFill(s: State, call: Call, i: nat, budget: int)
    requires call.ReadDone?
  {
    && call.source.FromCache?
    && i < |s.fills| && CacheKey(s.fills[i].ref) == CacheKey(call.ref) && s.fills[i].value == call.value
    && Held(s.history, s.fills[i].contents, s.fills[i].ref, call.value)
    && s.fills[i].stamp <= call.source.checkedAt
    && (call.mode.Strong? ==> call.source.checkedAt - s.fills[i].stamp <= budget)
  }

  /**
   However reads, writes, deletes, retries and the cache's own losses interleave: a strong read answers with what the
   adapter held during the call, or with a value stamped no longer than the budget before it was checked.  That value is
   the very object's own unless namespaces in use clash.  A read that bypasses the cache answers with what the adapter
   held during the call, unless it is cache_only, which never asks the adapter.
   */
  lemma EveryRead(evs: seq<Event>, budget: int, spaces: Spaces, id: nat)
    requires forall i :: 0 <= i < |evs| ==> EventWithin(evs[i], spaces)
    requires id < |Run(evs, budget).calls| && Run(evs, budget).calls[id].ReadDone?
    ensures var s := Run(evs, budget);
            var call := s.calls[id];
            && (OwnRead(s, call) ||
                exists i: nat :: FromFill(s, call, i, budget) &&
                                 (Separate(spaces.blobs) && Separate(spaces.records) ==> s.fills[i].ref == call.ref))
            && (call.bypass && !call.mode.CacheOnly? ==> OwnRead(s, call))
            && (call.mode.CacheOnly? ==> call.source.FromCache?)
  {
    hide Run;
    RunKeepsInv(evs, budget, spaces);
    var s := Run(evs, budget);
    var call := s.calls[id];
    assert CallHolds(call, s.fills, s.history, budget, spaces);
    if call.source.FromCache? {
      var i :| 0 <= i < |s.fills| && CacheKey(s.fills[i].ref) == CacheKey(call.ref) && s.fills[i].value == call.value &&
               s.fills[i].stamp <= call.source.checkedAt &&
               (call.mode.Strong? ==> call.source.checkedAt - s.fills[i].stamp <= budget);
      assert FromFill(s, call, i, budget);
      if Separate(spaces.blobs) && Separate(spaces.records) {
        SeparateKeys(spaces, s.fills[i].ref, call.ref);
      }
    }
  }

  // ----- a run with each kind of read ------------------------------------------------------------------------------

  lemma GoesOn(evs: seq<Event>, s: State, ev: Event, budget: int) returns (more: seq<Event>)
    requires Run(evs, budget) == s
    ensures Run(more, budget) == Step(s, ev, budget)
  {
    more := evs + [ev];
    assert more[..|evs|] == evs;
  }

  /** A bypassing read of what the adapter holds now, which leaves a copy in the cache. */
  lemma BypassingRead(evs: seq<Event>, s: State, ref: Ref, budget: int) returns (more: seq<Event>, t: State)
    requires Run(evs, budget) == s && s.history != [] && ref in Current(s) && s.fills == []
    ensures Run(more, budget) == t && t.history == s.history && t.now == s.now
    ensures t.provider == s.provider[CacheKey(ref) := Envelope(Current(s)[ref], s.now)]
    ensures t.calls == s.calls + [ReadDone(ref, Strong, true, Newest(s), Current(s)[ref], FromAdapter(Newest(s)))]
  {
    hide Run, CacheKey;
    var id := |s.calls|;
    more := GoesOn(evs, s, Begin(ReadStart(ref, Strong, true, 0)), budget);
    var s1 := s.(calls := s.calls + [ReadStart(ref, Strong, true, Newest(s))]);
    more := GoesOn(more, s1, Advance(id), budget);
    var s2 := s.(calls := s.calls + [ReadAdapter(ref, Strong, true, Newest(s))]);
    more := GoesOn(more, s2, Advance(id), budget);
    var s3 := s.(calls := s.calls + [ReadFetched(ref, Strong, true, Newest(s), Newest(s), Current(s)[ref])]);
    more := GoesOn(more, s3, Fills(id), budget);
    var s4 := s3.(fills := [Fill(ref, Current(s)[ref], Newest(s), s.now)]);
    more := GoesOn(more, s4, Land(0), budget);
    var s5 := s4.(provider := s.provider[CacheKey(ref) := Envelope(Current(s)[ref], s.now)]);
    more := GoesOn(more, s5, Advance(id), budget);
    t := s5.(calls := s.calls + [ReadDone(ref, Strong, true, Newest(s), Current(s)[ref], FromAdapter(Newest(s)))]);
  }

  /** A cache_only read that bypasses the cache in name only. */
  lemma CacheOnlyRead(evs: seq<Event>, s: State, ref: Ref, budget: int) returns (more: seq<Event>, t: State)
    requires Run(evs, budget) == s && CacheKey(ref) in s.provider
    ensures Run(more, budget) == t
    ensures t == s.(calls := s.calls + [ReadDone(ref, CacheOnly, true, Newest(s), s.provider[CacheKey(ref)].value,
                                                 FromCache(s.now))])
  {
    hide Run, CacheKey;
    var id, e := |s.calls|, s.provider[CacheKey(ref)];
    more := GoesOn(evs, s, Begin(ReadStart(ref, CacheOnly, true, 0)), budget);
    var s1 := s.(calls := s.calls + [ReadStart(ref, CacheOnly, true, Newest(s))]);
    more := GoesOn(more, s1, Advance(id), budget);
    var s2 := s.(calls := s.calls + [ReadReply(ref, CacheOnly, true, Newest(s), Some(e))]);
    more := GoesOn(more, s2, Advance(id), budget);
    t := s.(calls := s.calls + [ReadDone(ref, CacheOnly, true, Newest(s), e.value, FromCache(s.now))]);
  }

  /**
   Both branches are taken: one run in which a bypassing read answers from the adapter, the adapter then changes, and a
   cache_only read given the same option still answers with the old value.
   */
  lemma {:induction false} CacheOnlyIgnoresBypass(ref: Ref, first: string, second: string, budget: int)
    returns (evs: seq<Event>)
    ensures var s := Run(evs, budget);
            && Current(s) == map[ref := second]
            && s.calls == [ReadDone(ref, Strong, true, 1, first, FromAdapter(1)),
                           ReadDone(ref, CacheOnly, true, 2, first, FromCache(0))]
  {
    hide Run, CacheKey;
    var s := State(0, [map[]], map[], [], []);
    assert Run([], budget) == s by {
      RunOfNone(budget);
    }
    evs := GoesOn([], s, Change(map[ref := first]), budget);
    s := s.(history := [map[], map[ref := first]]);
    evs, s := BypassingRead(evs, s, ref, budget);
    evs := GoesOn(evs, s, Change(map[ref := second]), budget);
    s := s.(history := [map[], map[ref := first], map[ref := second]]);
    evs, s := CacheOnlyRead(evs, s, ref, budget);
  }

  lemma RunOfNone(budget: int)
    ensures Run([], budget) == State(0, [map[]], map[], [], [])
  {
  }

  /**
   After a timeout the adapter's part of a call is run again from its start: a read asks for the contents of now, and a
   write or a delete is carried out once more.
   */
  lemma RetryRunsAgain(s: State, id: nat, budget: int)
    requires id < |s.calls| && s.history != []
    ensures var call, t := s.calls[id], Step(Step(s, Retry(id), budget), Advance(id), budget);
            && (call.ReadFetched? && call.ref in Current(s) ==>
                  t == s.(calls := s.calls[id := call.(contents := |s.history| - 1, value := Current(s)[call.ref])]))
            && (call.ReadFetched? && call.ref !in Current(s) ==> t == s.(calls := s.calls[id := Ended]))
            && (call.Changed? ==>
                  t == s.(history := s.history + [if call.written.Some? then Current(s)[call.ref := call.written.value]
                                                  else Current(s) - {call.ref}]))
  {
  }

  // ----- a call that nothing interrupts ----------------------------------------------------------------------------

  function StepAll(s: State, evs: seq<Event>, budget: int): State {
    if evs == [] then s else Step(StepAll(s, evs[..|evs| - 1], budget), evs[|evs| - 1], budget)
  }

  /** Events that only drive this call, and its own fill. */
  predicate Drives(evs: seq<Event>, id: nat, fill: nat) {
    forall i :: 0 <= i < |evs| ==> evs[i] == Advance(id) || evs[i] == Fills(id) || evs[i] == Land(fill)
  }

  lemma Further(s: State, evs: seq<Event>, t: State, ev: Event, budget: int, id: nat, fill: nat)
    returns (more: seq<Event>)
    requires StepAll(s, evs, budget) == t && Drives(evs, id, fill)
    requires ev == Advance(id) || ev == Fills(id) || ev == Land(fill)
    ensures StepAll(s, more, budget) == Step(t, ev, budget) && Drives(more, id, fill)
  {
    more := evs + [ev];
    assert more[..|evs|] == evs;
  }

  /** What one client at a time would see: the adapter's present contents, and the cache. */
  function StoreOf(s: State): Store {
    Store(Current(s), s.provider)
  }

  /** Where an answer of `StorageClient.ReadAnswer` leaves a call of this machine. */
  function Answered(s: State, ref: Ref, mode: Mode, bypass: bool, a: Answer): Call {
    match a
    case Hit(value, _) => ReadDone(ref, mode, bypass, Newest(s), value, FromCache(s.now))
    case Fetched(value) => ReadDone(ref, mode, bypass, Newest(s), value, FromAdapter(Newest(s)))
    case _ => Ended
  }

  lemma CheckedAtOnce(s: State, ref: Ref, mode: Mode, bypass: bool, budget: int) returns (evs: seq<Event>)
    ensures Drives(evs, |s.calls|, |s.fills|)
    ensures var a := ReadAnswer(StoreOf(s), ref, mode, bypass, s.now, budget);
            StepAll(Step(s, Begin(ReadStart(ref, mode, bypass, 0)), budget), evs, budget) ==
            s.(calls := s.calls + [if a.Hit? || a.CacheMiss? then Answered(s, ref, mode, bypass, a)
                                   else ReadAdapter(ref, mode, bypass, Newest(s))])
  {
    hide CacheKey, Stale, StepAll, Newest, Current;
    var id, fill, k := |s.calls|, |s.fills|, CacheKey(ref);
    var s0 := Step(s, Begin(ReadStart(ref, mode, bypass, 0)), budget);
    evs := [];
    assert StepAll(s0, evs, budget) == s0 by {
      StepNone(s0, budget);
    }
    evs := Further(s0, evs, s0, Advance(id), budget, id, fill);
    if mode.CacheOnly? || !bypass {
      var reply := if k in s.provider then Some(s.provider[k]) else None;
      var s1 := s.(calls := s.calls + [ReadReply(ref, mode, bypass, Newest(s), reply)]);
      assert Step(s0, Advance(id), budget) == s1;
      evs := Further(s0, evs, s1, Advance(id), budget, id, fill);
    }
  }

  lemma StepNone(s: State, budget: int)
    ensures StepAll(s, [], budget) == s
  {
  }

  lemma FetchedAtOnce(s0: State, before: seq<Event>, s: State, t: State, ref: Ref, mode: Mode, bypass: bool,
                      budget: int)
    returns (evs: seq<Event>)
    requires t == s.(calls := s.calls + [ReadAdapter(ref, mode, bypass, Newest(s))])
    requires StepAll(s0, before, budget) == t && Drives(before, |s.calls|, |s.fills|)
    ensures Drives(evs, |s.calls|, |s.fills|)
    ensures StepAll(s0, evs, budget) ==
            if ref !in Current(s) then s.(calls := s.calls + [Ended])
            else s.(calls := s.calls + [Answered(s, ref, mode, bypass, Fetched(Current(s)[ref]))],
                    fills := s.fills + [Fill(ref, Current(s)[ref], Newest(s), s.now)],
                    provider := s.provider[CacheKey(ref) := Envelope(Current(s)[ref], s.now)])
  {
    hide CacheKey, StepAll;
    var id, fill := |s.calls|, |s.fills|;
    evs := Further(s0, before, t, Advance(id), budget, id, fill);
    assert Current(t) == Current(s) && Newest(t) == Newest(s);
    if ref in Current(s) {
      var value := Current(s)[ref];
      var s3 := s.(calls := s.calls + [ReadFetched(ref, mode, bypass, Newest(s), Newest(s), value)]);
      evs := Further(s0, evs, s3, Fills(id), budget, id, fill);
      var s4 := s3.(fills := s.fills + [Fill(ref, value, Newest(s), s.now)]);
      evs := Further(s0, evs, s4, Land(fill), budget, id, fill);
      var s5 := s4.(provider := s.provider[CacheKey(ref) := Envelope(value, s.now)]);
      evs := Further(s0, evs, s5, Advance(id), budget, id, fill);
    }
  }

  /** A read that nothing interrupts answers, and leaves the cache, as `StorageClient.Client.Read` does. */
  lemma ReadAtOnce(s: State, ref: Ref, mode: Mode, bypass: bool, budget: int) returns (evs: seq<Event>)
    ensures Drives(evs, |s.calls|, |s.fills|)
    ensures var t := StepAll(Step(s, Begin(ReadStart(ref, mode, bypass, 0)), budget), evs, budget);
            var a := ReadAnswer(StoreOf(s), ref, mode, bypass, s.now, budget);
            && t.calls == s.calls + [Answered(s, ref, mode, bypass, a)]
            && StoreOf(t) == AfterRead(StoreOf(s), ref, mode, bypass, s.now, budget)
            && t.history == s.history && t.now == s.now
  {
    hide CacheKey, Stale, StepAll, Serves, Newest, Step;
    evs := CheckedAtOnce(s, ref, mode, bypass, budget);
    var a := ReadAnswer(StoreOf(s), ref, mode, bypass, s.now, budget);
    if !a.Hit? && !a.CacheMiss? {
      var s0 := Step(s, Begin(ReadStart(ref, mode, bypass, 0)), budget);
      evs := FetchedAtOnce(s0, evs, s, s.(calls := s.calls + [ReadAdapter(ref, mode, bypass, Newest(s))]), ref, mode,
                           bypass, budget);
    }
  }

  lemma TwoSteps(s: State, a: Event, b: Event, budget: int)
    ensures StepAll(s, [a, b], budget) == Step(Step(s, a, budget), b, budget)
  {
    assert [a, b][..1] == [a] && [a][..0] == [];
    assert StepAll(s, [a], budget) == Step(s, a, budget);
  }

  /** A write changes the adapter and the cache as the client's does. */
  lemma WriteAtOnce(s: State, ref: Ref, value: string, budget: int)
    ensures var id := |s.calls|;
            var t := StepAll(Step(s, Begin(WriteStart(ref, value)), budget), [Advance(id), Advance(id)], budget);
            StoreOf(t) == AfterWrite(StoreOf(s), ref, value) && t.calls == s.calls + [Ended]
  {
    hide CacheKey, StepAll;
    var id := |s.calls|;
    var s0 := Step(s, Begin(WriteStart(ref, value)), budget);
    TwoSteps(s0, Advance(id), Advance(id), budget);
    assert Step(s0, Advance(id), budget) ==
           s.(history := s.history + [Current(s)[ref := value]], calls := s.calls + [Changed(ref, Some(value))]);
  }

  /** And so does a delete. */
  lemma DeleteAtOnce(s: State, ref: Ref, budget: int)
    ensures var id := |s.calls|;
            var t := StepAll(Step(s, Begin(DeleteStart(ref)), budget), [Advance(id), Advance(id)], budget);
            StoreOf(t) == AfterDelete(StoreOf(s), ref) && t.calls == s.calls + [Ended]
  {
    hide CacheKey, StepAll;
    var id := |s.calls|;
    var s0 := Step(s, Begin(DeleteStart(ref)), budget);
    TwoSteps(s0, Advance(id), Advance(id), budget);
    assert Step(s0, Advance(id), budget) ==
           s.(history := s.history + [Current(s) - {ref}], calls := s.calls + [Changed(ref, None)]);
  }
}
