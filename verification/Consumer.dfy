/**
 The stream consumer: services/messaging/src/app/stream/consumer.ts, with the queue of
 services/messaging/src/ws/backpressure.ts.  A script says how each call of hub.broadcast ends.
 */
module Consumer {
  import opened Common

  datatype Event = Event(messageId: string, conversationId: string, seqNo: Option<int>)
  datatype Pending = Pending(redisId: string, event: Event)

  datatype Outcome = Fine | Permanent | Transient
  type Script = nat -> Outcome

  const MAX_QUEUE := 100

  function SeqOf(e: Event): int {
    if e.seqNo.Some? then e.seqNo.value else 0
  }

  // ----- the bounded queue -----------------------------------------------------------------------------------------

  datatype DropPolicy = DropNew | DropOld

  function Pushed(q: seq<Event>, max: nat, policy: DropPolicy, item: Event): seq<Event> {
    if |q| < max then q + [item]
    else if policy.DropNew? then q
    else (if q == [] then q else q[1..]) + [item]
  }

  /** Every event that reached the hub without an error, and how often the hub was called. */
  datatype Sent = Sent(log: seq<Event>, calls: nat)

  /** Each queued item sends the envelope of the event at hand; the item goes only when the hub did not throw. */
  function Drained(q: seq<Event>, envelope: Event, sent: Sent, script: Script): (seq<Event>, Sent, Outcome) {
    if q == [] then (q, sent, Fine)
    else if script(sent.calls).Fine? then
      Drained(q[1..], envelope, Sent(sent.log + [envelope], sent.calls + 1), script)
    else (q, Sent(sent.log, sent.calls + 1), script(sent.calls))
  }

  class Hub {
    const script: Script
    var log: seq<Event>
    var calls: nat

    ghost function So(): Sent
      reads this
    {
      Sent(log, calls)
    }

    constructor (script: Script)
      ensures this.script == script && So() == Sent([], 0)
    {
      this.script, log, calls := script, [], 0;
    }

    method Broadcast(envelope: Event) returns (outcome: Outcome)
      modifies this
      ensures outcome == script(old(calls)) && calls == old(calls) + 1
      ensures log == old(log) + if outcome.Fine? then [envelope] else []
    {
      outcome := script(calls);
      calls := calls + 1;
      if outcome.Fine? {
        log := log + [envelope];
      }
    }
  }

  class BoundedQueue {
    const maxQueue: nat
    const dropPolicy: DropPolicy
    var queue: seq<Event>

    constructor (maxQueue: nat, dropPolicy: DropPolicy)
      ensures this.maxQueue == maxQueue && this.dropPolicy == dropPolicy && queue == []
    {
      this.maxQueue, this.dropPolicy, queue := maxQueue, dropPolicy, [];
    }

    method Push(item: Event) returns (accepted: bool)
      modifies this
      ensures queue == Pushed(old(queue), maxQueue, dropPolicy, item)
      ensures accepted <==> |old(queue)| < maxQueue || dropPolicy.DropOld?
    {
      if |queue| < maxQueue {
        queue := queue + [item];
        return true;
      }
      if dropPolicy.DropNew? {
        return false;
      }
      queue := (if queue == [] then queue else queue[1..]) + [item];
      return true;
    }

    /** drain, with the sender that the consumer passes: it broadcasts, answers true, or throws. */
    method Drain(hub: Hub, envelope: Event) returns (outcome: Outcome)
      modifies this, hub
      ensures (queue, hub.So(), outcome) == Drained(old(queue), envelope, old(hub.So()), hub.script)
    {
      while |queue| > 0
        invariant Drained(queue, envelope, hub.So(), hub.script) ==
                  Drained(old(queue), envelope, old(hub.So()), hub.script)
        decreases |queue|
      {
        ghost var before := hub.So();
        outcome := hub.Broadcast(envelope);
        if !outcome.Fine? {
          assert hub.So() == Sent(before.log, before.calls + 1);
          return;
        }
        queue := queue[1..];
      }
      outcome := Fine;
    }
  }

  // ----- the consumer's steps --------------------------------------------------------------------------------------

  datatype State = State(seen: set<string>, buffers: map<string, seq<Pending>>, queues: map<string, seq<Event>>,
                         sent: Sent)

  function QueueOf(s: State, conversation: string): seq<Event> {
    if conversation in s.queues then s.queues[conversation] else []
  }

  function BufferOf(s: State, conversation: string): seq<Pending> {
    if conversation in s.buffers then s.buffers[conversation] else []
  }

  function BroadcastEvent(s: State, e: Event, script: Script): (State, Outcome) {
    if e.messageId in s.seen then (s, Fine)
    else
      var q := Pushed(QueueOf(s, e.conversationId), MAX_QUEUE, DropOld, e);
      var (left, sent, outcome) := Drained(q, e, s.sent, script);
      (State(if outcome.Fine? then s.seen + {e.messageId} else s.seen, s.buffers,
             s.queues[e.conversationId := left], sent), outcome)
  }

  /** Stable: behind everything with no greater seq. */
  function Insert(sorted: seq<Pending>, p: Pending): seq<Pending> {
    if sorted == [] || SeqOf(sorted[|sorted| - 1].event) <= SeqOf(p.event) then sorted + [p]
    else Insert(sorted[..|sorted| - 1], p) + [sorted[|sorted| - 1]]
  }

  function Sort(buffer: seq<Pending>): seq<Pending> {
    if buffer == [] then [] else Insert(Sort(buffer[..|buffer| - 1]), buffer[|buffer| - 1])
  }

  /** How far a pass has come: the ids acknowledged so far, and whether a transient failure has ended it. */
  datatype Pass = Pass(state: State, acked: seq<string>, ended: bool)

  function PassOver(s: State, sorted: seq<Pending>, script: Script): Pass {
    if sorted == [] then Pass(s, [], false)
    else
      var pass := PassOver(s, sorted[..|sorted| - 1], script);
      var pending := sorted[|sorted| - 1];
      if pass.ended then pass
      else
        var (after, outcome) := BroadcastEvent(pass.state, pending.event, script);
        if outcome.Transient? then Pass(after, pass.acked, true)
        else Pass(after, pass.acked + [pending.redisId], false)
  }

  function Unacked(buffer: seq<Pending>, acked: seq<string>): seq<Pending> {
    if buffer == [] then []
    else
      Unacked(buffer[..|buffer| - 1], acked) +
      if buffer[|buffer| - 1].redisId in acked then [] else [buffer[|buffer| - 1]]
  }

  function ProcessBuffer(s: State, conversation: string, script: Script): State {
    var buffer := BufferOf(s, conversation);
    if buffer == [] then s
    else
      var sorted := Sort(buffer);
      var pass := PassOver(s, sorted, script);
      pass.state.(buffers := s.buffers[conversation := Unacked(sorted, pass.acked)])
  }

  function Receive(s: State, p: Pending): State {
    s.(buffers := s.buffers[p.event.conversationId := BufferOf(s, p.event.conversationId) + [p]])
  }

  // ----- the consumer as an object ---------------------------------------------------------------------------------

  class StreamConsumer {
    const hub: Hub
    var seenMessageIds: set<string>
    var conversationBuffers: map<string, seq<Pending>>
    var convoQueues: map<string, BoundedQueue>

    ghost predicate Valid()
      reads this, convoQueues.Values
    {
      && (forall c :: c in convoQueues ==> convoQueues[c].maxQueue == MAX_QUEUE && convoQueues[c].dropPolicy == DropOld)
      && forall c, d :: c in convoQueues && d in convoQueues && c != d ==> convoQueues[c] != convoQueues[d]
    }

    ghost function So(): State
      reads this, hub, convoQueues.Values
    {
      State(seenMessageIds, conversationBuffers, map c | c in convoQueues :: convoQueues[c].queue, hub.So())
    }

    constructor (hub: Hub)
      ensures this.hub == hub && Valid() && So() == State({}, map[], map[], hub.So())
    {
      this.hub, seenMessageIds, conversationBuffers, convoQueues := hub, {}, map[], map[];
    }

    method GetQueue(conversationId: string) returns (q: BoundedQueue)
      requires Valid()
      modifies this`convoQueues
      ensures Valid() && conversationId in convoQueues && convoQueues[conversationId] == q
      ensures So() == Opened(old(So()), conversationId)
      ensures fresh(convoQueues.Values - old(convoQueues.Values))
    {
      if conversationId in convoQueues {
        q := convoQueues[conversationId];
        assert So() == Opened(So(), conversationId);
      } else {
        q := AddQueue(conversationId);
      }
    }

    method AddQueue(conversationId: string) returns (q: BoundedQueue)
      requires Valid() && conversationId !in convoQueues
      modifies this`convoQueues
      ensures Valid() && fresh(q) && convoQueues == old(convoQueues)[conversationId := q]
      ensures So() == old(So()).(queues := old(So()).queues[conversationId := []])
    {
      q := new BoundedQueue(MAX_QUEUE, DropOld);
      convoQueues := convoQueues[conversationId := q];
      assert So().queues == old(So()).queues[conversationId := []];
    }

    /** Push and drain, on the queue and the hub alone. */
    method PushAndDrain(q: BoundedQueue, event: Event) returns (outcome: Outcome)
      requires q.maxQueue == MAX_QUEUE && q.dropPolicy == DropOld
      modifies q, hub
      ensures (q.queue, hub.So(), outcome) ==
              Drained(Pushed(old(q.queue), MAX_QUEUE, DropOld, event), event, old(hub.So()), hub.script)
    {
      hide Drained, Pushed;
      var accepted := q.Push(event);
      outcome := q.Drain(hub, event);
    }

    method SendThrough(q: BoundedQueue, event: Event) returns (outcome: Outcome)
      requires Valid() && event.conversationId in convoQueues && convoQueues[event.conversationId] == q
      requires event.messageId !in seenMessageIds
      modifies q, hub, this`seenMessageIds
      ensures Valid() && (So(), outcome) == BroadcastEvent(old(So()), event, hub.script)
    {
      hide Drained, Pushed, BroadcastEvent;
      ghost var was := So();
      outcome := PushAndDrain(q, event);
      BroadcastParts(was, event, hub.script, q.queue, hub.So(), outcome);
      if outcome.Fine? {
        seenMessageIds := seenMessageIds + {event.messageId};
      }
      assert So().queues == was.queues[event.conversationId := q.queue];
    }

    method Broadcast(event: Event) returns (outcome: Outcome)
      requires Valid()
      modifies this, hub, convoQueues.Values
      ensures Valid() && (So(), outcome) == BroadcastEvent(old(So()), event, hub.script)
      ensures fresh(convoQueues.Values - old(convoQueues.Values)) && conversationBuffers == old(conversationBuffers)
    {
      hide BroadcastEvent;
      ghost var was := So();
      if event.messageId in seenMessageIds {
        BroadcastTwice(was, event, hub.script);
        return Fine;
      }
      var q := GetQueue(event.conversationId);
      OpeningIsInvisible(was, event, hub.script);
      BroadcastLeavesBuffers(was, event, hub.script);
      outcome := SendThrough(q, event);
    }

    /** The loop of processBuffer over the sorted buffer. */
    method BroadcastAll(buffer: seq<Pending>) returns (acked: seq<string>, ended: bool)
      requires Valid()
      modifies this, hub, convoQueues.Values
      ensures Valid() && conversationBuffers == old(conversationBuffers)
      ensures PassOver(old(So()), buffer, hub.script) == Pass(So(), acked, ended)
    {
      hide BroadcastEvent, PassOver;
      ghost var before := So();
      acked, ended := [], false;
      var i := 0;
      PassOfNone(before, buffer, hub.script);
      while i < |buffer| && !ended
        invariant 0 <= i <= |buffer| && Valid() && fresh(convoQueues.Values - old(convoQueues.Values))
        invariant PassOver(before, buffer[..i], hub.script) == Pass(So(), acked, ended)
        invariant conversationBuffers == old(conversationBuffers)
      {
        PassGoesOn(before, buffer, i, hub.script);
        var outcome := Broadcast(buffer[i].event);
        if outcome.Transient? {
          ended := true;
        } else {
          acked := acked + [buffer[i].redisId];
        }
        i := i + 1;
      }
      EndedStaysEnded(before, buffer, i, hub.script);
    }

    method Process(conversationId: string) returns (acked: seq<string>)
      requires Valid()
      modifies this, hub, convoQueues.Values
      ensures Valid() && So() == ProcessBuffer(old(So()), conversationId, hub.script)
      ensures var buffer := BufferOf(old(So()), conversationId);
              acked == PassOver(old(So()), Sort(buffer), hub.script).acked
    {
      acked := [];
      if conversationId !in conversationBuffers || conversationBuffers[conversationId] == [] {
        return;
      }
      hide BroadcastEvent, Sort, Unacked, PassOver;
      var buffer, ended := Sort(conversationBuffers[conversationId]), false;
      acked, ended := BroadcastAll(buffer);
      conversationBuffers := conversationBuffers[conversationId := Unacked(buffer, acked)];
    }
  }

  lemma PassOfNone(s: State, sorted: seq<Pending>, script: Script)
    ensures PassOver(s, sorted[..0], script) == Pass(s, [], false)
  {
  }

  lemma PassGoesOn(s: State, sorted: seq<Pending>, i: nat, script: Script)
    requires i < |sorted| && !PassOver(s, sorted[..i], script).ended
    ensures var pass := PassOver(s, sorted[..i], script);
            var (after, outcome) := BroadcastEvent(pass.state, sorted[i].event, script);
            PassOver(s, sorted[..i + 1], script) ==
            if outcome.Transient? then Pass(after, pass.acked, true)
            else Pass(after, pass.acked + [sorted[i].redisId], false)
  {
    hide BroadcastEvent;
    assert sorted[..i + 1][..i] == sorted[..i];
  }

  function Opened(s: State, conversation: string): State {
    s.(queues := s.queues[conversation := QueueOf(s, conversation)])
  }

  /** Making the queue on first use changes nothing else. */
  lemma OpeningIsInvisible(s: State, e: Event, script: Script)
    requires e.messageId !in s.seen
    ensures BroadcastEvent(Opened(s, e.conversationId), e, script) == BroadcastEvent(s, e, script)
  {
    hide Drained, Pushed;
    var left := Drained(Pushed(QueueOf(s, e.conversationId), MAX_QUEUE, DropOld, e), e, s.sent, script).0;
    assert Opened(s, e.conversationId).queues[e.conversationId := left] == s.queues[e.conversationId := left];
  }

  lemma BroadcastLeavesBuffers(s: State, e: Event, script: Script)
    ensures BroadcastEvent(s, e, script).0.buffers == s.buffers
  {
    hide Drained, Pushed;
  }

  lemma BroadcastTwice(s: State, e: Event, script: Script)
    requires e.messageId in s.seen
    ensures BroadcastEvent(s, e, script) == (s, Fine)
  {
  }

  lemma BroadcastParts(s: State, e: Event, script: Script, left: seq<Event>, sent: Sent, outcome: Outcome)
    requires e.messageId !in s.seen
    requires (left, sent, outcome) ==
             Drained(Pushed(QueueOf(s, e.conversationId), MAX_QUEUE, DropOld, e), e, s.sent, script)
    ensures BroadcastEvent(s, e, script) ==
            (State(if outcome.Fine? then s.seen + {e.messageId} else s.seen, s.buffers,
                   s.queues[e.conversationId := left], sent),
             outcome)
  {
  }

  lemma {:induction false} EndedStaysEnded(s: State, sorted: seq<Pending>, i: nat, script: Script)
    requires i <= |sorted| && (i == |sorted| || PassOver(s, sorted[..i], script).ended)
    ensures PassOver(s, sorted, script) == PassOver(s, sorted[..i], script)
  {
    if i < |sorted| {
      assert sorted[..|sorted| - 1][..i] == sorted[..i];
      EndedStaysEnded(s, sorted[..|sorted| - 1], i, script);
    } else {
      assert sorted[..i] == sorted;
    }
  }

  // ----- sorting ---------------------------------------------------------------------------------------------------

  ghost predicate Ascending(s: seq<Pending>) {
    forall i, j :: 0 <= i < j < |s| ==> SeqOf(s[i].event) <= SeqOf(s[j].event)
  }

  lemma {:induction false} InsertAdds(sorted: seq<Pending>, p: Pending)
    ensures multiset(Insert(sorted, p)) == multiset(sorted) + multiset{p}
  {
    if sorted != [] && SeqOf(sorted[|sorted| - 1].event) > SeqOf(p.event) {
      InsertAdds(sorted[..|sorted| - 1], p);
      assert sorted == sorted[..|sorted| - 1] + [sorted[|sorted| - 1]];
    }
  }

  lemma {:induction false} InsertMembers(sorted: seq<Pending>, p: Pending, q: Pending)
    requires q in Insert(sorted, p)
    ensures q in sorted || q == p
  {
    if sorted != [] && SeqOf(sorted[|sorted| - 1].event) > SeqOf(p.event) && q != sorted[|sorted| - 1] {
      InsertMembers(sorted[..|sorted| - 1], p, q);
    }
  }

  lemma AppendGreatest(s: seq<Pending>, last: Pending)
    requires Ascending(s) && forall q :: q in s ==> SeqOf(q.event) <= SeqOf(last.event)
    ensures Ascending(s + [last])
  {
  }

  lemma AscendingFront(s: seq<Pending>)
    requires Ascending(s) && s != []
    ensures Ascending(s[..|s| - 1]) && forall q :: q in s ==> SeqOf(q.event) <= SeqOf(s[|s| - 1].event)
  {
  }

  lemma {:induction false} InsertSorts(sorted: seq<Pending>, p: Pending)
    requires Ascending(sorted)
    ensures Ascending(Insert(sorted, p))
  {
    if sorted == [] {
    } else {
      hide Ascending;
      var front, last := sorted[..|sorted| - 1], sorted[|sorted| - 1];
      AscendingFront(sorted);
      if SeqOf(last.event) <= SeqOf(p.event) {
        AppendGreatest(sorted, p);
      } else {
        InsertSorts(front, p);
        forall q | q in Insert(front, p) ensures SeqOf(q.event) <= SeqOf(last.event) {
          InsertMembers(front, p, q);
          assert q in front ==> q in sorted;
        }
        AppendGreatest(Insert(front, p), last);
      }
    }
  }

  /** In order of seq, and nothing lost. */
  lemma {:induction false} SortSorts(buffer: seq<Pending>)
    ensures Ascending(Sort(buffer)) && multiset(Sort(buffer)) == multiset(buffer)
  {
    if buffer != [] {
      hide Insert, Ascending;
      SortSorts(buffer[..|buffer| - 1]);
      InsertSorts(Sort(buffer[..|buffer| - 1]), buffer[|buffer| - 1]);
      InsertAdds(Sort(buffer[..|buffer| - 1]), buffer[|buffer| - 1]);
      assert buffer == buffer[..|buffer| - 1] + [buffer[|buffer| - 1]];
    }
  }

  /** A pass takes numbered events in order, and those without a number where the number 0 would stand. */
  lemma UnnumberedCountAsZero(buffer: seq<Pending>, i: nat, j: nat)
    requires i < j < |Sort(buffer)|
    ensures match (Sort(buffer)[i].event.seqNo, Sort(buffer)[j].event.seqNo)
            case (Some(m), Some(n)) => m <= n
            case (None, Some(n)) => 0 <= n
            case (Some(m), None) => m <= 0
            case (None, None) => true
  {
    SortSorts(buffer);
    hide Sort;
  }

  // ----- what a queue keeps ----------------------------------------------------------------------------------------

  function PushedAll(q: seq<Event>, max: nat, policy: DropPolicy, items: seq<Event>): seq<Event> {
    if items == [] then q
    else Pushed(PushedAll(q, max, policy, items[..|items| - 1]), max, policy, items[|items| - 1])
  }

  lemma {:induction false} DropNewKeeps(max: nat, items: seq<Event>)
    ensures PushedAll([], max, DropNew, items) == items[..Min(max, |items|)]
  {
    if items != [] {
      var n := |items| - 1;
      DropNewKeeps(max, items[..n]);
      assert n < max ==> items[..n] + [items[n]] == items[..|items|] && items[..n][..n] == items[..n];
      assert n >= max ==> items[..n][..max] == items[..max];
    }
  }

  lemma {:induction false} DropOldKeeps(max: nat, items: seq<Event>)
    ensures PushedAll([], max, DropOld, items) == items[|items| - Min(Max(1, max), |items|)..]
  {
    if items != [] {
      var n := |items| - 1;
      DropOldKeeps(max, items[..n]);
      var kept := PushedAll([], max, DropOld, items[..n]);
      assert PushedAll([], max, DropOld, items) == Pushed(kept, max, DropOld, items[n]);
      hide PushedAll;
      SuffixOfMore(items, n - Min(Max(1, max), n));
    }
  }

  lemma SuffixOfMore(items: seq<Event>, cut: nat)
    requires cut < |items|
    ensures var n := |items| - 1;
            items[..n][cut..] + [items[n]] == items[cut..] &&
            (cut < n ==> items[..n][cut..][1..] + [items[n]] == items[cut + 1..])
  {
  }

  /**
   A queue that nobody drains keeps the oldest of what is pushed when it drops the new, and the newest when it drops the
   old: as many as it is allowed, and even then one when it drops the old and is allowed none.
   */
  lemma QueueKeeps(max: nat, policy: DropPolicy, items: seq<Event>)
    ensures PushedAll([], max, policy, items) ==
            if policy.DropNew? then items[..Min(max, |items|)] else items[|items| - Min(Max(1, max), |items|)..]
  {
    DropNewKeeps(max, items);
    DropOldKeeps(max, items);
  }

  // ----- one broadcast ---------------------------------------------------------------------------------------------

  function Copies(e: Event, n: nat): seq<Event> {
    if n == 0 then [] else Copies(e, n - 1) + [e]
  }

  /** A drain sends copies of one envelope: one for each item that goes. */
  lemma {:induction false} DrainSends(q: seq<Event>, envelope: Event, sent: Sent, script: Script)
    ensures var (left, after, outcome) := Drained(q, envelope, sent, script);
            && |left| <= |q| && (outcome.Fine? <==> left == [])
            && after.log == sent.log + Copies(envelope, |q| - |left|)
            && after.calls >= sent.calls
  {
    if q != [] && script(sent.calls).Fine? {
      DrainSends(q[1..], envelope, Sent(sent.log + [envelope], sent.calls + 1), script);
      var (left, after, outcome) := Drained(q, envelope, sent, script);
      CopiesShift(envelope, |q| - |left|);
    }
  }

  lemma {:induction false} CopiesShift(e: Event, n: nat)
    requires n >= 1
    ensures Copies(e, n) == [e] + Copies(e, n - 1)
  {
    if n > 1 {
      CopiesShift(e, n - 1);
    }
  }

  lemma {:induction false} CopiesAre(e: Event, n: nat)
    ensures |Copies(e, n)| == n && forall i :: 0 <= i < n ==> Copies(e, n)[i] == e
  {
    if n > 0 {
      CopiesAre(e, n - 1);
    }
  }

  function PushedTo(s: State, e: Event): seq<Event> {
    Pushed(QueueOf(s, e.conversationId), MAX_QUEUE, DropOld, e)
  }

  /** What one broadcast adds to the log; a queue is never empty when it is drained. */
  lemma BroadcastSends(s: State, e: Event, script: Script) returns (n: nat)
    ensures var (after, outcome) := BroadcastEvent(s, e, script);
            && after.sent.log == s.sent.log + Copies(e, n)
            && (if e.messageId in s.seen then n == 0 else outcome.Fine? ==> n == |PushedTo(s, e)| >= 1)
            && after.buffers == s.buffers
            && after.seen == (if outcome.Fine? then s.seen + {e.messageId} else s.seen)
            && (outcome.Fine? && e.messageId !in s.seen ==> QueueOf(after, e.conversationId) == [])
            && (forall c :: c != e.conversationId ==> QueueOf(after, c) == QueueOf(s, c))
  {
    n := 0;
    if e.messageId in s.seen {
      assert s.seen == s.seen + {e.messageId};
    } else {
      hide Drained, Pushed;
      var q := PushedTo(s, e);
      DrainSends(q, e, s.sent, script);
      PushedHolds(QueueOf(s, e.conversationId), e);
      var (left, sent, outcome) := Drained(q, e, s.sent, script);
      BroadcastParts(s, e, script, left, sent, outcome);
      n := |q| - |left|;
    }
  }

  lemma PushedHolds(q: seq<Event>, e: Event)
    ensures |Pushed(q, MAX_QUEUE, DropOld, e)| >= 1
    ensures |Pushed(q, MAX_QUEUE, DropOld, e)| == 1 <==> q == []
  {
  }

  /**
   An event that is done has been broadcast once exactly when its conversation's queue was empty before.  A failed
   broadcast leaves the queue filled, and the next event is then broadcast once for every item in it.
   */
  lemma OnceIffQueueWasEmpty(s: State, e: Event, script: Script)
    requires e.messageId !in s.seen && BroadcastEvent(s, e, script).1.Fine?
    ensures BroadcastEvent(s, e, script).0.sent.log == s.sent.log + [e] <==> QueueOf(s, e.conversationId) == []
  {
    hide BroadcastEvent, Copies, Pushed;
    var n := BroadcastSends(s, e, script);
    PushedHolds(QueueOf(s, e.conversationId), e);
    CopiesAre(e, n);
    var log := BroadcastEvent(s, e, script).0.sent.log;
    assert |log| == |s.sent.log| + n;
    assert n == 1 ==> Copies(e, n) == [e];
  }

  function AllBroadcast(s: State, es: seq<Event>, script: Script): State {
    if es == [] then s else BroadcastEvent(AllBroadcast(s, es[..|es| - 1], script), es[|es| - 1], script).0
  }

  lemma FailedBroadcastWaits(s: State, e: Event, script: Script)
    requires e.messageId !in s.seen && !script(s.sent.calls).Fine?
    ensures var t := BroadcastEvent(s, e, script).0;
            && t.seen == s.seen && t.sent.log == s.sent.log && t.sent.calls == s.sent.calls + 1
            && QueueOf(t, e.conversationId) == Pushed(QueueOf(s, e.conversationId), 100, DropOld, e)
  {
    PushedHolds(QueueOf(s, e.conversationId), e);
    hide Pushed;
  }

  /** While the hub refuses everything, a conversation's queue keeps the newest hundred of its events, and no more. */
  lemma {:induction false} RefusedEventsWait(s: State, conversation: string, es: seq<Event>, script: Script)
    requires QueueOf(s, conversation) == []
    requires forall i :: 0 <= i < |es| ==>
               es[i].conversationId == conversation && es[i].messageId !in s.seen &&
               !script(s.sent.calls + i).Fine?
    ensures var t := AllBroadcast(s, es, script);
            && t.seen == s.seen && t.sent.log == s.sent.log && t.sent.calls == s.sent.calls + |es|
            && QueueOf(t, conversation) == es[|es| - Min(100, |es|)..]
  {
    hide BroadcastEvent, Pushed;
    RefusedQueue(s, conversation, es, script);
    QueueKeeps(100, DropOld, es);
  }

  lemma {:induction false} RefusedQueue(s: State, conversation: string, es: seq<Event>, script: Script)
    requires QueueOf(s, conversation) == []
    requires forall i :: 0 <= i < |es| ==>
               es[i].conversationId == conversation && es[i].messageId !in s.seen &&
               !script(s.sent.calls + i).Fine?
    ensures var t := AllBroadcast(s, es, script);
            && t.seen == s.seen && t.sent.log == s.sent.log && t.sent.calls == s.sent.calls + |es|
            && QueueOf(t, conversation) == PushedAll([], 100, DropOld, es)
  {
    hide BroadcastEvent, Pushed;
    if es != [] {
      var n := |es| - 1;
      RefusedQueue(s, conversation, es[..n], script);
      FailedBroadcastWaits(AllBroadcast(s, es[..n], script), es[n], script);
    }
  }

  // ----- one pass --------------------------------------------------------------------------------------------------

  function Ids(pendings: seq<Pending>): seq<string> {
    if pendings == [] then [] else Ids(pendings[..|pendings| - 1]) + [pendings[|pendings| - 1].redisId]
  }

  lemma IdsAppend(pendings: seq<Pending>, p: Pending)
    ensures Ids(pendings + [p]) == Ids(pendings) + [p.redisId]
  {
    assert (pendings + [p])[..|pendings|] == pendings;
  }

  predicate Among(e: Event, pendings: seq<Pending>) {
    exists h :: 0 <= h < |pendings| && pendings[h].event == e
  }

  lemma AmongMore(e: Event, front: seq<Pending>, last: Pending)
    ensures Among(e, front + [last]) <==> Among(e, front) || e == last.event
  {
    var pendings := front + [last];
    assert pendings[|front|] == last;
    assert forall h :: 0 <= h < |front| ==> pendings[h] == front[h];
  }

  /** From `start` on the log rises, and holds events of the first pendings only. */
  ghost predicate Rises(log: seq<Event>, start: nat, pendings: seq<Pending>) {
    && (forall i, j :: start <= i < j < |log| ==> SeqOf(log[i]) <= SeqOf(log[j]))
    && (forall i :: start <= i < |log| ==> Among(log[i], pendings))
  }

  lemma RisesOn(log: seq<Event>, start: nat, front: seq<Pending>, last: Pending, n: nat)
    requires start <= |log| && Rises(log, start, front) && Ascending(front + [last])
    ensures Rises(log + Copies(last.event, n), start, front + [last])
  {
    var log', pendings := log + Copies(last.event, n), front + [last];
    CopiesAre(last.event, n);
    forall i | start <= i < |log'| ensures Among(log'[i], pendings) && SeqOf(log'[i]) <= SeqOf(last.event) {
      AmongMore(log'[i], front, last);
      if i < |log| {
        LastIsGreatest(log[i], front, last);
      } else {
        assert log'[i] == Copies(last.event, n)[i - |log|];
      }
    }
    forall i, j | start <= i < j < |log'| ensures SeqOf(log'[i]) <= SeqOf(log'[j]) {
      if j >= |log| {
        assert log'[j] == Copies(last.event, n)[j - |log|];
      }
    }
  }

  lemma LastIsGreatest(e: Event, front: seq<Pending>, last: Pending)
    requires Among(e, front) && Ascending(front + [last])
    ensures SeqOf(e) <= SeqOf(last.event)
  {
    var h :| 0 <= h < |front| && front[h].event == e;
    assert (front + [last])[h] == front[h] && (front + [last])[|front|] == last;
  }

  lemma RisesMore(log: seq<Event>, start: nat, front: seq<Pending>, last: Pending)
    requires Rises(log, start, front)
    ensures Rises(log, start, front + [last])
  {
    forall i | start <= i < |log| ensures Among(log[i], front + [last]) {
      AmongMore(log[i], front, last);
    }
  }

  /** A pass acknowledges a prefix, and all of it unless a transient failure ends it. */
  lemma {:induction false} PassAcks(s: State, sorted: seq<Pending>, script: Script)
    ensures var pass := PassOver(s, sorted, script);
            && |pass.acked| <= |sorted| && pass.acked == Ids(sorted[..|pass.acked|])
            && (!pass.ended ==> |pass.acked| == |sorted|)
            && pass.state.buffers == s.buffers
  {
    if sorted != [] {
      hide Ids, BroadcastEvent;
      var front, last := sorted[..|sorted| - 1], sorted[|sorted| - 1];
      PassAcks(s, front, script);
      var pass := PassOver(s, front, script);
      assert sorted == front + [last];
      IdsAppend(front, last);
      assert sorted[..|pass.acked|] == front[..|pass.acked|];
      if !pass.ended {
        var n := BroadcastSends(pass.state, last.event, script);
        assert front[..|front|] == front && sorted[..|sorted|] == sorted;
      }
    }
  }

  ghost predicate LogGrows(s: State, t: State) {
    |t.sent.log| >= |s.sent.log| && t.sent.log[..|s.sent.log|] == s.sent.log && s.seen <= t.seen
  }

  /** A pass broadcasts in order of seq. */
  lemma {:induction false} PassRises(s: State, sorted: seq<Pending>, script: Script)
    requires Ascending(sorted)
    ensures var pass := PassOver(s, sorted, script);
            LogGrows(s, pass.state) && Rises(pass.state.sent.log, |s.sent.log|, sorted)
  {
    if sorted != [] {
      var front, last := sorted[..|sorted| - 1], sorted[|sorted| - 1];
      PassRises(s, front, script);
      hide Rises, Ascending, BroadcastEvent, Copies, Pushed, QueueOf;
      var pass := PassOver(s, front, script);
      assert sorted == front + [last];
      if pass.ended {
        RisesMore(pass.state.sent.log, |s.sent.log|, front, last);
      } else {
        var n := BroadcastSends(pass.state, last.event, script);
        RisesOn(pass.state.sent.log, |s.sent.log|, front, last, n);
      }
    }
  }

  // ----- what has been seen has been broadcast ---------------------------------------------------------------------

  predicate Logged(log: seq<Event>, id: string) {
    exists i :: 0 <= i < |log| && log[i].messageId == id
  }

  ghost predicate SeenIsSent(s: State) {
    forall id :: id in s.seen ==> Logged(s.sent.log, id)
  }

  lemma LoggedMore(log: seq<Event>, e: Event, n: nat, id: string)
    ensures Logged(log + Copies(e, n), id) <==> Logged(log, id) || (n >= 1 && id == e.messageId)
  {
    CopiesAre(e, n);
    var log' := log + Copies(e, n);
    assert forall i :: 0 <= i < |log| ==> log'[i] == log[i];
    assert forall i :: |log| <= i < |log'| ==> log'[i] == Copies(e, n)[i - |log|];
    assert n >= 1 ==> log'[|log|] == e;
  }

  lemma BroadcastKeepsSeenSent(s: State, e: Event, script: Script)
    requires SeenIsSent(s)
    ensures SeenIsSent(BroadcastEvent(s, e, script).0)
  {
    hide BroadcastEvent, Logged;
    var n := BroadcastSends(s, e, script);
    var after := BroadcastEvent(s, e, script).0;
    forall id | id in after.seen ensures Logged(after.sent.log, id) {
      LoggedMore(s.sent.log, e, n, id);
    }
  }

  ghost predicate NeverPermanent(script: Script) {
    forall n :: script(n) != Permanent
  }

  lemma {:induction false} DrainOutcome(q: seq<Event>, envelope: Event, sent: Sent, script: Script)
    ensures Drained(q, envelope, sent, script).2.Fine? || exists n :: script(n) == Drained(q, envelope, sent, script).2
  {
    if q != [] && script(sent.calls).Fine? {
      DrainOutcome(q[1..], envelope, Sent(sent.log + [envelope], sent.calls + 1), script);
    }
  }

  lemma NoPermanentOutcome(s: State, e: Event, script: Script)
    requires NeverPermanent(script)
    ensures !BroadcastEvent(s, e, script).1.Permanent?
  {
    DrainOutcome(PushedTo(s, e), e, s.sent, script);
  }

  lemma {:induction false} PassKeepsSeenSent(s: State, sorted: seq<Pending>, script: Script)
    requires SeenIsSent(s)
    ensures SeenIsSent(PassOver(s, sorted, script).state)
  {
    if sorted != [] {
      hide BroadcastEvent, SeenIsSent;
      PassKeepsSeenSent(s, sorted[..|sorted| - 1], script);
      BroadcastKeepsSeenSent(PassOver(s, sorted[..|sorted| - 1], script).state, sorted[|sorted| - 1].event, script);
    }
  }

  /** With only transient failures, whatever a pass acknowledges has been broadcast. */
  lemma {:induction false} PassDelivers(s: State, sorted: seq<Pending>, script: Script)
    requires NeverPermanent(script)
    ensures var pass := PassOver(s, sorted, script);
            && |pass.acked| <= |sorted|
            && forall h :: 0 <= h < |pass.acked| ==> sorted[h].event.messageId in pass.state.seen
  {
    if sorted != [] {
      var front, last := sorted[..|sorted| - 1], sorted[|sorted| - 1];
      PassDelivers(s, front, script);
      PassAcks(s, front, script);
      var pass, after := PassOver(s, front, script), PassOver(s, sorted, script);
      NoPermanentOutcome(pass.state, last.event, script);
      SeenAfter(pass.state, last.event, script);
      LastOfPass(s, sorted, script);
      hide *;
      forall h | 0 <= h < |after.acked| ensures sorted[h].event.messageId in after.state.seen {
        assert h < |pass.acked| ==> sorted[h] == front[h];
      }
    }
  }

  lemma SeenAfter(s: State, e: Event, script: Script)
    ensures var (t, outcome) := BroadcastEvent(s, e, script);
            s.seen <= t.seen && (outcome.Fine? ==> e.messageId in t.seen)
  {
    hide Drained, Pushed;
  }

  lemma LastOfPass(s: State, sorted: seq<Pending>, script: Script)
    requires sorted != []
    ensures var pass, last := PassOver(s, sorted[..|sorted| - 1], script), sorted[|sorted| - 1];
            var (t, outcome) := BroadcastEvent(pass.state, last.event, script);
            PassOver(s, sorted, script) ==
            if pass.ended then pass
            else if outcome.Transient? then Pass(t, pass.acked, true)
            else Pass(t, pass.acked + [last.redisId], false)
  {
  }

  ghost predicate DistinctRedisIds(buffer: seq<Pending>) {
    forall i, j :: 0 <= i < j < |buffer| ==> buffer[i].redisId != buffer[j].redisId
  }

  lemma {:induction false} IdsMembers(pendings: seq<Pending>, id: string)
    ensures id in Ids(pendings) <==> exists h :: 0 <= h < |pendings| && pendings[h].redisId == id
  {
    if pendings != [] {
      IdsMembers(pendings[..|pendings| - 1], id);
    }
  }

  lemma UnackedAppend(front: seq<Pending>, last: Pending, acked: seq<string>)
    ensures Unacked(front + [last], acked) == Unacked(front, acked) + if last.redisId in acked then [] else [last]
  {
    assert (front + [last])[..|front|] == front;
  }

  /** A pending is among the first k by its id only if it stands there. */
  lemma AckedIffBefore(sorted: seq<Pending>, k: nat, i: nat)
    requires DistinctRedisIds(sorted) && k <= |sorted| && i < |sorted|
    ensures sorted[i].redisId in Ids(sorted[..k]) <==> i < k
  {
    hide Ids;
    IdsMembers(sorted[..k], sorted[i].redisId);
    assert i < k ==> sorted[..k][i] == sorted[i];
    assert forall h :: 0 <= h < k ==> sorted[..k][h] == sorted[h];
  }

  lemma {:induction false} UnackedIsRest(sorted: seq<Pending>, k: nat, upto: nat)
    requires DistinctRedisIds(sorted) && k <= |sorted| && upto <= |sorted|
    ensures Unacked(sorted[..upto], Ids(sorted[..k])) == if k <= upto then sorted[k..upto] else []
  {
    hide Unacked, Ids, DistinctRedisIds;
    if upto == 0 {
      assert sorted[..0] == [];
      NothingUnacked(Ids(sorted[..k]));
    } else {
      var front, last := sorted[..upto - 1], sorted[upto - 1];
      UnackedIsRest(sorted, k, upto - 1);
      assert sorted[..upto] == front + [last];
      UnackedAppend(front, last, Ids(sorted[..k]));
      AckedIffBefore(sorted, k, upto - 1);
      assert k < upto ==> sorted[k..upto] == sorted[k..upto - 1] + [last];
    }
  }

  lemma NothingUnacked(acked: seq<string>)
    ensures Unacked([], acked) == []
  {
  }

  lemma {:induction false} InsertKeepsRedisIds(sorted: seq<Pending>, p: Pending)
    requires DistinctRedisIds(sorted) && forall q :: q in sorted ==> q.redisId != p.redisId
    ensures DistinctRedisIds(Insert(sorted, p))
  {
    if sorted != [] && SeqOf(sorted[|sorted| - 1].event) > SeqOf(p.event) {
      var front, last := sorted[..|sorted| - 1], sorted[|sorted| - 1];
      InsertKeepsRedisIds(front, p);
      forall q | q in Insert(front, p) ensures q.redisId != last.redisId {
        InsertMembers(front, p, q);
      }
    }
  }

  lemma {:induction false} SortKeepsRedisIds(buffer: seq<Pending>)
    requires DistinctRedisIds(buffer)
    ensures DistinctRedisIds(Sort(buffer))
  {
    if buffer != [] {
      var front, last := buffer[..|buffer| - 1], buffer[|buffer| - 1];
      SortKeepsRedisIds(front);
      SortSorts(front);
      forall q | q in Sort(front) ensures q.redisId != last.redisId {
        assert q in multiset(front);
      }
      InsertKeepsRedisIds(Sort(front), last);
    }
  }

  /**
   One call of processBuffer.  The broadcasts come in order of seq; what stays buffered is the sorted buffer without a
   prefix; and with only transient failures every message of that prefix has been broadcast, now or before.
   */
  lemma ProcessBufferHolds(s: State, conversation: string, script: Script) returns (k: nat)
    requires SeenIsSent(s) && DistinctRedisIds(BufferOf(s, conversation))
    ensures var after, sorted := ProcessBuffer(s, conversation, script), Sort(BufferOf(s, conversation));
            && LogGrows(s, after) && Rises(after.sent.log, |s.sent.log|, sorted)
            && k <= |sorted| && BufferOf(after, conversation) == sorted[k..]
            && (NeverPermanent(script) ==> forall h :: 0 <= h < k ==> Logged(after.sent.log, sorted[h].event.messageId))
            && SeenIsSent(after)
  {
    var buffer := BufferOf(s, conversation);
    if buffer == [] {
      k := 0;
    } else {
      SortSorts(buffer);
      SortKeepsRedisIds(buffer);
      hide *;
      k := PassSettles(s, conversation, Sort(buffer), script);
      ProcessIsPass(s, conversation, script);
    }
  }

  function Settled(s: State, conversation: string, sorted: seq<Pending>, script: Script): State {
    var pass := PassOver(s, sorted, script);
    pass.state.(buffers := s.buffers[conversation := Unacked(sorted, pass.acked)])
  }

  lemma ProcessIsPass(s: State, conversation: string, script: Script)
    requires BufferOf(s, conversation) != []
    ensures ProcessBuffer(s, conversation, script) == Settled(s, conversation, Sort(BufferOf(s, conversation)), script)
  {
  }

  lemma PassSettles(s: State, conversation: string, sorted: seq<Pending>, script: Script) returns (k: nat)
    requires SeenIsSent(s) && DistinctRedisIds(sorted) && Ascending(sorted)
    ensures var after := Settled(s, conversation, sorted, script);
            && LogGrows(s, after) && Rises(after.sent.log, |s.sent.log|, sorted)
            && k <= |sorted| && BufferOf(after, conversation) == sorted[k..]
            && (NeverPermanent(script) ==> forall h :: 0 <= h < k ==> Logged(after.sent.log, sorted[h].event.messageId))
            && SeenIsSent(after)
  {
    PassAcks(s, sorted, script);
    PassRises(s, sorted, script);
    PassKeepsSeenSent(s, sorted, script);
    if NeverPermanent(script) {
      PassDelivers(s, sorted, script);
    }
    hide PassOver, Unacked, Rises, NeverPermanent, Ids, Logged, Ascending, DistinctRedisIds;
    var pass := PassOver(s, sorted, script);
    k := |pass.acked|;
    UnackedIsRest(sorted, k, |sorted|);
    assert sorted[..|sorted|] == sorted && sorted[k..|sorted|] == sorted[k..];
    var after := Settled(s, conversation, sorted, script);
    SeenSentFrame(pass.state, after);
    assert after.seen == pass.state.seen && after.sent == pass.state.sent;
  }

  // ----- a run in which the hub never throws -----------------------------------------------------------------------

  datatype Action = Arrive(pending: Pending) | Process(conversation: string)

  function Act(s: State, a: Action, script: Script): State {
    match a
    case Arrive(p) => Receive(s, p)
    case Process(c) => ProcessBuffer(s, c, script)
  }

  function Run(actions: seq<Action>, script: Script): State {
    if actions == [] then State({}, map[], map[], Sent([], 0))
    else Act(Run(actions[..|actions| - 1], script), actions[|actions| - 1], script)
  }

  ghost predicate AlwaysFine(script: Script) {
    forall n :: script(n) == Fine
  }

  /** Nothing waits in a queue, and the log is a list without repetition of what has been seen. */
  ghost predicate Calm(s: State) {
    && (forall c :: QueueOf(s, c) == [])
    && (forall i, j :: 0 <= i < j < |s.sent.log| ==> s.sent.log[i].messageId != s.sent.log[j].messageId)
    && (forall id :: id in s.seen <==> Logged(s.sent.log, id))
  }

  lemma {:induction false} DrainFine(q: seq<Event>, envelope: Event, sent: Sent, script: Script)
    requires AlwaysFine(script)
    ensures Drained(q, envelope, sent, script).2.Fine?
  {
    if q != [] {
      DrainFine(q[1..], envelope, Sent(sent.log + [envelope], sent.calls + 1), script);
    }
  }

  lemma BroadcastIsFine(s: State, e: Event, script: Script)
    requires AlwaysFine(script)
    ensures BroadcastEvent(s, e, script).1.Fine?
  {
    DrainFine(PushedTo(s, e), e, s.sent, script);
  }

  lemma BroadcastKeepsCalm(s: State, e: Event, script: Script)
    requires AlwaysFine(script) && Calm(s)
    ensures var (after, outcome) := BroadcastEvent(s, e, script);
            outcome.Fine? && Calm(after) && after.seen == s.seen + {e.messageId} && after.buffers == s.buffers
  {
    BroadcastIsFine(s, e, script);
    hide BroadcastEvent, Logged, AlwaysFine, Copies;
    var n := BroadcastSends(s, e, script);
    var after := BroadcastEvent(s, e, script).0;
    assert QueueOf(s, e.conversationId) == [];
    PushedHolds(QueueOf(s, e.conversationId), e);
    CopiesAre(e, n);
    forall id ensures id in after.seen <==> Logged(after.sent.log, id) {
      LoggedMore(s.sent.log, e, n, id);
    }
    forall c ensures QueueOf(after, c) == [] {
      if c == e.conversationId && e.messageId in s.seen {
        BroadcastTwice(s, e, script);
      }
    }
    if n == 1 {
      NewInLog(s.sent.log, e);
      assert Copies(e, 1) == [e];
    }
  }

  lemma NewInLog(log: seq<Event>, e: Event)
    requires forall i, j :: 0 <= i < j < |log| ==> log[i].messageId != log[j].messageId
    ensures !Logged(log, e.messageId) ==>
            forall i, j :: 0 <= i < j < |log + [e]| ==> (log + [e])[i].messageId != (log + [e])[j].messageId
  {
  }

  /** A pass that never fails acknowledges everything, and then has seen everything. */
  lemma {:induction false} CalmPass(s: State, sorted: seq<Pending>, script: Script)
    requires AlwaysFine(script) && Calm(s)
    ensures var pass := PassOver(s, sorted, script);
            && !pass.ended && Calm(pass.state) && s.seen <= pass.state.seen && pass.state.buffers == s.buffers
            && forall h :: 0 <= h < |sorted| ==> sorted[h].event.messageId in pass.state.seen
  {
    if sorted != [] {
      hide BroadcastEvent, Calm;
      CalmPass(s, sorted[..|sorted| - 1], script);
      BroadcastKeepsCalm(PassOver(s, sorted[..|sorted| - 1], script).state, sorted[|sorted| - 1].event, script);
    }
  }

  lemma AllUnacked(buffer: seq<Pending>)
    ensures Unacked(buffer, Ids(buffer)) == []
  {
    forall h | 0 <= h < |buffer| ensures buffer[h].redisId in Ids(buffer) {
      IdsMembers(buffer, buffer[h].redisId);
    }
    NoneUnacked(buffer, Ids(buffer));
  }

  lemma {:induction false} NoneUnacked(buffer: seq<Pending>, acked: seq<string>)
    requires forall h :: 0 <= h < |buffer| ==> buffer[h].redisId in acked
    ensures Unacked(buffer, acked) == []
  {
    if buffer != [] {
      NoneUnacked(buffer[..|buffer| - 1], acked);
    }
  }

  lemma CalmFrame(s: State, t: State)
    requires Calm(s) && t.seen == s.seen && t.sent == s.sent && t.queues == s.queues
    ensures Calm(t)
  {
    assert forall c :: QueueOf(t, c) == QueueOf(s, c);
  }

  lemma SortMembers(buffer: seq<Pending>, p: Pending)
    requires p in buffer
    ensures exists h :: 0 <= h < |Sort(buffer)| && Sort(buffer)[h] == p
  {
    SortSorts(buffer);
    assert p in multiset(Sort(buffer));
  }

  lemma CalmProcess(s: State, conversation: string, script: Script)
    requires AlwaysFine(script) && Calm(s)
    ensures var after := ProcessBuffer(s, conversation, script);
            && Calm(after) && s.seen <= after.seen && BufferOf(after, conversation) == []
            && (forall c :: c != conversation ==> BufferOf(after, c) == BufferOf(s, c))
            && (forall p :: p in BufferOf(s, conversation) ==> p.event.messageId in after.seen)
  {
    hide BroadcastEvent, Sort, PassOver, Unacked, Ids, Calm, AlwaysFine;
    var buffer := BufferOf(s, conversation);
    if buffer != [] {
      var sorted := Sort(buffer);
      var pass := PassOver(s, sorted, script);
      CalmPass(s, sorted, script);
      PassAcks(s, sorted, script);
      assert sorted[..|sorted|] == sorted;
      AllUnacked(sorted);
      CalmFrame(pass.state, ProcessBuffer(s, conversation, script));
      forall p | p in buffer ensures p.event.messageId in pass.state.seen {
        SortMembers(buffer, p);
      }
    }
  }

  /** Buffered or seen. */
  predicate Known(s: State, p: Pending) {
    p in BufferOf(s, p.event.conversationId) || p.event.messageId in s.seen
  }

  lemma ActKeepsKnown(s: State, a: Action, script: Script, p: Pending)
    requires AlwaysFine(script) && Calm(s)
    ensures Known(s, p) || a == Arrive(p) ==> Known(Act(s, a, script), p)
    ensures Known(s, p) && a == Process(p.event.conversationId) ==> p.event.messageId in Act(s, a, script).seen
    ensures p.event.messageId in s.seen ==> p.event.messageId in Act(s, a, script).seen
  {
    hide ProcessBuffer, Calm, AlwaysFine;
    match a
    case Arrive(q) =>
    case Process(c) => CalmProcess(s, c, script);
  }

  lemma CalmStart()
    ensures Calm(State({}, map[], map[], Sent([], 0)))
  {
  }

  lemma CalmReceive(s: State, p: Pending)
    requires Calm(s)
    ensures Calm(Receive(s, p))
  {
    CalmFrame(s, Receive(s, p));
  }

  lemma {:induction false} CalmRun(actions: seq<Action>, script: Script)
    requires AlwaysFine(script)
    ensures Calm(Run(actions, script))
  {
    hide ProcessBuffer, Receive, Calm, AlwaysFine;
    if actions == [] {
      CalmStart();
    } else {
      var s := Run(actions[..|actions| - 1], script);
      CalmRun(actions[..|actions| - 1], script);
      match actions[|actions| - 1]
      case Arrive(p) => CalmReceive(s, p);
      case Process(c) => CalmProcess(s, c, script);
    }
  }

  /** What arrived is buffered or seen, and once its conversation has been processed it is seen. */
  lemma {:induction false} ArrivedIsSeen(actions: seq<Action>, script: Script, i: nat)
    requires AlwaysFine(script) && i < |actions| && actions[i].Arrive?
    ensures var p, s := actions[i].pending, Run(actions, script);
            && Known(s, p)
            && ((exists j :: i < j < |actions| && actions[j] == Process(p.event.conversationId)) ==>
                p.event.messageId in s.seen)
  {
    hide Run, Act, Known, AlwaysFine, Calm;
    var front, last, p := actions[..|actions| - 1], actions[|actions| - 1], actions[i].pending;
    RunLast(actions, script);
    CalmRun(front, script);
    ActKeepsKnown(Run(front, script), last, script, p);
    if i < |front| {
      ArrivedIsSeen(front, script, i);
      assert forall j :: i < j < |front| ==> front[j] == actions[j];
    }
  }

  /**
   If the hub never throws, each message that has arrived and been processed is in the log once, whatever comes again.
   */
  lemma ExactlyOnce(actions: seq<Action>, script: Script, i: nat, j: nat) returns (n: nat)
    requires AlwaysFine(script) && i < j < |actions| && actions[i].Arrive?
    requires actions[j] == Process(actions[i].pending.event.conversationId)
    ensures var log, id := Run(actions, script).sent.log, actions[i].pending.event.messageId;
            n < |log| && log[n].messageId == id && forall m :: 0 <= m < |log| && log[m].messageId == id ==> m == n
  {
    hide Run;
    ArrivedIsSeen(actions, script, i);
    CalmRun(actions, script);
    var log, id := Run(actions, script).sent.log, actions[i].pending.event.messageId;
    assert Logged(log, id);
    n :| 0 <= n < |log| && log[n].messageId == id;
  }

  /** Whatever the hub does: what a run has marked as seen has been broadcast. */
  lemma {:induction false} RunKeepsSeenSent(actions: seq<Action>, script: Script)
    ensures SeenIsSent(Run(actions, script))
  {
    if actions != [] {
      RunKeepsSeenSent(actions[..|actions| - 1], script);
      hide SeenIsSent, PassOver, Sort, Unacked, Run;
      var s, last := Run(actions[..|actions| - 1], script), actions[|actions| - 1];
      RunLast(actions, script);
      match last
      case Arrive(p) => SeenSentFrame(s, Act(s, last, script));
      case Process(c) =>
        var sorted := Sort(BufferOf(s, c));
        PassKeepsSeenSent(s, sorted, script);
        if BufferOf(s, c) != [] {
          SeenSentFrame(PassOver(s, sorted, script).state, Act(s, last, script));
        }
    }
  }

  lemma RunLast(actions: seq<Action>, script: Script)
    requires actions != []
    ensures Run(actions, script) == Act(Run(actions[..|actions| - 1], script), actions[|actions| - 1], script)
  {
  }

  lemma SeenSentFrame(s: State, t: State)
    requires SeenIsSent(s) && t.seen == s.seen && t.sent == s.sent
    ensures SeenIsSent(t)
  {
  }

  // ----- a run in which the hub throws once ------------------------------------------------------------------------

  /** The first broadcast fails for the time being, and every later one goes through. */
  ghost predicate FirstFails(script: Script) {
    script(0) == Transient && forall n :: n >= 1 ==> script(n) == Fine
  }

  lemma OneInBuffer(s: State, p: Pending, script: Script)
    requires BufferOf(s, p.event.conversationId) == [p]
    ensures var (after, outcome) := BroadcastEvent(s, p.event, script);
            ProcessBuffer(s, p.event.conversationId, script) ==
            after.(buffers := s.buffers[p.event.conversationId := if outcome.Transient? then [p] else []])
  {
    BroadcastLeavesBuffers(s, p.event, script);
    hide BroadcastEvent;
    assert [p][..0] == [];
    assert Sort([p]) == [p];
    assert PassOver(s, [], script) == Pass(s, [], false);
    assert Unacked([p], []) == [p] && [] + [p.redisId] == [p.redisId] && Unacked([p], [p.redisId]) == [];
  }

  /**
   The event that failed stays in its queue as well as in the buffer, and the next pass sends it once for each copy.
   */
  lemma {:induction false} FailureRepeatsBroadcast(p: Pending, script: Script)
    requires FirstFails(script)
    ensures var c, e := p.event.conversationId, p.event;
            var failed := Run([Arrive(p), Process(c)], script);
            && QueueOf(failed, c) == [e] && failed.sent.log == []
            && Run([Arrive(p), Process(c), Process(c)], script).sent.log == [e, e]
  {
    hide ProcessBuffer, Run;
    var c, e := p.event.conversationId, p.event;
    var s0 := State({}, map[], map[], Sent([], 0));
    var s1 := s0.(buffers := map[c := [p]]);
    RunOne(Arrive(p), script);
    RunGoesOn([Arrive(p)], Process(c), script);
    RunGoesOn([Arrive(p), Process(c)], Process(c), script);
    assert [Arrive(p)] + [Process(c)] == [Arrive(p), Process(c)];
    assert [Arrive(p), Process(c)] + [Process(c)] == [Arrive(p), Process(c), Process(c)];
    assert [] + [p] == [p];
    assert Run([Arrive(p)], script) == s1;
    OneInBuffer(s1, p, script);
    FailsOnce(s1, e, script);
    var s2 := Run([Arrive(p), Process(c)], script);
    assert s2 == ProcessBuffer(s1, c, script);
    assert s2 == State({}, map[c := [p]], map[c := [e]], Sent([], 1));
    OneInBuffer(s2, p, script);
    SendsTwice(s2, e, script);
  }

  lemma FailsOnce(s: State, e: Event, script: Script)
    requires FirstFails(script) && s.sent == Sent([], 0) && s.seen == {} && s.queues == map[]
    ensures BroadcastEvent(s, e, script) == (State({}, s.buffers, map[e.conversationId := [e]], Sent([], 1)), Transient)
  {
    assert Pushed([], MAX_QUEUE, DropOld, e) == [e];
    assert Drained([e], e, Sent([], 0), script) == ([e], Sent([], 1), Transient);
  }

  lemma SendsTwice(s: State, e: Event, script: Script)
    requires FirstFails(script) && s.sent == Sent([], 1) && s.seen == {} && QueueOf(s, e.conversationId) == [e]
    ensures BroadcastEvent(s, e, script).0.sent.log == [e, e]
  {
    var q := [e, e];
    assert [e] + [e] == q && [] + [e] == [e];
    assert Pushed([e], MAX_QUEUE, DropOld, e) == q && q[1..] == [e] && [e][1..] == [];
    assert Drained([], e, Sent([e, e], 3), script) == ([], Sent([e, e], 3), Fine);
    assert Drained([e], e, Sent([e], 2), script) == Drained([], e, Sent([e, e], 3), script);
    assert Drained(q, e, Sent([], 1), script) == Drained([e], e, Sent([e], 2), script);
  }

  lemma RunOne(a: Action, script: Script)
    ensures Run([a], script) == Act(State({}, map[], map[], Sent([], 0)), a, script)
  {
    assert [a][..0] == [];
  }

  lemma RunGoesOn(actions: seq<Action>, a: Action, script: Script)
    ensures Run(actions + [a], script) == Act(Run(actions, script), a, script)
  {
    assert (actions + [a])[..|actions|] == actions;
  }

  // ----- every pass of every run -----------------------------------------------------------------------------------

  /** XREADGROUP hands out each stream entry once. */
  ghost predicate ArriveOnce(actions: seq<Action>) {
    forall i, j :: 0 <= i < j < |actions| && actions[i].Arrive? && actions[j].Arrive? ==>
      actions[i].pending.redisId != actions[j].pending.redisId
  }

  predicate HasArrived(actions: seq<Action>, p: Pending) {
    exists i :: 0 <= i < |actions| && actions[i] == Arrive(p)
  }

  ghost predicate BuffersHold(s: State, actions: seq<Action>) {
    forall c :: DistinctRedisIds(BufferOf(s, c)) && forall p :: p in BufferOf(s, c) ==> HasArrived(actions, p)
  }

  lemma ArrivedBefore(front: seq<Action>, last: Action, p: Pending)
    ensures HasArrived(front + [last], p) <==> HasArrived(front, p) || last == Arrive(p)
  {
    var actions := front + [last];
    assert actions[|front|] == last;
    assert forall i :: 0 <= i < |front| ==> actions[i] == front[i];
  }

  lemma ArriveKeepsBuffers(s: State, front: seq<Action>, p: Pending)
    requires BuffersHold(s, front) && ArriveOnce(front + [Arrive(p)])
    ensures BuffersHold(Receive(s, p), front + [Arrive(p)])
  {
    hide HasArrived;
    var t, actions := Receive(s, p), front + [Arrive(p)];
    forall c ensures DistinctRedisIds(BufferOf(t, c)) && forall q :: q in BufferOf(t, c) ==> HasArrived(actions, q) {
      assert DistinctRedisIds(BufferOf(s, c));
      forall q | q in BufferOf(s, c) ensures HasArrived(actions, q) && q.redisId != p.redisId {
        ArrivedBefore(front, Arrive(p), q);
        ArrivedApart(front, p, q);
      }
      ArrivedBefore(front, Arrive(p), p);
    }
  }

  lemma ArrivedApart(front: seq<Action>, p: Pending, q: Pending)
    requires ArriveOnce(front + [Arrive(p)]) && HasArrived(front, q)
    ensures q.redisId != p.redisId
  {
    var i :| 0 <= i < |front| && front[i] == Arrive(q);
    var actions := front + [Arrive(p)];
    assert actions[i] == Arrive(q) && actions[|front|] == Arrive(p);
  }

  lemma ProcessKeepsBuffers(s: State, front: seq<Action>, conversation: string, script: Script)
    requires BuffersHold(s, front) && SeenIsSent(s)
    ensures BuffersHold(ProcessBuffer(s, conversation, script), front + [Process(conversation)])
  {
    var buffer, after := BufferOf(s, conversation), ProcessBuffer(s, conversation, script);
    var k := ProcessBufferHolds(s, conversation, script);
    SortKeepsRedisIds(buffer);
    ProcessLeavesOthers(s, conversation, script);
    hide ProcessBuffer, HasArrived, SeenIsSent, LogGrows, Rises, Sort;
    forall c ensures DistinctRedisIds(BufferOf(after, c)) &&
                     forall q :: q in BufferOf(after, c) ==> HasArrived(front + [Process(conversation)], q)
    {
      assert DistinctRedisIds(BufferOf(s, c));
      forall q | q in BufferOf(after, c) ensures HasArrived(front + [Process(conversation)], q) {
        if c == conversation {
          SortedWasBuffered(buffer, q);
        }
        ArrivedBefore(front, Process(conversation), q);
      }
    }
  }

  lemma SortedWasBuffered(buffer: seq<Pending>, q: Pending)
    ensures q in Sort(buffer) ==> q in buffer
  {
    SortSorts(buffer);
    assert q in multiset(Sort(buffer)) <==> q in multiset(buffer);
  }

  lemma ProcessLeavesOthers(s: State, conversation: string, script: Script)
    ensures forall c :: c != conversation ==> BufferOf(ProcessBuffer(s, conversation, script), c) == BufferOf(s, c)
  {
    hide PassOver, Sort, Unacked;
    PassAcks(s, Sort(BufferOf(s, conversation)), script);
  }

  lemma {:induction false} RunKeepsBuffers(actions: seq<Action>, script: Script)
    requires ArriveOnce(actions)
    ensures BuffersHold(Run(actions, script), actions)
  {
    if actions != [] {
      var front, last := actions[..|actions| - 1], actions[|actions| - 1];
      RunKeepsBuffers(front, script);
      RunKeepsSeenSent(front, script);
      RunLast(actions, script);
      hide Run, BuffersHold, ProcessBuffer, Receive, ArriveOnce;
      assert actions == front + [last];
      match last
      case Arrive(p) => ArriveKeepsBuffers(Run(front, script), front, p);
      case Process(c) => ProcessKeepsBuffers(Run(front, script), front, c, script);
    }
  }

  /** After any run, whatever the hub has done and does: the next processBuffer keeps its promise. */
  lemma {:induction false} EveryPass(actions: seq<Action>, conversation: string, script: Script) returns (k: nat)
    requires ArriveOnce(actions)
    ensures var s := Run(actions, script);
            var after, sorted := ProcessBuffer(s, conversation, script), Sort(BufferOf(s, conversation));
            && LogGrows(s, after) && Rises(after.sent.log, |s.sent.log|, sorted)
            && k <= |sorted| && BufferOf(after, conversation) == sorted[k..]
            && (NeverPermanent(script) ==> forall h :: 0 <= h < k ==> Logged(after.sent.log, sorted[h].event.messageId))
  {
    RunKeepsBuffers(actions, script);
    RunKeepsSeenSent(actions, script);
    assert DistinctRedisIds(BufferOf(Run(actions, script), conversation));
    hide *;
    k := ProcessBufferHolds(Run(actions, script), conversation, script);
  }
}
