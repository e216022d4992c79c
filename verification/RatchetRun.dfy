/**
 Honest two-party runs: both peers start from one handshake, and a network delivers any envelope ever sent, any number
 of times, in any order, or never.
 */
module RatchetRun {
  import opened Common
  import opened Ratchet

  datatype Sent = Sent(plaintext: Bytes, envelope: Envelope)

  /** One peer: its session, what it has sent, and the counters it has opened. */
  datatype Peer = Peer(view: View, sent: seq<Sent>, done: set<int>)

  datatype World = World(a: Peer, b: Peer)

  datatype Event =
    | Send(byA: bool, plaintext: Bytes, nonce: Bytes)
    | Deliver(toA: bool, index: nat, newKeys: KeyPair)

  function SendStep(c: Crypto, p: Peer, plaintext: Bytes, nonce: Bytes): Peer {
    var (e, v) := EncryptView(c, p.view, plaintext, nonce);
    p.(view := v, sent := p.sent + [Sent(plaintext, e)])
  }

  /** A peer that throws keeps the session object it had, which the call has changed in place. */
  function DeliverStep(c: Crypto, p: Peer, e: Envelope, newKeys: KeyPair): (Outcome, Peer) {
    var (o, v) := DecryptView(c, p.view, e, newKeys);
    (o, p.(view := v, done := if o.Opened? then p.done + {e.header.counter} else p.done))
  }

  function Step(c: Crypto, w: World, ev: Event): World {
    match ev
    case Send(true, p, n) => w.(a := SendStep(c, w.a, p, n))
    case Send(false, p, n) => w.(b := SendStep(c, w.b, p, n))
    case Deliver(true, i, k) => if i < |w.b.sent| then w.(a := DeliverStep(c, w.a, w.b.sent[i].envelope, k).1) else w
    case Deliver(false, i, k) => if i < |w.a.sent| then w.(b := DeliverStep(c, w.b, w.a.sent[i].envelope, k).1) else w
  }

  function Run(c: Crypto, w: World, evs: seq<Event>): World {
    if evs == [] then w else Step(c, Run(c, w, evs[..|evs| - 1]), evs[|evs| - 1])
  }

  function Start(rootKey: Bytes, chainKey: Bytes, a: KeyPair, b: KeyPair, maxA: int, maxB: int): World {
    World(Peer(StartView(rootKey, chainKey, a, b.publicKey, maxA), [], {}),
          Peer(StartView(rootKey, chainKey, b, a.publicKey, maxB), [], {}))
  }

  // ----- what holds of a direction, sender to receiver --------------------------------------------------------------

  /** The sender is |sent| messages down its chain, and message n was sealed under the n-th key. */
  ghost predicate Sender(c: Crypto, k0: Bytes, s: Peer) {
    && s.view.sendCount == |s.sent|
    && s.view.sendKey == ChainAfter(c, k0, |s.sent|)
    && forall i :: 0 <= i < |s.sent| ==> SealedAs(c, k0, s, i)
  }

  ghost predicate SealedAs(c: Crypto, k0: Bytes, s: Peer, i: nat)
    requires i < |s.sent|
  {
    var e := s.sent[i].envelope;
    && e.header.publicKey == s.view.local.publicKey && e.header.counter == i + 1 && e.header.additionalData == []
    && e == Seal(c, NthKey(c, k0, i + 1), s.sent[i].plaintext, e.nonce, e.header)
  }

  /** n is still to be opened although the receive counter has passed it. */
  ghost predicate PendingIn(count: int, done: set<int>, n: int) {
    1 <= n <= count && n !in done
  }

  ghost predicate Pending(r: Peer, n: int) {
    PendingIn(r.view.recvCount, r.done, n)
  }

  ghost predicate Stored(r: Peer, n: int) {
    HasSlot(r.view.skipped, Slot(r.view.remote, n))
  }

  ghost predicate Increasing(s: seq<Entry>) {
    forall i, j :: 0 <= i < j < |s| ==> s[i].slot.counter < s[j].slot.counter
  }

  /** Each entry is for a pending message of this remote key, and holds the sender's key for it. */
  ghost predicate EntriesHold(c: Crypto, k0: Bytes, s: seq<Entry>, remote: Bytes, count: int, done: set<int>) {
    forall i :: 0 <= i < |s| ==>
      s[i].slot.publicKey == remote && PendingIn(count, done, s[i].slot.counter) &&
      s[i].key == NthKey(c, k0, s[i].slot.counter)
  }

  /** Whatever is pending but no longer stored lies below everything stored. */
  ghost predicate OldestGone(s: seq<Entry>, remote: Bytes, count: int, done: set<int>) {
    forall n, i {:trigger HasSlot(s, Slot(remote, n)), s[i]} ::
      0 <= i < |s| && PendingIn(count, done, n) && !HasSlot(s, Slot(remote, n)) ==> n < s[i].slot.counter
  }

  ghost predicate MapHolds(c: Crypto, k0: Bytes, s: seq<Entry>, remote: Bytes, count: int, done: set<int>) {
    Increasing(s) && EntriesHold(c, k0, s, remote, count, done) && OldestGone(s, remote, count, done)
  }

  /** The skipped map: the newest pending messages, in order, each with its key, within the limit. */
  ghost predicate SkippedMapHolds(c: Crypto, k0: Bytes, r: Peer) {
    && |r.view.skipped| <= Max(0, r.view.maxSkipped)
    && MapHolds(c, k0, r.view.skipped, r.view.remote, r.view.recvCount, r.done)
  }

  ghost predicate Receiver(c: Crypto, k0: Bytes, r: Peer) {
    && r.view.recvKey == ChainAfter(c, k0, r.view.recvCount)
    && (forall n :: n in r.done ==> 1 <= n <= r.view.recvCount)
    && SkippedMapHolds(c, k0, r)
  }

  ghost predicate Lane(c: Crypto, k0: Bytes, s: Peer, r: Peer) {
    Sender(c, k0, s) && Receiver(c, k0, r) && r.view.remote == s.view.local.publicKey && r.view.recvCount <= |s.sent|
  }

  ghost predicate Inv(c: Crypto, k0: Bytes, w: World) {
    Lane(c, k0, w.a, w.b) && Lane(c, k0, w.b, w.a)
  }

  // ----- one delivery ----------------------------------------------------------------------------------------------

  /** The receiver's side of DecryptView changes nothing the sending side or the identity of the peer rests on. */
  ghost predicate OnlyReceived(v: View, w: View) {
    w == v.(recvKey := w.recvKey, recvCount := w.recvCount, skipped := w.skipped)
  }

  lemma IncreasingRest(entries: seq<Entry>, i: nat)
    requires 0 < i < |entries| && Increasing(entries)
    ensures Increasing(entries[1..]) && entries[0].slot != entries[i].slot && entries[i] == entries[1..][i - 1]
  {
    assert entries[0].slot.counter < entries[i].slot.counter;
  }

  lemma LookupOnce(entries: seq<Entry>, slot: Slot)
    requires entries != []
    ensures Lookup(entries, slot) ==
            if entries[0].slot == slot then Some(entries[0].key) else Lookup(entries[1..], slot)
    ensures Without(entries, slot) ==
            if entries[0].slot == slot then entries[1..] else [entries[0]] + Without(entries[1..], slot)
  {
    hide HasSlot;
  }

  lemma {:induction false} LookupSorted(entries: seq<Entry>, i: nat)
    requires i < |entries| && Increasing(entries)
    ensures Lookup(entries, entries[i].slot) == Some(entries[i].key)
    ensures Without(entries, entries[i].slot) == entries[..i] + entries[i + 1..]
  {
    hide *;
    LookupOnce(entries, entries[i].slot);
    if i == 0 {
      assert entries[..0] + entries[1..] == entries[1..];
    } else {
      IncreasingRest(entries, i);
      LookupSorted(entries[1..], i - 1);
      assert entries[..i] == [entries[0]] + entries[1..][..i - 1] && entries[i + 1..] == entries[1..][i..];
    }
  }

  /** What a delivery of the sender's n-th envelope must do, told without the map's order or the walk. */
  ghost predicate Delivers(s: Peer, r: Peer, n: nat, o: Outcome, r': Peer)
    requires 1 <= n <= |s.sent|
  {
    var text := s.sent[n - 1].plaintext;
    if n > r.view.recvCount then
      if n == r.view.recvCount + 1 || r.view.maxSkipped > 0 then
        o == Opened(text) && r'.view.recvCount == n && r'.done == r.done + {n}
      else
        o == LimitExceeded(r.view.maxSkipped) && r'.view.recvCount == r.view.recvCount + 1 && r'.done == r.done
    else if Stored(r, n) then
      o == Opened(text) && r'.view.recvCount == r.view.recvCount && r'.done == r.done + {n}
    else
      o == Replay && r' == r
  }

  lemma OpeningKeepsOldestGone(s: seq<Entry>, remote: Bytes, count: int, done: set<int>, i: nat)
    requires Increasing(s) && OldestGone(s, remote, count, done) && i < |s|
    ensures OldestGone(s[..i] + s[i + 1..], remote, count, done + {s[i].slot.counter})
  {
    var left, done' := s[..i] + s[i + 1..], done + {s[i].slot.counter};
    assert forall j :: 0 <= j < i ==> left[j] == s[j];
    assert forall j :: i < j < |s| ==> left[j - 1] == s[j];
    forall n, j | 0 <= j < |left| && PendingIn(count, done', n) && !HasSlot(left, Slot(remote, n))
      ensures n < left[j].slot.counter
    {
      var j' := if j < i then j else j + 1;
      assert left[j] == s[j'] && PendingIn(count, done, n) && !HasSlot(s, Slot(remote, n));
    }
  }

  lemma RemovingKeepsEntries(c: Crypto, k0: Bytes, s: seq<Entry>, remote: Bytes, count: int, done: set<int>, i: nat)
    requires Increasing(s) && EntriesHold(c, k0, s, remote, count, done) && i < |s|
    ensures Increasing(s[..i] + s[i + 1..])
    ensures EntriesHold(c, k0, s[..i] + s[i + 1..], remote, count, done + {s[i].slot.counter})
  {
    var left := s[..i] + s[i + 1..];
    assert forall j :: 0 <= j < i ==> left[j] == s[j];
    assert forall j :: i <= j < |left| ==> left[j] == s[j + 1];
  }

  lemma OpeningStoredKeepsMap(c: Crypto, k0: Bytes, s: seq<Entry>, remote: Bytes, count: int, done: set<int>, i: nat)
    requires MapHolds(c, k0, s, remote, count, done) && i < |s|
    ensures MapHolds(c, k0, s[..i] + s[i + 1..], remote, count, done + {s[i].slot.counter})
  {
    OpeningKeepsOldestGone(s, remote, count, done, i);
    RemovingKeepsEntries(c, k0, s, remote, count, done, i);
  }

  /** What a delivery of an old envelope comes to: its key is looked up, used and removed, or it is a replay. */
  lemma OldDelivery(c: Crypto, k0: Bytes, s: Peer, r: Peer, n: nat, newKeys: KeyPair)
    requires Sender(c, k0, s) && 1 <= n <= |s.sent| && n <= r.view.recvCount && r.view.remote == s.view.local.publicKey
    ensures var slot, e := Slot(r.view.remote, n), s.sent[n - 1].envelope;
            DeliverStep(c, r, e, newKeys) ==
            match Lookup(r.view.skipped, slot)
            case None => (Replay, r)
            case Some(key) =>
              var o := Open(c, key, e);
              (o, r.(view := r.view.(skipped := Without(r.view.skipped, slot)),
                     done := if o.Opened? then r.done + {n} else r.done))
  {
    assert SealedAs(c, k0, s, n - 1);
    hide Lookup, Without, Open, ReceiveView, DhView, Sender;
  }

  lemma OldOpens(c: Crypto, k0: Bytes, s: Peer, n: nat, key: Bytes)
    requires Lawful(c) && Sender(c, k0, s) && 1 <= n <= |s.sent| && key == NthKey(c, k0, n)
    ensures Open(c, key, s.sent[n - 1].envelope) == Opened(s.sent[n - 1].plaintext)
  {
    assert SealedAs(c, k0, s, n - 1);
    hide ChainAfter, Sender;
  }

  lemma StoredKey(c: Crypto, k0: Bytes, r: Peer, i: nat)
    requires SkippedMapHolds(c, k0, r) && i < |r.view.skipped|
    ensures var e := r.view.skipped[i]; e.slot.counter >= 1 && e.key == NthKey(c, k0, e.slot.counter)
  {
    hide Increasing, OldestGone, NthKey;
  }

  /** An old envelope whose key is stored: place i of the map goes. */
  lemma DeliverStored(c: Crypto, k0: Bytes, s: Peer, r: Peer, n: nat, i: nat, newKeys: KeyPair)
    requires Lawful(c) && Lane(c, k0, s, r) && 1 <= n <= |s.sent| && n <= r.view.recvCount
    requires i < |r.view.skipped| && r.view.skipped[i].slot == Slot(r.view.remote, n)
    ensures var entries := r.view.skipped;
            DeliverStep(c, r, s.sent[n - 1].envelope, newKeys) ==
            (Opened(s.sent[n - 1].plaintext),
             r.(view := r.view.(skipped := entries[..i] + entries[i + 1..]), done := r.done + {n}))
  {
    hide Sender, NthKey, Lookup, Without, Open, DeliverStep, MapHolds;
    StoredKey(c, k0, r, i);
    OldDelivery(c, k0, s, r, n, newKeys);
    InOrder(c, k0, r);
    LookupSorted(r.view.skipped, i);
    OldOpens(c, k0, s, n, r.view.skipped[i].key);
  }

  lemma InOrder(c: Crypto, k0: Bytes, r: Peer)
    requires SkippedMapHolds(c, k0, r)
    ensures Increasing(r.view.skipped)
  {
  }

  lemma NotStored(r: Peer, n: nat)
    ensures Lookup(r.view.skipped, Slot(r.view.remote, n)).None? <==> !Stored(r, n)
  {
  }

  lemma DeliverOld(c: Crypto, k0: Bytes, s: Peer, r: Peer, n: nat, newKeys: KeyPair)
    requires Lawful(c) && Lane(c, k0, s, r) && 1 <= n <= |s.sent| && n <= r.view.recvCount
    ensures var (o, r') := DeliverStep(c, r, s.sent[n - 1].envelope, newKeys);
            Delivers(s, r, n, o, r') && OnlyReceived(r.view, r'.view) && Receiver(c, k0, r')
  {
    hide MapHolds, DeliverStep, Sender, Lookup, Without, Open;
    if Stored(r, n) {
      var i :| 0 <= i < |r.view.skipped| && r.view.skipped[i].slot == Slot(r.view.remote, n);
      DeliverStored(c, k0, s, r, n, i, newKeys);
      OpeningStoredKeepsMap(c, k0, r.view.skipped, r.view.remote, r.view.recvCount, r.done, i);
    } else {
      NotStored(r, n);
      OldDelivery(c, k0, s, r, n, newKeys);
    }
  }

  lemma EmptyMapHolds(c: Crypto, k0: Bytes, remote: Bytes, count: int, done: set<int>)
    ensures MapHolds(c, k0, [], remote, count, done)
  {
  }

  /** What a walk stores, in terms of the sender's chain. */
  lemma WalkedEntry(c: Crypto, k0: Bytes, v: View, gap: nat, i: nat)
    requires v.recvKey == ChainAfter(c, k0, v.recvCount) && i < gap
    ensures Walked(c, v, gap)[i] == Entry(Slot(v.remote, v.recvCount + i + 1), NthKey(c, k0, v.recvCount + i + 1))
  {
    ChainAfterAdds(c, k0, v.recvCount, i);
  }

  lemma WalkKeepsOldestGone(had: seq<Entry>, walked: seq<Entry>, remote: Bytes, count: int, done: set<int>)
    requires OldestGone(had, remote, count, done)
    requires forall i :: 0 <= i < |walked| ==> walked[i].slot == Slot(remote, count + i + 1)
    ensures OldestGone(had + walked, remote, count + |walked| + 1, done + {count + |walked| + 1})
  {
    var all, count' := had + walked, count + |walked| + 1;
    forall n | count < n < count' ensures HasSlot(all, Slot(remote, n)) {
      assert all[|had| + n - count - 1].slot == Slot(remote, n);
    }
    forall n, i | 0 <= i < |all| && PendingIn(count', done + {count'}, n) && !HasSlot(all, Slot(remote, n))
      ensures n < all[i].slot.counter
    {
      assert forall k :: 0 <= k < |had| ==> all[k] == had[k];
      assert PendingIn(count, done, n) && !HasSlot(had, Slot(remote, n));
      assert i >= |had| ==> all[i] == walked[i - |had|];
    }
  }

  lemma WalkKeepsEntries(c: Crypto, k0: Bytes, v: View, done: set<int>, gap: nat)
    requires v.recvKey == ChainAfter(c, k0, v.recvCount) && (forall n :: n in done ==> n <= v.recvCount)
    requires EntriesHold(c, k0, v.skipped, v.remote, v.recvCount, done)
    ensures var count := v.recvCount + gap + 1;
            EntriesHold(c, k0, v.skipped + Walked(c, v, gap), v.remote, count, done + {count})
  {
    var had, count := v.skipped, v.recvCount + gap + 1;
    var all := had + Walked(c, v, gap);
    forall i | 0 <= i < |all|
      ensures all[i].slot.publicKey == v.remote && PendingIn(count, done + {count}, all[i].slot.counter)
      ensures all[i].key == NthKey(c, k0, all[i].slot.counter)
    {
      if i >= |had| {
        WalkedEntry(c, k0, v, gap, i - |had|);
      } else {
        assert all[i] == had[i] && PendingIn(v.recvCount, done, had[i].slot.counter);
      }
    }
  }

  lemma ConcatIncreasing(had: seq<Entry>, walked: seq<Entry>, count: int)
    requires Increasing(had) && (forall i :: 0 <= i < |had| ==> had[i].slot.counter <= count)
    requires forall i :: 0 <= i < |walked| ==> walked[i].slot.counter == count + i + 1
    ensures Increasing(had + walked)
  {
  }

  /** A map followed by all the entries of a walk, before the limit cuts it: the next counter is opened. */
  lemma WalkExtendsMap(c: Crypto, k0: Bytes, v: View, done: set<int>, gap: nat)
    requires v.recvKey == ChainAfter(c, k0, v.recvCount) && (forall n :: n in done ==> n <= v.recvCount)
    requires MapHolds(c, k0, v.skipped, v.remote, v.recvCount, done)
    ensures var count := v.recvCount + gap + 1;
            MapHolds(c, k0, v.skipped + Walked(c, v, gap), v.remote, count, done + {count})
  {
    WalkKeepsOldestGone(v.skipped, Walked(c, v, gap), v.remote, v.recvCount, done);
    WalkKeepsEntries(c, k0, v, done, gap);
    ConcatIncreasing(v.skipped, Walked(c, v, gap), v.recvCount);
  }

  /** The limit may take any number of entries off the front. */
  lemma CuttingKeepsMap(c: Crypto, k0: Bytes, s: seq<Entry>, remote: Bytes, count: int, done: set<int>, cut: nat)
    requires MapHolds(c, k0, s, remote, count, done) && cut <= |s|
    ensures MapHolds(c, k0, s[cut..], remote, count, done)
  {
    var left := s[cut..];
    assert forall k :: cut <= k < |s| ==> left[k - cut] == s[k];
    forall n, i | 0 <= i < |left| && PendingIn(count, done, n) && !HasSlot(left, Slot(remote, n))
      ensures n < left[i].slot.counter
    {
      assert left[i] == s[cut + i];
      if HasSlot(s, Slot(remote, n)) {
        var k :| 0 <= k < |s| && s[k].slot == Slot(remote, n);
        assert k < cut;
      }
    }
  }

  lemma SkippedIsSuffix(c: Crypto, v: View, gap: nat)
    requires gap > 0 ==> v.maxSkipped > 0
    ensures var all, kept := v.skipped + Walked(c, v, gap), SkipView(c, v, gap).skipped;
            |kept| <= |all| && kept == all[|all| - |kept|..]
  {
    hide ChainAfter, NthKey;
    if gap == 0 {
      assert v.skipped + Walked(c, v, 0) == v.skipped;
    }
  }

  lemma WalkKeepsMap(c: Crypto, k0: Bytes, v: View, done: set<int>, gap: nat)
    requires v.recvKey == ChainAfter(c, k0, v.recvCount) && (forall n :: n in done ==> n <= v.recvCount)
    requires MapHolds(c, k0, v.skipped, v.remote, v.recvCount, done)
    requires gap > 0 ==> v.maxSkipped > 0
    ensures var count := v.recvCount + gap + 1;
            MapHolds(c, k0, SkipView(c, v, gap).skipped, v.remote, count, done + {count})
  {
    hide MapHolds, SkipView, Walked, ChainAfter;
    WalkExtendsMap(c, k0, v, done, gap);
    SkippedIsSuffix(c, v, gap);
    var all, count := v.skipped + Walked(c, v, gap), v.recvCount + gap + 1;
    CuttingKeepsMap(c, k0, all, v.remote, count, done + {count}, |all| - |SkipView(c, v, gap).skipped|);
  }

  lemma NewOutcome(c: Crypto, k0: Bytes, s: Peer, r: Peer, n: nat, newKeys: KeyPair)
    requires Lawful(c) && Sender(c, k0, s) && 1 <= n <= |s.sent| && n > r.view.recvCount
    requires r.view.recvKey == ChainAfter(c, k0, r.view.recvCount) && r.view.remote == s.view.local.publicKey
    ensures var (o, r') := DeliverStep(c, r, s.sent[n - 1].envelope, newKeys);
            && Delivers(s, r, n, o, r') && OnlyReceived(r.view, r'.view)
            && r'.view.recvKey == ChainAfter(c, k0, r'.view.recvCount)
            && r'.view.skipped ==
               if o.Opened? then SkipView(c, r.view, n - 1 - r.view.recvCount).skipped else r.view.skipped
  {
    assert SealedAs(c, k0, s, n - 1);
    hide Sender, Lookup, Without, DhView, Kept, Walked;
    ChainAfterAdds(c, k0, r.view.recvCount, n - 1 - r.view.recvCount);
  }

  lemma NewKeepsReceiver(c: Crypto, k0: Bytes, r: Peer, gap: nat, r': Peer)
    requires Receiver(c, k0, r) && (gap > 0 ==> r.view.maxSkipped > 0)
    requires OnlyReceived(r.view, r'.view) && r'.view.recvKey == ChainAfter(c, k0, r'.view.recvCount)
    requires r'.view.recvCount == r.view.recvCount + gap + 1 && r'.done == r.done + {r'.view.recvCount}
    requires r'.view.skipped == SkipView(c, r.view, gap).skipped
    ensures Receiver(c, k0, r')
  {
    hide MapHolds, Walked, ChainAfter;
    WalkKeepsMap(c, k0, r.view, r.done, gap);
    assert |r'.view.skipped| <= Max(0, r.view.maxSkipped);
  }

  lemma RefusedKeepsReceiver(c: Crypto, k0: Bytes, r: Peer, r': Peer)
    requires Receiver(c, k0, r) && r.view.maxSkipped <= 0
    requires OnlyReceived(r.view, r'.view) && r'.view.recvKey == ChainAfter(c, k0, r'.view.recvCount)
    requires r'.view.recvCount == r.view.recvCount + 1 && r'.done == r.done && r'.view.skipped == r.view.skipped
    ensures Receiver(c, k0, r')
  {
    EmptyMapHolds(c, k0, r.view.remote, r'.view.recvCount, r.done);
  }

  lemma DeliverNew(c: Crypto, k0: Bytes, s: Peer, r: Peer, n: nat, newKeys: KeyPair)
    requires Lawful(c) && Lane(c, k0, s, r) && 1 <= n <= |s.sent| && n > r.view.recvCount
    ensures var (o, r') := DeliverStep(c, r, s.sent[n - 1].envelope, newKeys);
            Delivers(s, r, n, o, r') && OnlyReceived(r.view, r'.view) && Receiver(c, k0, r')
  {
    hide DeliverStep, EntriesHold, Increasing, OldestGone;
    NewOutcome(c, k0, s, r, n, newKeys);
    var (o, r') := DeliverStep(c, r, s.sent[n - 1].envelope, newKeys);
    if o.Opened? {
      NewKeepsReceiver(c, k0, r, n - 1 - r.view.recvCount, r');
    } else {
      RefusedKeepsReceiver(c, k0, r, r');
    }
  }

  lemma ReceivingKeepsSender(c: Crypto, k0: Bytes, r: Peer, r': Peer)
    requires Sender(c, k0, r) && OnlyReceived(r.view, r'.view) && r'.sent == r.sent
    ensures Sender(c, k0, r')
  {
    forall j | 0 <= j < |r'.sent| ensures SealedAs(c, k0, r', j) {
      assert SealedAs(c, k0, r, j);
    }
  }

  lemma DeliveredKeepsLanes(c: Crypto, k0: Bytes, s: Peer, r: Peer, n: nat, o: Outcome, r': Peer)
    requires Lane(c, k0, s, r) && Lane(c, k0, r, s) && 1 <= n <= |s.sent|
    requires Delivers(s, r, n, o, r') && OnlyReceived(r.view, r'.view) && Receiver(c, k0, r') && r'.sent == r.sent
    ensures Lane(c, k0, s, r') && Lane(c, k0, r', s)
  {
    ReceivingKeepsSender(c, k0, r, r');
  }

  lemma DeliverOne(c: Crypto, k0: Bytes, s: Peer, r: Peer, i: nat, newKeys: KeyPair)
    requires Lawful(c) && Lane(c, k0, s, r) && i < |s.sent|
    ensures var (o, r') := DeliverStep(c, r, s.sent[i].envelope, newKeys);
            Delivers(s, r, i + 1, o, r') && OnlyReceived(r.view, r'.view) && Receiver(c, k0, r')
  {
    hide DeliverStep, Lane;
    if i + 1 <= r.view.recvCount {
      DeliverOld(c, k0, s, r, i + 1, newKeys);
    } else {
      DeliverNew(c, k0, s, r, i + 1, newKeys);
    }
  }

  /** One delivery does what `Delivers` says, touches nothing else, and keeps both directions going. */
  lemma DeliverKeepsLanes(c: Crypto, k0: Bytes, s: Peer, r: Peer, i: nat, newKeys: KeyPair)
    requires Lawful(c) && Lane(c, k0, s, r) && Lane(c, k0, r, s) && i < |s.sent|
    ensures var (o, r') := DeliverStep(c, r, s.sent[i].envelope, newKeys);
            Delivers(s, r, i + 1, o, r') && OnlyReceived(r.view, r'.view) && Lane(c, k0, s, r') && Lane(c, k0, r', s)
  {
    DeliverOne(c, k0, s, r, i, newKeys);
    var (o, r') := DeliverStep(c, r, s.sent[i].envelope, newKeys);
    DeliveredKeepsLanes(c, k0, s, r, i + 1, o, r');
  }

  lemma SendKeepsLanes(c: Crypto, k0: Bytes, s: Peer, r: Peer, plaintext: Bytes, nonce: Bytes)
    requires Lane(c, k0, s, r) && Lane(c, k0, r, s)
    ensures var s' := SendStep(c, s, plaintext, nonce); Lane(c, k0, s', r) && Lane(c, k0, r, s')
  {
    var s' := SendStep(c, s, plaintext, nonce);
    forall i | 0 <= i < |s'.sent| ensures SealedAs(c, k0, s', i) {
      if i < |s.sent| {
        assert SealedAs(c, k0, s, i);
      }
    }
    assert forall m :: Pending(s', m) == Pending(s, m);
    assert forall m :: Stored(s', m) == Stored(s, m);
    assert Receiver(c, k0, s');
  }

  // ----- whole runs ------------------------------------------------------------------------------------------------

  lemma {:induction false} RunKeepsInv(c: Crypto, rootKey: Bytes, k0: Bytes, a: KeyPair, b: KeyPair,
                                       maxA: int, maxB: int, evs: seq<Event>)
    requires Lawful(c)
    ensures Inv(c, k0, Run(c, Start(rootKey, k0, a, b, maxA, maxB), evs))
  {
    if evs != [] {
      var w := Run(c, Start(rootKey, k0, a, b, maxA, maxB), evs[..|evs| - 1]);
      RunKeepsInv(c, rootKey, k0, a, b, maxA, maxB, evs[..|evs| - 1]);
      match evs[|evs| - 1] {
        case Send(byA, p, n) =>
          if byA { SendKeepsLanes(c, k0, w.a, w.b, p, n); } else { SendKeepsLanes(c, k0, w.b, w.a, p, n); }
        case Deliver(toA, i, k) =>
          if toA && i < |w.b.sent| { DeliverKeepsLanes(c, k0, w.b, w.a, i, k); }
          if !toA && i < |w.a.sent| { DeliverKeepsLanes(c, k0, w.a, w.b, i, k); }
      }
    }
  }

  /** The identity a peer starts with: what the Diffie-Hellman branch would replace. */
  ghost predicate HasIdentity(p: Peer, rootKey: Bytes, local: KeyPair, remote: Bytes, maxSkipped: int) {
    p.view.rootKey == rootKey && p.view.local == local && p.view.remote == remote && p.view.maxSkipped == maxSkipped
  }

  lemma {:induction false} NoDhBranch(c: Crypto, rootKey: Bytes, k0: Bytes, a: KeyPair, b: KeyPair,
                                      maxA: int, maxB: int, evs: seq<Event>)
    requires Lawful(c)
    ensures var w := Run(c, Start(rootKey, k0, a, b, maxA, maxB), evs);
            && HasIdentity(w.a, rootKey, a, b.publicKey, maxA) && HasIdentity(w.b, rootKey, b, a.publicKey, maxB)
  {
    if evs != [] {
      var w := Run(c, Start(rootKey, k0, a, b, maxA, maxB), evs[..|evs| - 1]);
      NoDhBranch(c, rootKey, k0, a, b, maxA, maxB, evs[..|evs| - 1]);
      RunKeepsInv(c, rootKey, k0, a, b, maxA, maxB, evs[..|evs| - 1]);
      match evs[|evs| - 1] {
        case Send(_, _, _) =>
        case Deliver(toA, i, k) =>
          if toA && i < |w.b.sent| { DeliverKeepsLanes(c, k0, w.b, w.a, i, k); }
          if !toA && i < |w.a.sent| { DeliverKeepsLanes(c, k0, w.a, w.b, i, k); }
      }
    }
  }

  // ----- runs whose gaps fit the limit -----------------------------------------------------------------------------

  function PendingSet(r: Peer): set<int> {
    set n | 1 <= n <= r.view.recvCount && n !in r.done
  }

  /** The caller's check before a delivery: what is pending, with the gap this envelope opens, is within the limit. */
  predicate Fits(r: Peer, n: int) {
    n > r.view.recvCount ==> |PendingSet(r)| + (n - 1 - r.view.recvCount) <= Max(0, r.view.maxSkipped)
  }

  /** The peer that a delivery is for, and the one whose envelopes it takes. */
  function Target(w: World, toA: bool): Peer {
    if toA then w.a else w.b
  }

  function Source(w: World, toA: bool): Peer {
    if toA then w.b else w.a
  }

  predicate FitsEvent(w: World, ev: Event) {
    ev.Deliver? && ev.index < |Source(w, ev.toA).sent| ==> Fits(Target(w, ev.toA), ev.index + 1)
  }

  ghost predicate AllFit(c: Crypto, w: World, evs: seq<Event>) {
    evs != [] ==> AllFit(c, w, evs[..|evs| - 1]) && FitsEvent(Run(c, w, evs[..|evs| - 1]), evs[|evs| - 1])
  }

  /** Nothing pending has been evicted. */
  ghost predicate NoneEvicted(r: Peer) {
    forall n :: Pending(r, n) ==> Stored(r, n)
  }

  function Counters(entries: seq<Entry>): set<int> {
    if entries == [] then {} else Counters(entries[..|entries| - 1]) + {entries[|entries| - 1].slot.counter}
  }

  lemma {:induction false} CountersAre(entries: seq<Entry>, n: int)
    ensures n in Counters(entries) <==> exists i :: 0 <= i < |entries| && entries[i].slot.counter == n
  {
    if entries != [] {
      var front := entries[..|entries| - 1];
      CountersAre(front, n);
      assert forall i :: 0 <= i < |front| ==> front[i] == entries[i];
    }
  }

  lemma {:induction false} SortedCount(entries: seq<Entry>)
    requires Increasing(entries)
    ensures |Counters(entries)| == |entries|
  {
    if entries != [] {
      var k := |entries| - 1;
      SortedCount(entries[..k]);
      CountersAre(entries[..k], entries[k].slot.counter);
    }
  }

  lemma StoredCount(c: Crypto, k0: Bytes, r: Peer)
    requires SkippedMapHolds(c, k0, r) && NoneEvicted(r)
    ensures |PendingSet(r)| == |r.view.skipped|
  {
    var s := r.view.skipped;
    SortedCount(s);
    forall n ensures n in PendingSet(r) <==> n in Counters(s) {
      CountersAre(s, n);
      if n in PendingSet(r) {
        assert Pending(r, n);
        var i :| 0 <= i < |s| && s[i].slot == Slot(r.view.remote, n);
        assert s[i].slot.counter == n;
      }
    }
    assert PendingSet(r) == Counters(s);
  }

  // ----- what has been evicted -------------------------------------------------------------------------------------

  /**
   The numbers whose keys the walk to message n throws away: shifted out of the map, or never stored for want of room.
   */
  function LostBy(c: Crypto, r: Peer, n: nat): set<int> {
    if n <= r.view.recvCount + 1 then {}
    else if r.view.maxSkipped <= 0 then {r.view.recvCount + 1}
    else
      var gap: nat := n - 1 - r.view.recvCount;
      var all := r.view.skipped + Walked(c, r.view, gap);
      set i | 0 <= i < |all| - |Kept(r.view.skipped, Walked(c, r.view, gap), r.view.maxSkipped)| :: all[i].slot.counter
  }

  /** What an event makes peer A, or peer B, lose so. */
  function LostNow(c: Crypto, w: World, ev: Event, toA: bool): set<int> {
    if ev.Deliver? && ev.toA == toA && ev.index < |Source(w, toA).sent|
    then LostBy(c, Target(w, toA), ev.index + 1) else {}
  }

  /** And what it has lost in the course of a run. */
  function Lost(c: Crypto, w: World, evs: seq<Event>, toA: bool): set<int> {
    if evs == [] then {}
    else Lost(c, w, evs[..|evs| - 1], toA) + LostNow(c, Run(c, w, evs[..|evs| - 1]), evs[|evs| - 1], toA)
  }

  /** Unopened, passed over, and without a key in the map. */
  ghost predicate Missing(r: Peer, m: int) {
    Pending(r, m) && !Stored(r, m)
  }

  lemma SlotInConcat(had: seq<Entry>, walked: seq<Entry>, slot: Slot)
    ensures HasSlot(had + walked, slot) <==> HasSlot(had, slot) || HasSlot(walked, slot)
  {
    var all := had + walked;
    assert forall i :: 0 <= i < |had| ==> all[i] == had[i];
    assert forall i :: 0 <= i < |walked| ==> all[|had| + i] == walked[i];
    assert forall i :: |had| <= i < |all| ==> all[i] == walked[i - |had|];
  }

  ghost predicate FrontHas(s: seq<Entry>, cut: nat, m: int)
    requires cut <= |s|
  {
    exists i :: 0 <= i < cut && s[i].slot.counter == m
  }

  /** Cutting the front off a map in order loses exactly the slots that were in front. */
  lemma SlotInSuffix(s: seq<Entry>, cut: nat, slot: Slot)
    requires Increasing(s) && cut <= |s|
    ensures HasSlot(s[cut..], slot) <==> HasSlot(s, slot) && !FrontHas(s, cut, slot.counter)
  {
    var left := s[cut..];
    assert forall i :: 0 <= i < |left| ==> left[i] == s[cut + i];
    if HasSlot(s, slot) && !FrontHas(s, cut, slot.counter) {
      var i :| 0 <= i < |s| && s[i].slot == slot;
      assert left[i - cut] == s[i];
    }
  }

  lemma KeptIsSuffix(had: seq<Entry>, walked: seq<Entry>, limit: int)
    requires limit > 0
    ensures var all, kept := had + walked, Kept(had, walked, limit); |kept| <= |all| && kept == all[|all| - |kept|..]
  {
  }

  lemma WalkedSlots(c: Crypto, v: View, gap: nat, m: int)
    ensures HasSlot(Walked(c, v, gap), Slot(v.remote, m)) <==> v.recvCount < m <= v.recvCount + gap
  {
    if v.recvCount < m <= v.recvCount + gap {
      assert Walked(c, v, gap)[m - v.recvCount - 1].slot == Slot(v.remote, m);
    }
  }

  /** What is shifted out is unopened. */
  lemma FrontIsPending(c: Crypto, k0: Bytes, all: seq<Entry>, remote: Bytes, count: int, done: set<int>, cut: nat,
                       m: int)
    requires EntriesHold(c, k0, all, remote, count, done) && cut <= |all|
    ensures FrontHas(all, cut, m) ==> PendingIn(count, done, m) && HasSlot(all, Slot(remote, m))
  {
    if FrontHas(all, cut, m) {
      var i :| 0 <= i < cut && all[i].slot.counter == m;
      assert all[i].slot == Slot(remote, m);
    }
  }

  lemma LostByMeans(c: Crypto, r: Peer, gap: nat, m: int)
    requires gap > 0 && r.view.maxSkipped > 0
    ensures var had, walked := r.view.skipped, Walked(c, r.view, gap);
            var all, kept := had + walked, Kept(had, walked, r.view.maxSkipped);
            && |kept| <= |all| && kept == all[|all| - |kept|..] && SkipView(c, r.view, gap).skipped == kept
            && (m in LostBy(c, r, r.view.recvCount + gap + 1) <==> FrontHas(all, |all| - |kept|, m))
  {
    KeptIsSuffix(r.view.skipped, Walked(c, r.view, gap), r.view.maxSkipped);
    hide Kept, Walked, ChainAfter;
  }

  /** What is missing once the front of a map and all that was walked has been cut off. */
  lemma MissingAfterCut(c: Crypto, k0: Bytes, had: seq<Entry>, walked: seq<Entry>, cut: nat, remote: Bytes,
                        count: nat, done: set<int>, m: int)
    requires Increasing(had + walked) && cut <= |had + walked|
    requires var count' := count + |walked| + 1; EntriesHold(c, k0, had + walked, remote, count', done + {count'})
    requires HasSlot(walked, Slot(remote, m)) <==> count < m <= count + |walked|
    ensures var count' := count + |walked| + 1;
            PendingIn(count', done + {count'}, m) && !HasSlot((had + walked)[cut..], Slot(remote, m)) <==>
            (PendingIn(count, done, m) && !HasSlot(had, Slot(remote, m))) || FrontHas(had + walked, cut, m)
  {
    hide Increasing, EntriesHold, HasSlot, FrontHas;
    var count' := count + |walked| + 1;
    SlotInConcat(had, walked, Slot(remote, m));
    SlotInSuffix(had + walked, cut, Slot(remote, m));
    FrontIsPending(c, k0, had + walked, remote, count', done + {count'}, cut, m);
  }

  /** A walk that found room: what is missing afterwards was missing before or has just been shifted out. */
  lemma WalkLoses(c: Crypto, k0: Bytes, r: Peer, r': Peer, gap: nat, m: int)
    requires Receiver(c, k0, r) && gap > 0 && r.view.maxSkipped > 0
    requires OnlyReceived(r.view, r'.view) && r'.view.skipped == SkipView(c, r.view, gap).skipped
    requires r'.view.recvCount == r.view.recvCount + gap + 1 && r'.done == r.done + {r'.view.recvCount}
    ensures Missing(r', m) <==> Missing(r, m) || m in LostBy(c, r, r'.view.recvCount)
  {
    hide Walked, Increasing, EntriesHold, OldestGone, Kept, HasSlot, LostBy, FrontHas, SkipView, PendingIn, ChainAfter;
    var had, walked := r.view.skipped, Walked(c, r.view, gap);
    LostByMeans(c, r, gap, m);
    WalkExtendsMap(c, k0, r.view, r.done, gap);
    WalkedSlots(c, r.view, gap, m);
    MissingAfterCut(c, k0, had, walked, |had + walked| - |r'.view.skipped|, r.view.remote, r.view.recvCount, r.done, m);
  }

  lemma LostByFew(c: Crypto, r: Peer, n: nat, m: int)
    ensures n <= r.view.recvCount + 1 ==> m !in LostBy(c, r, n)
    ensures n > r.view.recvCount + 1 && r.view.maxSkipped <= 0 ==> (m in LostBy(c, r, n) <==> m == r.view.recvCount + 1)
  {
    hide Walked, Kept;
  }

  /** One delivery, in or out of order: what is missing afterwards was missing before or is lost by this delivery. */
  lemma DeliveryLoses(c: Crypto, k0: Bytes, s: Peer, r: Peer, i: nat, newKeys: KeyPair, m: int)
    requires Lawful(c) && Lane(c, k0, s, r) && i < |s.sent|
    ensures var r' := DeliverStep(c, r, s.sent[i].envelope, newKeys).1;
            Missing(r', m) <==> Missing(r, m) || m in LostBy(c, r, i + 1)
  {
    hide DeliverStep, SkippedMapHolds, Sender, SealedAs, LostBy, Missing, SkipView;
    LostByFew(c, r, i + 1, m);
    var n := i + 1;
    var r' := DeliverStep(c, r, s.sent[i].envelope, newKeys).1;
    if n <= r.view.recvCount {
      OldLosesNothing(c, k0, s, r, i, newKeys, m);
    } else {
      NewOutcome(c, k0, s, r, n, newKeys);
      if n == r.view.recvCount + 1 {
        NextLosesNothing(c, r, r', m);
      } else if r.view.maxSkipped > 0 {
        WalkLoses(c, k0, r, r', n - 1 - r.view.recvCount, m);
      } else {
        RefusalLoses(c, k0, r, r', m);
      }
    }
  }

  lemma NextLosesNothing(c: Crypto, r: Peer, r': Peer, m: int)
    requires OnlyReceived(r.view, r'.view) && r'.view.skipped == SkipView(c, r.view, 0).skipped
    requires r'.view.recvCount == r.view.recvCount + 1 && r'.done == r.done + {r'.view.recvCount}
    ensures Missing(r', m) <==> Missing(r, m)
  {
  }

  /** With no room at all the walk stops at its first key, which is gone. */
  lemma RefusalLoses(c: Crypto, k0: Bytes, r: Peer, r': Peer, m: int)
    requires Receiver(c, k0, r) && r.view.maxSkipped <= 0 && OnlyReceived(r.view, r'.view)
    requires r'.view.recvCount == r.view.recvCount + 1 && r'.done == r.done && r'.view.skipped == r.view.skipped
    ensures Missing(r', m) <==> Missing(r, m) || m == r.view.recvCount + 1
  {
  }

  lemma OldLosesNothing(c: Crypto, k0: Bytes, s: Peer, r: Peer, i: nat, newKeys: KeyPair, m: int)
    requires Lawful(c) && Lane(c, k0, s, r) && i < |s.sent| && i + 1 <= r.view.recvCount
    ensures Missing(DeliverStep(c, r, s.sent[i].envelope, newKeys).1, m) <==> Missing(r, m)
  {
    hide DeliverStep, Sender, MapHolds, Lookup, Without, Open;
    if Stored(r, i + 1) {
      var j :| 0 <= j < |r.view.skipped| && r.view.skipped[j].slot == Slot(r.view.remote, i + 1);
      DeliverStored(c, k0, s, r, i + 1, j, newKeys);
      InOrder(c, k0, r);
      OthersStay(r.view.skipped, j, Slot(r.view.remote, m));
    } else {
      NotStored(r, i + 1);
      OldDelivery(c, k0, s, r, i + 1, newKeys);
    }
  }

  lemma OthersStay(s: seq<Entry>, j: nat, slot: Slot)
    requires Increasing(s) && j < |s|
    ensures slot.counter != s[j].slot.counter ==> (HasSlot(s[..j] + s[j + 1..], slot) <==> HasSlot(s, slot))
  {
    var left := s[..j] + s[j + 1..];
    assert forall i :: 0 <= i < j ==> left[i] == s[i];
    assert forall i :: j < i < |s| ==> left[i - 1] == s[i];
    assert forall i :: j <= i < |left| ==> left[i] == s[i + 1];
  }

  lemma SendLosesNothing(c: Crypto, p: Peer, plaintext: Bytes, nonce: Bytes, m: int)
    ensures Missing(SendStep(c, p, plaintext, nonce), m) <==> Missing(p, m)
  {
  }

  lemma StepLoses(c: Crypto, k0: Bytes, w: World, ev: Event, toA: bool, m: int)
    requires Lawful(c) && Inv(c, k0, w)
    ensures Missing(Target(Step(c, w, ev), toA), m) <==> Missing(Target(w, toA), m) || m in LostNow(c, w, ev, toA)
  {
    hide LostBy, Missing, SendStep, DeliverStep, Lane;
    match ev
    case Send(byA, p, n) => SendLosesNothing(c, Target(w, byA), p, n, m);
    case Deliver(to, i, k) =>
      if to == toA && i < |Source(w, toA).sent| {
        DeliveryLoses(c, k0, Source(w, toA), Target(w, toA), i, k, m);
      }
  }

  lemma NothingMissingAtFirst(rootKey: Bytes, k0: Bytes, a: KeyPair, b: KeyPair, maxA: int, maxB: int, toA: bool)
    ensures MissingAre(Target(Start(rootKey, k0, a, b, maxA, maxB), toA), {})
  {
  }

  /** Missing is exactly what is in this set. */
  ghost predicate MissingAre(r: Peer, lost: set<int>) {
    forall m :: Missing(r, m) <==> m in lost
  }

  lemma StepLosesAll(c: Crypto, k0: Bytes, w: World, ev: Event, toA: bool, lost: set<int>)
    requires Lawful(c) && Inv(c, k0, w) && MissingAre(Target(w, toA), lost)
    ensures MissingAre(Target(Step(c, w, ev), toA), lost + LostNow(c, w, ev, toA))
  {
    hide Missing, LostNow, Step, Inv, Target, Lawful;
    forall m ensures Missing(Target(Step(c, w, ev), toA), m) <==> m in lost + LostNow(c, w, ev, toA) {
      StepLoses(c, k0, w, ev, toA, m);
    }
  }

  /** In any run at all: what is unopened, passed over and not stored is exactly what walks have thrown away. */
  lemma {:induction false} MissingIsLost(c: Crypto, rootKey: Bytes, k0: Bytes, a: KeyPair, b: KeyPair,
                                         maxA: int, maxB: int, evs: seq<Event>, toA: bool)
    requires Lawful(c)
    ensures var w0 := Start(rootKey, k0, a, b, maxA, maxB);
            MissingAre(Target(Run(c, w0, evs), toA), Lost(c, w0, evs, toA))
  {
    hide MissingAre, LostNow, Step, Inv, Target, Start, Lawful;
    if evs != [] {
      var front := evs[..|evs| - 1];
      var w := Run(c, Start(rootKey, k0, a, b, maxA, maxB), front);
      MissingIsLost(c, rootKey, k0, a, b, maxA, maxB, front, toA);
      RunKeepsInv(c, rootKey, k0, a, b, maxA, maxB, front);
      StepLosesAll(c, k0, w, evs[|evs| - 1], toA, Lost(c, Start(rootKey, k0, a, b, maxA, maxB), front, toA));
    } else {
      NothingMissingAtFirst(rootKey, k0, a, b, maxA, maxB, toA);
    }
  }

  predicate Nothing(lost: set<int>) {
    forall m :: m !in lost
  }

  /** A delivery to a peer that has lost nothing loses nothing exactly when it fits. */
  lemma LosesNothingIffFits(c: Crypto, k0: Bytes, r: Peer, n: nat)
    requires SkippedMapHolds(c, k0, r) && NoneEvicted(r)
    ensures Nothing(LostBy(c, r, n)) <==> Fits(r, n)
  {
    StoredCount(c, k0, r);
    hide MapHolds, NoneEvicted, Walked;
    if n > r.view.recvCount + 1 && r.view.maxSkipped > 0 {
      var gap: nat := n - 1 - r.view.recvCount;
      var all := r.view.skipped + Walked(c, r.view, gap);
      var cut := |all| - |Kept(r.view.skipped, Walked(c, r.view, gap), r.view.maxSkipped)|;
      assert cut > 0 ==> all[0].slot.counter in LostBy(c, r, n);
    }
  }

  lemma NoneMissing(r: Peer, lost: set<int>)
    requires MissingAre(r, lost)
    ensures NoneEvicted(r) <==> Nothing(lost)
  {
    forall m | Pending(r, m) && Nothing(lost) ensures Stored(r, m) {
      assert Missing(r, m) <==> m in lost;
    }
    forall m | NoneEvicted(r) ensures m !in lost {
      assert Missing(r, m) <==> m in lost;
    }
  }

  /**
   A run evicts nothing, at any step of it, exactly when every delivery of it fits: what is pending, with the gap that
   the envelope opens, is within the limit.
   */
  lemma {:induction false} EvictsNothingIffFits(c: Crypto, rootKey: Bytes, k0: Bytes, a: KeyPair, b: KeyPair,
                                                maxA: int, maxB: int, evs: seq<Event>)
    requires Lawful(c)
    ensures var w0 := Start(rootKey, k0, a, b, maxA, maxB); var w := Run(c, w0, evs);
            && (NoneEvicted(w.a) && NoneEvicted(w.b) <==> AllFit(c, w0, evs))
            && (AllFit(c, w0, evs) <==> Nothing(Lost(c, w0, evs, true)) && Nothing(Lost(c, w0, evs, false)))
  {
    hide NoneEvicted, MissingAre, Step, LostBy, Fits, SkippedMapHolds;
    var w0 := Start(rootKey, k0, a, b, maxA, maxB);
    MissingIsLost(c, rootKey, k0, a, b, maxA, maxB, evs, true);
    NoneMissing(Run(c, w0, evs).a, Lost(c, w0, evs, true));
    MissingIsLost(c, rootKey, k0, a, b, maxA, maxB, evs, false);
    NoneMissing(Run(c, w0, evs).b, Lost(c, w0, evs, false));
    if evs != [] {
      var front, last := evs[..|evs| - 1], evs[|evs| - 1];
      EvictsNothingIffFits(c, rootKey, k0, a, b, maxA, maxB, front);
      var w := Run(c, w0, front);
      RunKeepsInv(c, rootKey, k0, a, b, maxA, maxB, front);
      if AllFit(c, w0, front) && last.Deliver? {
        LosesNothingIffFits(c, k0, Target(w, last.toA), last.index + 1);
      }
    }
  }

  lemma StoredAreNewest(c: Crypto, k0: Bytes, r: Peer, lost: set<int>, n: int)
    requires SkippedMapHolds(c, k0, r) && MissingAre(r, lost)
    ensures Stored(r, n) <==> Pending(r, n) && forall e :: e in lost ==> e < n
  {
    hide Increasing;
    var s := r.view.skipped;
    if Stored(r, n) {
      var i :| 0 <= i < |s| && s[i].slot == Slot(r.view.remote, n);
      forall e | e in lost ensures e < n {
        assert Missing(r, e);
        assert PendingIn(r.view.recvCount, r.done, e) && !HasSlot(s, Slot(r.view.remote, e)) && e < s[i].slot.counter;
      }
    } else if Pending(r, n) {
      assert Missing(r, n);
    }
  }

  /**
   In any run at all, both skipped maps are in order, within the limit, each key the sender's own; and stored are
   exactly the unopened messages that are newer than everything the run has evicted.
   */
  lemma {:induction false} EveryRunKeepsMaps(c: Crypto, rootKey: Bytes, k0: Bytes, a: KeyPair, b: KeyPair,
                                             maxA: int, maxB: int, evs: seq<Event>, toA: bool, n: int)
    requires Lawful(c)
    ensures var w0 := Start(rootKey, k0, a, b, maxA, maxB);
            var r := Target(Run(c, w0, evs), toA);
            && SkippedMapHolds(c, k0, r)
            && (Stored(r, n) <==> Pending(r, n) && forall e :: e in Lost(c, w0, evs, toA) ==> e < n)
  {
    hide Run, Lost, MissingAre, SkippedMapHolds;
    var w0 := Start(rootKey, k0, a, b, maxA, maxB);
    RunKeepsInv(c, rootKey, k0, a, b, maxA, maxB, evs);
    MissingIsLost(c, rootKey, k0, a, b, maxA, maxB, evs, toA);
    StoredAreNewest(c, k0, Target(Run(c, w0, evs), toA), Lost(c, w0, evs, toA), n);
  }

  /** In any run at all, what a delivery does is decided by the counter, the map and the limit, as `Delivers` says. */
  lemma {:induction false} EveryDelivery(c: Crypto, rootKey: Bytes, k0: Bytes, a: KeyPair, b: KeyPair,
                                         maxA: int, maxB: int, evs: seq<Event>, toA: bool, i: nat, newKeys: KeyPair)
    requires Lawful(c)
    requires i < |Source(Run(c, Start(rootKey, k0, a, b, maxA, maxB), evs), toA).sent|
    ensures var w := Run(c, Start(rootKey, k0, a, b, maxA, maxB), evs);
            var s, r := Source(w, toA), Target(w, toA);
            var (o, r') := DeliverStep(c, r, s.sent[i].envelope, newKeys);
            Delivers(s, r, i + 1, o, r')
  {
    hide DeliverStep, Sender, Receiver;
    var w := Run(c, Start(rootKey, k0, a, b, maxA, maxB), evs);
    RunKeepsInv(c, rootKey, k0, a, b, maxA, maxB, evs);
    DeliverOne(c, k0, Source(w, toA), Target(w, toA), i, newKeys);
  }

  /**
   The session's promise: after any run within the limit, the first delivery of an envelope yields its own plaintext
   and every repeat is refused as a replay that changes nothing.
   */
  lemma {:induction false} FittingRunDelivers(c: Crypto, rootKey: Bytes, k0: Bytes, a: KeyPair, b: KeyPair,
                                              maxA: int, maxB: int, evs: seq<Event>, toA: bool, i: nat,
                                              newKeys: KeyPair)
    requires Lawful(c) && AllFit(c, Start(rootKey, k0, a, b, maxA, maxB), evs + [Deliver(toA, i, newKeys)])
    ensures var w := Run(c, Start(rootKey, k0, a, b, maxA, maxB), evs);
            var s, r := Source(w, toA), Target(w, toA);
            i < |s.sent| ==>
              var (o, r') := DeliverStep(c, r, s.sent[i].envelope, newKeys);
              if i + 1 in r.done then o == Replay && r' == r
              else o == Opened(s.sent[i].plaintext) && r'.done == r.done + {i + 1}
  {
    var w := Run(c, Start(rootKey, k0, a, b, maxA, maxB), evs);
    var s, r := Source(w, toA), Target(w, toA);
    assert (evs + [Deliver(toA, i, newKeys)])[..|evs|] == evs;
    EvictsNothingIffFits(c, rootKey, k0, a, b, maxA, maxB, evs);
    RunKeepsInv(c, rootKey, k0, a, b, maxA, maxB, evs);
    if i < |s.sent| {
      DeliverOne(c, k0, s, r, i, newKeys);
      assert i + 1 !in r.done && i + 1 <= r.view.recvCount ==> Pending(r, i + 1);
      assert i + 1 in r.done ==> !Stored(r, i + 1);
    }
  }

  // ----- which key, which header -----------------------------------------------------------------------------------

  /**
   In any run the envelope with number n of either peer is sealed under place 2n - 1 of the path that starts at the
   handshake's chain key.  So as long as the path does not come back, no peer seals two envelopes under one key, nor
   under a chain key: two envelopes share a key exactly when they have the same number.
   */
  lemma EnvelopesSealedOnThePath(c: Crypto, rootKey: Bytes, k0: Bytes, a: KeyPair, b: KeyPair, maxA: int, maxB: int,
                                 evs: seq<Event>, ofA: bool, i: nat, ofA': bool, j: nat)
    requires Lawful(c)
    requires var w := Run(c, Start(rootKey, k0, a, b, maxA, maxB), evs);
             i < |Target(w, ofA).sent| && j < |Target(w, ofA').sent|
    ensures var w := Run(c, Start(rootKey, k0, a, b, maxA, maxB), evs);
            var x, y := Target(w, ofA).sent[i], Target(w, ofA').sent[j];
            var key, key' := Iter(Forward(c), k0, 2 * i + 1), Iter(Forward(c), k0, 2 * j + 1);
            && x.envelope == Seal(c, key, x.plaintext, x.envelope.nonce, x.envelope.header)
            && y.envelope == Seal(c, key', y.plaintext, y.envelope.nonce, y.envelope.header)
            && (Distinct(Forward(c), k0, 2 * Max(i, j) + 2) ==> (key == key' <==> i == j))
            && Target(w, ofA).view.sendKey == Iter(Forward(c), k0, 2 * |Target(w, ofA).sent|)
  {
    hide Run, Receiver, Iter, Forward, ChainAfter, NthKey, Lawful, Distinct;
    RunKeepsInv(c, rootKey, k0, a, b, maxA, maxB, evs);
    var w := Run(c, Start(rootKey, k0, a, b, maxA, maxB), evs);
    assert SealedAs(c, k0, Target(w, ofA), i) && SealedAs(c, k0, Target(w, ofA'), j);
    ChainIsOnePath(c, k0, i + 1);
    ChainIsOnePath(c, k0, j + 1);
    ChainIsOnePath(c, k0, |Target(w, ofA).sent|);
    if Distinct(Forward(c), k0, 2 * Max(i, j) + 2) && i != j {
      TwoPlaces(c, k0, 2 * Max(i, j) + 2, 2 * i + 1, 2 * j + 1);
    }
  }

  /** A peer's envelopes are the run's sends, in order: what was sent, and how far the peer had received by then. */
  lemma {:induction false} EveryEnvelopeWasSent(c: Crypto, rootKey: Bytes, k0: Bytes, a: KeyPair, b: KeyPair,
                                                maxA: int, maxB: int, evs: seq<Event>, ofA: bool, i: nat)
    returns (m: nat)
    requires Lawful(c) && i < |Target(Run(c, Start(rootKey, k0, a, b, maxA, maxB), evs), ofA).sent|
    ensures m < |evs|
    ensures var w0 := Start(rootKey, k0, a, b, maxA, maxB);
            var x, before := Target(Run(c, w0, evs), ofA).sent[i], Target(Run(c, w0, evs[..m]), ofA);
            && evs[m] == Send(ofA, x.plaintext, x.envelope.nonce) && |before.sent| == i
            && x.envelope.header == Header((if ofA then a else b).publicKey, i + 1, before.view.recvCount, [])
  {
    var w0, n := Start(rootKey, k0, a, b, maxA, maxB), |evs| - 1;
    var w := Run(c, w0, evs[..n]);
    RunKeepsInv(c, rootKey, k0, a, b, maxA, maxB, evs[..n]);
    NoDhBranch(c, rootKey, k0, a, b, maxA, maxB, evs[..n]);
    SentOnly(c, w, evs[n], ofA);
    SentCount(c, k0, w, ofA);
    hide Step, Receiver, SealedAs, Inv;
    if i < |Target(w, ofA).sent| {
      m := EveryEnvelopeWasSent(c, rootKey, k0, a, b, maxA, maxB, evs[..n], ofA, i);
      assert evs[..n][..m] == evs[..m];
    } else {
      m := n;
    }
  }

  lemma SentCount(c: Crypto, k0: Bytes, w: World, ofA: bool)
    requires Inv(c, k0, w)
    ensures Target(w, ofA).view.sendCount == |Target(w, ofA).sent|
  {
  }

  lemma SentOnly(c: Crypto, w: World, ev: Event, ofA: bool)
    ensures var p, q := Target(w, ofA), Target(Step(c, w, ev), ofA);
            if ev.Send? && ev.byA == ofA then
              && |q.sent| == |p.sent| + 1 && q.sent[..|p.sent|] == p.sent
              && var x := q.sent[|p.sent|];
                 && x.plaintext == ev.plaintext && x.envelope.nonce == ev.nonce
                 && x.envelope.header ==
                    Header(p.view.local.publicKey, p.view.sendCount + 1, p.view.recvCount, [])
            else q.sent == p.sent
  {
    hide DecryptView, NextChain;
  }
}
