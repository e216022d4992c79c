/**
 The symmetric-key ratchet of packages/crypto/src/sessions/ratchet.ts.

 A session record points at two mutable chains and a mutable, insertion-ordered map of skipped keys; `decrypt` copies
 the record but keeps the pointers.  `View` is the value a session has at one moment, and `EncryptView` and
 `DecryptView` say what one call does to it.
 */
module Ratchet {
  import opened Common

  newtype byte = x: int | 0 <= x < 256
  type Bytes = seq<byte>

  datatype Info = InfoDh | InfoChainSend | InfoChainRecv | InfoMessage
  datatype KeyPair = KeyPair(publicKey: Bytes, secretKey: Bytes)
  datatype Header = Header(publicKey: Bytes, counter: int, previousCounter: int, additionalData: Bytes)
  datatype Envelope = Envelope(nonce: Bytes, ciphertext: Bytes, header: Header)

  /** The primitives the ratchet calls: HKDF, key agreement, and an AEAD over (key, text, nonce, additional data). */
  datatype Crypto = Crypto(
    extract: (Bytes, Bytes) -> Bytes,
    expand: (Bytes, Info) -> Bytes,
    agree: (Bytes, Bytes) -> Bytes,
    encrypt: (Bytes, Bytes, Bytes, Bytes) -> Bytes,
    decrypt: (Bytes, Bytes, Bytes, Bytes) -> Option<Bytes>)

  /** The one law the proofs use: opening inverts sealing. */
  ghost predicate Lawful(c: Crypto) {
    forall k, p, n, a :: c.decrypt(k, c.encrypt(k, p, n, a), n, a) == Some(p)
  }

  function MessageKey(c: Crypto, chainKey: Bytes): Bytes {
    c.expand(chainKey, InfoMessage)
  }

  function NextChain(c: Crypto, chainKey: Bytes): Bytes {
    c.expand(MessageKey(c, chainKey), InfoMessage)
  }

  /** The chain key after n messages. */
  function ChainAfter(c: Crypto, chainKey: Bytes, n: nat): Bytes {
    if n == 0 then chainKey else NextChain(c, ChainAfter(c, chainKey, n - 1))
  }

  /** The key of the n-th message of a chain, counting from 1. */
  function NthKey(c: Crypto, chainKey: Bytes, n: nat): Bytes
    requires n >= 1
  {
    MessageKey(c, ChainAfter(c, chainKey, n - 1))
  }

  lemma {:induction false} ChainAfterAdds(c: Crypto, chainKey: Bytes, m: nat, n: nat)
    ensures ChainAfter(c, ChainAfter(c, chainKey, m), n) == ChainAfter(c, chainKey, m + n)
  {
    if n > 0 {
      ChainAfterAdds(c, chainKey, m, n - 1);
    }
  }

  // ----- every key is a new one ------------------------------------------------------------------------------------

  function Iter<T>(f: T -> T, x: T, n: nat): T {
    if n == 0 then x else f(Iter(f, x, n - 1))
  }

  /** One step onward, from a chain key to a message key as from a message key to a chain key. */
  function Forward(c: Crypto): Bytes -> Bytes {
    k => c.expand(k, InfoMessage)
  }

  /** A chain and its message keys are one path: message keys at the odd places, chain keys at the even ones. */
  lemma {:induction false} ChainIsOnePath(c: Crypto, chainKey: Bytes, n: nat)
    ensures ChainAfter(c, chainKey, n) == Iter(Forward(c), chainKey, 2 * n)
    ensures n >= 1 ==> NthKey(c, chainKey, n) == Iter(Forward(c), chainKey, 2 * n - 1)
  {
    if n > 0 {
      ChainIsOnePath(c, chainKey, n - 1);
      assert Iter(Forward(c), chainKey, 2 * n - 1) == Forward(c)(Iter(Forward(c), chainKey, 2 * (n - 1)));
    }
  }

  /** The first `steps` places of the path differ from each other. */
  ghost predicate Distinct<T(!new)>(f: T -> T, x: T, steps: nat) {
    forall i, j :: 0 <= i < j < steps ==> Iter(f, x, i) != Iter(f, x, j)
  }

  /** No two of n message keys are the same, no two of n chain keys are, and no message key is a chain key. */
  ghost predicate KeysDiffer(c: Crypto, k: Bytes, n: nat) {
    && (forall i, j :: 1 <= i < j <= n ==> NthKey(c, k, i) != NthKey(c, k, j))
    && (forall i, j :: 0 <= i < j < n ==> ChainAfter(c, k, i) != ChainAfter(c, k, j))
    && (forall i, j :: 1 <= i <= n && 0 <= j < n ==> NthKey(c, k, i) != ChainAfter(c, k, j))
  }

  lemma TwoPlaces(c: Crypto, k: Bytes, steps: nat, i: nat, j: nat)
    requires Distinct(Forward(c), k, steps) && i < steps && j < steps && i != j
    ensures Iter(Forward(c), k, i) != Iter(Forward(c), k, j)
  {
    hide Iter, Forward;
  }

  /** The keys of n messages differ exactly as long as the path does not come back to an earlier place. */
  lemma {:induction false} KeysDifferIffPathDoes(c: Crypto, k: Bytes, n: nat)
    ensures KeysDiffer(c, k, n) <==> Distinct(Forward(c), k, 2 * n)
  {
    hide Iter, NthKey, ChainAfter, Forward, Distinct;
    if Distinct(Forward(c), k, 2 * n) {
      forall i, j | 1 <= i < j <= n ensures NthKey(c, k, i) != NthKey(c, k, j) {
        ChainIsOnePath(c, k, i);
        ChainIsOnePath(c, k, j);
        TwoPlaces(c, k, 2 * n, 2 * i - 1, 2 * j - 1);
      }
      forall i, j | 0 <= i < j < n ensures ChainAfter(c, k, i) != ChainAfter(c, k, j) {
        ChainIsOnePath(c, k, i);
        ChainIsOnePath(c, k, j);
        TwoPlaces(c, k, 2 * n, 2 * i, 2 * j);
      }
      forall i, j | 1 <= i <= n && 0 <= j < n ensures NthKey(c, k, i) != ChainAfter(c, k, j) {
        ChainIsOnePath(c, k, i);
        ChainIsOnePath(c, k, j);
        TwoPlaces(c, k, 2 * n, 2 * i - 1, 2 * j);
      }
    }
    if KeysDiffer(c, k, n) {
      KeysToPath(c, k, n);
    }
  }

  lemma KeysToPath(c: Crypto, k: Bytes, n: nat)
    requires KeysDiffer(c, k, n)
    ensures Distinct(Forward(c), k, 2 * n)
  {
    hide Iter, NthKey, ChainAfter, Forward;
    forall i: nat, j: nat | i < j < 2 * n ensures Iter(Forward(c), k, i) != Iter(Forward(c), k, j) {
      PlaceOf(c, k, i);
      PlaceOf(c, k, j);
    }
  }

  lemma PlaceOf(c: Crypto, k: Bytes, i: nat)
    ensures Iter(Forward(c), k, i) == if i % 2 == 0 then ChainAfter(c, k, i / 2) else NthKey(c, k, i / 2 + 1)
  {
    ChainIsOnePath(c, k, i / 2);
    ChainIsOnePath(c, k, i / 2 + 1);
  }

  /** An expansion that always lengthens its input never comes back. */
  lemma {:induction false} GrowingNeverReturns(c: Crypto, k: Bytes, steps: nat)
    requires forall x :: |c.expand(x, InfoMessage)| > |x|
    ensures Distinct(Forward(c), k, steps)
  {
    forall i: nat, j: nat | i < j < steps ensures Iter(Forward(c), k, i) != Iter(Forward(c), k, j) {
      GrowsFrom(c, k, i, j);
    }
  }

  lemma {:induction false} GrowsFrom(c: Crypto, k: Bytes, i: nat, j: nat)
    requires i < j && forall x :: |c.expand(x, InfoMessage)| > |x|
    ensures |Iter(Forward(c), k, i)| < |Iter(Forward(c), k, j)|
  {
    if i < j - 1 {
      GrowsFrom(c, k, i, j - 1);
    }
  }

  // ----- the skipped-key map ---------------------------------------------------------------------------------------

  /** A map key, `base64url(publicKey):counter`; base64url has no colon, so the pair loses nothing. */
  datatype Slot = Slot(publicKey: Bytes, counter: int)
  datatype Entry = Entry(slot: Slot, key: Bytes)

  ghost predicate HasSlot(entries: seq<Entry>, slot: Slot) {
    exists i :: 0 <= i < |entries| && entries[i].slot == slot
  }

  function Lookup(entries: seq<Entry>, slot: Slot): (r: Option<Bytes>)
    ensures r.Some? <==> HasSlot(entries, slot)
    ensures r.Some? ==> Entry(slot, r.value) in entries
  {
    if entries == [] then None
    else if entries[0].slot == slot then Some(entries[0].key)
    else
      assert HasSlot(entries[1..], slot) ==> HasSlot(entries, slot) by {
        if HasSlot(entries[1..], slot) {
          var i :| 0 <= i < |entries[1..]| && entries[1..][i].slot == slot;
          assert entries[i + 1].slot == slot;
        }
      }
      assert HasSlot(entries, slot) ==> HasSlot(entries[1..], slot) by {
        if HasSlot(entries, slot) {
          var i :| 0 <= i < |entries| && entries[i].slot == slot;
          assert entries[1..][i - 1].slot == slot;
        }
      }
      Lookup(entries[1..], slot)
  }

  function Without(entries: seq<Entry>, slot: Slot): seq<Entry> {
    if entries == [] then []
    else if entries[0].slot == slot then entries[1..]
    else [entries[0]] + Without(entries[1..], slot)
  }

  /** Map.set: an existing key keeps its place, a new one goes last. */
  function With(entries: seq<Entry>, slot: Slot, key: Bytes): seq<Entry> {
    if entries == [] then [Entry(slot, key)]
    else if entries[0].slot == slot then [Entry(slot, key)] + entries[1..]
    else [entries[0]] + With(entries[1..], slot, key)
  }

  ghost predicate Lacks(entries: seq<Entry>, slot: Slot) {
    forall i :: 0 <= i < |entries| ==> entries[i].slot != slot
  }

  lemma {:induction false} WithNewSlotAppends(entries: seq<Entry>, slot: Slot, key: Bytes)
    requires Lacks(entries, slot)
    ensures With(entries, slot, key) == entries + [Entry(slot, key)]
  {
    if entries != [] {
      WithNewSlotAppends(entries[1..], slot, key);
    }
  }

  /** storeSkipped for a positive limit: at the limit the oldest entry goes first. */
  function Store(entries: seq<Entry>, limit: int, slot: Slot, key: Bytes): seq<Entry> {
    With(if |entries| >= limit && entries != [] then entries[1..] else entries, slot, key)
  }

  /** What a whole walk leaves: the newest entries of `had + new`, as many as the limit allows. */
  function Kept(had: seq<Entry>, walked: seq<Entry>, limit: int): (kept: seq<Entry>)
    requires limit > 0
    ensures |kept| == Max(|had|, Min(limit, |had| + |walked|))
  {
    var all := had + walked;
    all[|all| - Max(|had|, Min(limit, |all|))..]
  }

  lemma KeptAll(had: seq<Entry>, walked: seq<Entry>, limit: int)
    requires |had| + |walked| <= limit && limit > 0
    ensures Kept(had, walked, limit) == had + walked
  {
  }

  /** How many entries are cut off the front when `size` of them follow `had` old ones. */
  function Cut(had: nat, size: nat, limit: int): int {
    size - Max(had, Min(limit, size))
  }

  lemma CutOfMore(had: nat, size: nat, limit: int)
    requires limit > 0 && had <= size
    ensures 0 <= Cut(had, size, limit) <= size
    ensures Cut(had, size + 1, limit) ==
            Cut(had, size, limit) + (if size - Cut(had, size, limit) >= limit then 1 else 0)
    ensures size - Cut(had, size, limit) >= limit ==> Cut(had, size, limit) < size
  {
  }

  lemma KeptIsCut(had: seq<Entry>, walked: seq<Entry>, limit: int)
    requires limit > 0
    ensures var cut := Cut(|had|, |had + walked|, limit);
            0 <= cut <= |had + walked| && Kept(had, walked, limit) == (had + walked)[cut..]
  {
    CutOfMore(|had|, |had + walked|, limit);
  }

  lemma SuffixOfMore(all: seq<Entry>, e: Entry, cut: nat)
    requires cut <= |all|
    ensures (all + [e])[cut..] == all[cut..] + [e]
    ensures cut < |all| ==> all[cut..][1..] == all[cut + 1..]
  {
  }

  lemma KeptOfMore(had: seq<Entry>, walked: seq<Entry>, limit: int, e: Entry)
    requires limit > 0
    ensures var kept := Kept(had, walked, limit);
            Kept(had, walked + [e], limit) == (if |kept| >= limit then kept[1..] else kept) + [e]
  {
    hide Kept, Cut, Max, Min;
    var all, cut := had + walked, Cut(|had|, |had + walked|, limit);
    assert had + (walked + [e]) == all + [e];
    KeptIsCut(had, walked, limit);
    KeptIsCut(had, walked + [e], limit);
    CutOfMore(|had|, |all|, limit);
    SuffixOfMore(all, e, cut);
    if cut < |all| {
      SuffixOfMore(all, e, cut + 1);
    }
  }

  lemma KeptLacks(had: seq<Entry>, walked: seq<Entry>, limit: int, slot: Slot)
    requires limit > 0 && Lacks(had, slot) && Lacks(walked, slot)
    ensures Lacks(Kept(had, walked, limit), slot)
  {
    assert Lacks(had + walked, slot);
  }

  lemma StoreNewSlot(entries: seq<Entry>, limit: int, e: Entry)
    requires limit > 0 && Lacks(entries, e.slot)
    ensures Store(entries, limit, e.slot, e.key) == (if |entries| >= limit then entries[1..] else entries) + [e]
  {
    WithNewSlotAppends(if |entries| >= limit then entries[1..] else entries, e.slot, e.key);
    hide With;
  }

  lemma StoreExtendsKept(had: seq<Entry>, walked: seq<Entry>, limit: int, e: Entry)
    requires limit > 0 && Lacks(had, e.slot) && Lacks(walked, e.slot)
    ensures Store(Kept(had, walked, limit), limit, e.slot, e.key) == Kept(had, walked + [e], limit)
  {
    hide Kept, Lacks, Store;
    KeptLacks(had, walked, limit, e.slot);
    StoreNewSlot(Kept(had, walked, limit), limit, e);
    KeptOfMore(had, walked, limit, e);
  }

  // ----- the value of a session ------------------------------------------------------------------------------------

  datatype View = View(rootKey: Bytes, sendKey: Bytes, sendCount: nat, recvKey: Bytes, recvCount: nat,
                       local: KeyPair, remote: Bytes, skipped: seq<Entry>, maxSkipped: int)

  datatype Outcome = Opened(plaintext: Bytes) | Replay | LimitExceeded(limit: int) | Rejected

  /** No stored key lies ahead of the receive counter, so a walk never meets its own slots. */
  ghost predicate BehindCounter(v: View) {
    forall i :: 0 <= i < |v.skipped| && v.skipped[i].slot.publicKey == v.remote ==>
      v.skipped[i].slot.counter <= v.recvCount
  }

  function StartView(rootKey: Bytes, chainKey: Bytes, local: KeyPair, remote: Bytes, maxSkipped: int): View {
    View(rootKey, chainKey, 0, chainKey, 0, local, remote, [], maxSkipped)
  }

  function Seal(c: Crypto, key: Bytes, plaintext: Bytes, nonce: Bytes, header: Header): Envelope {
    Envelope(nonce, c.encrypt(key, plaintext, nonce, header.additionalData), header)
  }

  function Open(c: Crypto, key: Bytes, e: Envelope): Outcome {
    match c.decrypt(key, e.ciphertext, e.nonce, e.header.additionalData)
    case Some(p) => Opened(p)
    case None => Rejected
  }

  function EncryptView(c: Crypto, v: View, plaintext: Bytes, nonce: Bytes): (Envelope, View) {
    var header := Header(v.local.publicKey, v.sendCount + 1, v.recvCount, []);
    (Seal(c, MessageKey(c, v.sendKey), plaintext, nonce, header),
     v.(sendKey := NextChain(c, v.sendKey), sendCount := v.sendCount + 1))
  }

  /** The Diffie-Hellman branch: new root, new chains from counter 0, no skipped keys. */
  function DhView(c: Crypto, v: View, remote: Bytes, newKeys: KeyPair): View {
    var prk := c.extract(v.rootKey, c.agree(newKeys.secretKey, remote));
    View(c.expand(prk, InfoDh), c.expand(prk, InfoChainSend), 0, c.expand(prk, InfoChainRecv), 0,
         newKeys, remote, [], v.maxSkipped)
  }

  /** The entries a walk of n steps stores, in order. */
  function Walked(c: Crypto, v: View, n: nat): (s: seq<Entry>)
    ensures |s| == n
    ensures forall i :: 0 <= i < n ==>
      s[i] == Entry(Slot(v.remote, v.recvCount + i + 1), NthKey(c, v.recvKey, i + 1))
  {
    seq(n, i requires 0 <= i < n => Entry(Slot(v.remote, v.recvCount + i + 1), NthKey(c, v.recvKey, i + 1)))
  }

  /** The session after a walk of n steps that found room. */
  function SkipView(c: Crypto, v: View, n: nat): View
    requires n > 0 ==> v.maxSkipped > 0
  {
    v.(recvKey := ChainAfter(c, v.recvKey, n), recvCount := v.recvCount + n,
       skipped := if n == 0 then v.skipped else Kept(v.skipped, Walked(c, v, n), v.maxSkipped))
  }

  /** The session after one key has been derived from the receive chain. */
  function Advance(c: Crypto, v: View): View {
    v.(recvKey := NextChain(c, v.recvKey), recvCount := v.recvCount + 1)
  }

  function ReceiveView(c: Crypto, v: View, e: Envelope): (Outcome, View)
    requires e.header.counter > v.recvCount
  {
    var gap: nat := e.header.counter - 1 - v.recvCount;
    if gap > 0 && v.maxSkipped <= 0 then (LimitExceeded(v.maxSkipped), Advance(c, v))
    else
      var w := SkipView(c, v, gap);
      (Open(c, MessageKey(c, w.recvKey), e), Advance(c, w))
  }

  /** One step of the walk: derive a key, and store it if the limit allows any. */
  function SkipOneView(c: Crypto, v: View): View {
    if v.maxSkipped <= 0 then Advance(c, v)
    else Advance(c, v).(skipped := Store(v.skipped, v.maxSkipped, Slot(v.remote, v.recvCount + 1),
                                         MessageKey(c, v.recvKey)))
  }

  lemma OneStep(c: Crypto, v: View)
    ensures v.maxSkipped <= 0 ==> SkipOneView(c, v) == Advance(c, v)
  {
  }

  lemma SkipCounts(c: Crypto, v: View, n: nat)
    requires n > 0 ==> v.maxSkipped > 0
    ensures SkipView(c, v, n).recvCount == v.recvCount + n
  {
  }

  lemma SkipNothing(c: Crypto, v: View)
    ensures SkipView(c, v, 0) == v
  {
  }

  /** The slots of a walk are ahead of everything stored, and each is its own. */
  lemma WalkedIsNew(c: Crypto, v: View, n: nat)
    requires BehindCounter(v)
    ensures var slot := Slot(v.remote, v.recvCount + n + 1); Lacks(v.skipped, slot) && Lacks(Walked(c, v, n), slot)
    ensures Walked(c, v, n + 1) ==
            Walked(c, v, n) + [Entry(Slot(v.remote, v.recvCount + n + 1), NthKey(c, v.recvKey, n + 1))]
  {
  }

  lemma KeptNothing(had: seq<Entry>, limit: int)
    requires limit > 0
    ensures Kept(had, [], limit) == had
  {
  }

  /** The map after one more step. */
  lemma SkippedStep(c: Crypto, v: View, n: nat)
    requires BehindCounter(v) && v.maxSkipped > 0
    ensures SkipView(c, v, n + 1).skipped == SkipOneView(c, SkipView(c, v, n)).skipped
  {
    hide Kept, Store, BehindCounter, Walked;
    var walked, e := Walked(c, v, n), Entry(Slot(v.remote, v.recvCount + n + 1), NthKey(c, v.recvKey, n + 1));
    WalkedIsNew(c, v, n);
    StoreExtendsKept(v.skipped, walked, v.maxSkipped, e);
    KeptNothing(v.skipped, v.maxSkipped);
    assert n == 0 ==> walked == [];
  }

  lemma SkipViewStep(c: Crypto, v: View, n: nat)
    requires BehindCounter(v) && v.maxSkipped > 0
    ensures SkipView(c, v, n + 1) == SkipOneView(c, SkipView(c, v, n))
  {
    SkippedStep(c, v, n);
    hide Kept, Store, BehindCounter, Walked, NthKey, MessageKey;
  }

  function DecryptView(c: Crypto, v: View, e: Envelope, newKeys: KeyPair): (Outcome, View) {
    var slot := Slot(e.header.publicKey, e.header.counter);
    if e.header.counter <= v.recvCount then
      match Lookup(v.skipped, slot)
      case None => (Replay, v)
      case Some(key) => (Open(c, key, e), v.(skipped := Without(v.skipped, slot)))
    else if e.header.publicKey != v.remote then
      ReceiveView(c, DhView(c, v, e.header.publicKey, newKeys), e)
    else
      ReceiveView(c, v, e)
  }

  lemma {:induction false} WithoutOnlyRemoves(entries: seq<Entry>, slot: Slot)
    ensures forall e :: e in Without(entries, slot) ==> e in entries
    ensures forall e :: e in entries && e.slot != slot ==> e in Without(entries, slot)
  {
    if entries != [] && entries[0].slot != slot {
      WithoutOnlyRemoves(entries[1..], slot);
      assert entries == [entries[0]] + entries[1..];
    } else if entries != [] {
      assert entries == [entries[0]] + entries[1..];
    }
  }

  lemma AdvanceStaysBehind(c: Crypto, v: View)
    requires BehindCounter(v)
    ensures BehindCounter(Advance(c, v))
  {
  }

  lemma KeptAreOfBoth(had: seq<Entry>, walked: seq<Entry>, limit: int)
    requires limit > 0
    ensures forall e :: e in Kept(had, walked, limit) ==> e in had || e in walked
  {
  }

  lemma WalkStaysBehind(c: Crypto, v: View, n: nat)
    requires BehindCounter(v) && (n > 0 ==> v.maxSkipped > 0)
    ensures BehindCounter(SkipView(c, v, n))
  {
    hide Kept, ChainAfter;
    if n > 0 {
      KeptAreOfBoth(v.skipped, Walked(c, v, n), v.maxSkipped);
      var w := SkipView(c, v, n);
      forall i | 0 <= i < |w.skipped| && w.skipped[i].slot.publicKey == w.remote
        ensures w.skipped[i].slot.counter <= w.recvCount
      {
        assert w.skipped[i] in w.skipped;
      }
    }
  }

  lemma ReceiveStaysBehind(c: Crypto, v: View, e: Envelope)
    requires BehindCounter(v) && e.header.counter > v.recvCount
    ensures BehindCounter(ReceiveView(c, v, e).1)
  {
    hide BehindCounter, SkipView, Advance, Open;
    var gap: nat := e.header.counter - 1 - v.recvCount;
    if gap > 0 && v.maxSkipped <= 0 {
      AdvanceStaysBehind(c, v);
    } else {
      WalkStaysBehind(c, v, gap);
      AdvanceStaysBehind(c, SkipView(c, v, gap));
    }
  }

  lemma RemovalStaysBehind(v: View, slot: Slot)
    requires BehindCounter(v)
    ensures BehindCounter(v.(skipped := Without(v.skipped, slot)))
  {
    WithoutOnlyRemoves(v.skipped, slot);
    hide Without;
    var left := Without(v.skipped, slot);
    forall i | 0 <= i < |left| && left[i].slot.publicKey == v.remote ensures left[i].slot.counter <= v.recvCount {
      assert left[i] in v.skipped;
    }
  }

  lemma NewKeysStayBehind(c: Crypto, v: View, remote: Bytes, newKeys: KeyPair)
    ensures BehindCounter(DhView(c, v, remote, newKeys)) && DhView(c, v, remote, newKeys).recvCount == 0
  {
  }

  /** Every call leaves the map behind the counter of the session it returns. */
  lemma DecryptStaysBehindCounter(c: Crypto, v: View, e: Envelope, newKeys: KeyPair)
    requires BehindCounter(v)
    ensures BehindCounter(DecryptView(c, v, e, newKeys).1)
  {
    hide BehindCounter, ReceiveView, DhView, Lookup, Without;
    if e.header.counter <= v.recvCount {
      RemovalStaysBehind(v, Slot(e.header.publicKey, e.header.counter));
    } else if e.header.publicKey != v.remote {
      NewKeysStayBehind(c, v, e.header.publicKey, newKeys);
      ReceiveStaysBehind(c, DhView(c, v, e.header.publicKey, newKeys), e);
    } else {
      ReceiveStaysBehind(c, v, e);
    }
  }

  // ----- the Diffie-Hellman branch ---------------------------------------------------------------------------------

  /** Derivations that never collide: neither for different inputs nor for different labels. */
  ghost predicate Separating(c: Crypto) {
    && (forall x, y, u, w :: c.extract(x, y) == c.extract(u, w) ==> x == u && y == w)
    && (forall k, i, l, j :: c.expand(k, i) == c.expand(l, j) ==> k == l && i == j)
  }

  /** What the branch makes rests on the old session's root key and limit alone: both its chains are forgotten. */
  lemma DhForgets(c: Crypto, v: View, w: View, remote: Bytes, newKeys: KeyPair)
    requires v.rootKey == w.rootKey && v.maxSkipped == w.maxSkipped
    ensures DhView(c, v, remote, newKeys) == DhView(c, w, remote, newKeys)
  {
  }

  /**
   The three keys the branch derives are bound to the root key and the agreement they come from, and to their own
   purpose: no root, send or receive key of one branch is any other key of this or another one.
   */
  lemma DhKeysAreBound(c: Crypto, v: View, remote: Bytes, newKeys: KeyPair, w: View, remote': Bytes, newKeys': KeyPair,
                       i: nat, j: nat)
    requires Separating(c) && i < 3 && j < 3
    ensures var t, u := DhView(c, v, remote, newKeys), DhView(c, w, remote', newKeys');
            [t.rootKey, t.sendKey, t.recvKey][i] == [u.rootKey, u.sendKey, u.recvKey][j] <==>
            && i == j && v.rootKey == w.rootKey
            && c.agree(newKeys.secretKey, remote) == c.agree(newKeys'.secretKey, remote')
  {
  }

  /**
   An envelope that runs ahead under a new public key opens when it was sealed under its number's key of the receive
   chain that comes of this root key and this agreement; and it leaves a session with the new key pair, whose map holds
   the newest keys passed over, as many as the limit allows.
   */
  lemma DhDelivery(c: Crypto, v: View, e: Envelope, newKeys: KeyPair, plaintext: Bytes)
    requires Lawful(c) && e.header.counter > v.recvCount && e.header.publicKey != v.remote
    requires e.header.counter == 1 || v.maxSkipped > 0
    requires var chain := c.expand(c.extract(v.rootKey, c.agree(newKeys.secretKey, e.header.publicKey)), InfoChainRecv);
             e == Seal(c, Iter(Forward(c), chain, 2 * e.header.counter - 1), plaintext, e.nonce, e.header)
    ensures var (o, w) := DecryptView(c, v, e, newKeys);
            var n := e.header.counter;
            var chain := c.expand(c.extract(v.rootKey, c.agree(newKeys.secretKey, e.header.publicKey)), InfoChainRecv);
            && o == Opened(plaintext)
            && w.local == newKeys && w.remote == e.header.publicKey && w.maxSkipped == v.maxSkipped
            && w.recvCount == n && w.sendCount == 0 && w.recvKey == Iter(Forward(c), chain, 2 * n)
            && |w.skipped| == Min(n - 1, Max(0, v.maxSkipped))
            && (forall i: nat :: i < |w.skipped| ==>
                  var m := n - |w.skipped| + i;
                  m >= 1 && w.skipped[i] == Entry(Slot(e.header.publicKey, m), Iter(Forward(c), chain, 2 * m - 1)))
  {
    hide Iter, ChainAfter, Forward, Open, ReceiveView, DhView, NthKey, Lawful, Lookup, Without;
    DhOfNew(c, v, e.header.publicKey, newKeys);
    NewChainReceives(c, DhView(c, v, e.header.publicKey, newKeys), e, plaintext);
  }

  lemma DhOfNew(c: Crypto, v: View, remote: Bytes, newKeys: KeyPair)
    ensures var u := DhView(c, v, remote, newKeys);
            && u.recvKey == c.expand(c.extract(v.rootKey, c.agree(newKeys.secretKey, remote)), InfoChainRecv)
            && u.recvCount == 0 == u.sendCount && u.local == newKeys && u.remote == remote && u.skipped == []
            && u.maxSkipped == v.maxSkipped
  {
  }

  /** A session with an empty map and a receive chain of its own takes the n-th envelope of that chain. */
  lemma NewChainReceives(c: Crypto, u: View, e: Envelope, plaintext: Bytes)
    requires Lawful(c) && u.recvCount == 0 && u.skipped == [] && e.header.counter >= 1
    requires e.header.counter == 1 || u.maxSkipped > 0
    requires e == Seal(c, Iter(Forward(c), u.recvKey, 2 * e.header.counter - 1), plaintext, e.nonce, e.header)
    ensures var (o, w) := ReceiveView(c, u, e);
            var n := e.header.counter;
            && o == Opened(plaintext)
            && w == u.(recvKey := Iter(Forward(c), u.recvKey, 2 * n), recvCount := n, skipped := w.skipped)
            && |w.skipped| == Min(n - 1, Max(0, u.maxSkipped))
            && (forall i: nat :: i < |w.skipped| ==>
                  var m := n - |w.skipped| + i;
                  m >= 1 && w.skipped[i] == Entry(Slot(u.remote, m), Iter(Forward(c), u.recvKey, 2 * m - 1)))
  {
    hide Iter, ChainAfter, Forward, Open, NthKey, Seal, Kept, Walked, Lawful, NextChain, MessageKey;
    var n: nat := e.header.counter;
    ChainIsOnePath(c, u.recvKey, n);
    NextOfChain(c, u.recvKey, n - 1);
    SealedOpens(c, Iter(Forward(c), u.recvKey, 2 * n - 1), plaintext, e);
    NewChainSkips(c, u, n - 1);
    var t := SkipView(c, u, n - 1).skipped;
    forall i: nat | i < |t|
      ensures var m := n - |t| + i;
              m >= 1 && t[i] == Entry(Slot(u.remote, m), Iter(Forward(c), u.recvKey, 2 * m - 1))
    {
      ChainIsOnePath(c, u.recvKey, n - |t| + i);
    }
  }

  lemma KeptOfNone(walked: seq<Entry>, limit: int)
    requires limit > 0
    ensures var kept := Kept([], walked, limit);
            |kept| == Min(limit, |walked|) && kept == walked[|walked| - |kept|..]
  {
    assert [] + walked == walked;
  }

  lemma NewChainSkips(c: Crypto, u: View, gap: nat)
    requires u.recvCount == 0 && u.skipped == [] && (gap > 0 ==> u.maxSkipped > 0)
    ensures var t := SkipView(c, u, gap).skipped;
            && |t| == Min(gap, Max(0, u.maxSkipped))
            && forall i: nat :: i < |t| ==>
                 var m := gap + 1 - |t| + i;
                 t[i] == Entry(Slot(u.remote, m), NthKey(c, u.recvKey, m))
  {
    hide NthKey, ChainAfter, Kept, Walked;
    var walked := Walked(c, u, gap);
    if gap > 0 {
      KeptOfNone(walked, u.maxSkipped);
      var t := SkipView(c, u, gap).skipped;
      forall i: nat | i < |t|
        ensures t[i] == Entry(Slot(u.remote, gap + 1 - |t| + i), NthKey(c, u.recvKey, gap + 1 - |t| + i))
      {
        assert t[i] == walked[gap - |t| + i];
      }
    }
  }

  lemma NextOfChain(c: Crypto, k: Bytes, n: nat)
    ensures NextChain(c, ChainAfter(c, k, n)) == ChainAfter(c, k, n + 1)
    ensures MessageKey(c, ChainAfter(c, k, n)) == NthKey(c, k, n + 1)
  {
  }

  lemma SealedOpens(c: Crypto, key: Bytes, plaintext: Bytes, e: Envelope)
    requires Lawful(c) && e == Seal(c, key, plaintext, e.nonce, e.header)
    ensures Open(c, key, e) == Opened(plaintext)
  {
  }

  // ----- what a bad envelope does ----------------------------------------------------------------------------------

  /**
   An envelope moves the session by its header alone, whether or not its ciphertext opens; it opens to just what the key
   of its number makes of it, and is rejected when that key makes nothing of it.
   */
  lemma HeaderAloneMoves(c: Crypto, v: View, e: Envelope, ciphertext: Bytes, nonce: Bytes, newKeys: KeyPair)
    ensures DecryptView(c, v, e, newKeys).1 == DecryptView(c, v, Envelope(nonce, ciphertext, e.header), newKeys).1
    ensures var o, n := DecryptView(c, v, e, newKeys).0, e.header.counter;
            var stored := Lookup(v.skipped, Slot(e.header.publicKey, n));
            && (n <= v.recvCount && stored.Some? ==> OpensAs(c, stored.value, e, o))
            && (n > v.recvCount && e.header.publicKey == v.remote && (n == v.recvCount + 1 || v.maxSkipped > 0) ==>
                  OpensAs(c, NthKey(c, v.recvKey, n - v.recvCount), e, o))
  {
    hide Lookup, Without, Kept, Walked, ChainAfter;
  }

  predicate OpensAs(c: Crypto, key: Bytes, e: Envelope, o: Outcome) {
    match c.decrypt(key, e.ciphertext, e.nonce, e.header.additionalData)
    case Some(plaintext) => o == Opened(plaintext)
    case None => o == Rejected
  }

  // ----- the code --------------------------------------------------------------------------------------------------

  class Chain {
    var chainKey: Bytes
    var counter: nat

    constructor (chainKey: Bytes, counter: nat)
      ensures this.chainKey == chainKey && this.counter == counter
    {
      this.chainKey, this.counter := chainKey, counter;
    }
  }

  class SkippedMap {
    var entries: seq<Entry>

    constructor ()
      ensures entries == []
    {
      entries := [];
    }
  }

  /** A DoubleRatchetState record: values, and pointers to what the calls change in place. */
  datatype Session = Session(rootKey: Bytes, send: Chain, receive: Chain, local: KeyPair, remote: Bytes,
                             skipped: SkippedMap, maxSkipped: int)
  {
    function Value(): View
      reads send, receive, skipped
    {
      View(rootKey, send.chainKey, send.counter, receive.chainKey, receive.counter, local, remote,
                        skipped.entries, maxSkipped)
    }

    ghost predicate Valid()
      reads send, receive, skipped
    {
      send != receive && BehindCounter(Value())
    }
  }

  method Initialize(rootKey: Bytes, chainKey: Bytes, local: KeyPair, remote: Bytes, maxSkipped: int)
    returns (s: Session)
    ensures s.Valid() && fresh({s.send, s.receive}) && fresh(s.skipped)
    ensures s.Value() == StartView(rootKey, chainKey, local, remote, maxSkipped)
  {
    var send := new Chain(chainKey, 0);
    var receive := new Chain(chainKey, 0);
    var skipped := new SkippedMap();
    s := Session(rootKey, send, receive, local, remote, skipped, maxSkipped);
  }

  /** Encrypting returns a new record with a new send chain; the caller's session is left as it was. */
  method Encrypt(c: Crypto, s: Session, plaintext: Bytes, nonce: Bytes) returns (e: Envelope, s': Session)
    requires s.Valid()
    ensures (e, s'.Value()) == EncryptView(c, s.Value(), plaintext, nonce)
    ensures fresh(s'.send) && s' == s.(send := s'.send) && s'.Valid()
  {
    var messageKey := c.expand(s.send.chainKey, InfoMessage);
    var nextChain := c.expand(messageKey, InfoMessage);
    var header := Header(s.local.publicKey, s.send.counter + 1, s.receive.counter, []);
    e := Seal(c, messageKey, plaintext, nonce, header);
    var send := new Chain(nextChain, s.send.counter + 1);
    s' := s.(send := send);
  }

  method StoreSkipped(s: Session, slot: Slot, key: Bytes) returns (stored: bool)
    modifies s.skipped
    ensures stored == (s.maxSkipped > 0)
    ensures s.skipped.entries ==
            if stored then Store(old(s.skipped.entries), s.maxSkipped, slot, key) else old(s.skipped.entries)
  {
    if s.maxSkipped <= 0 {
      return false;
    }
    if |s.skipped.entries| >= s.maxSkipped && s.skipped.entries != [] {
      s.skipped.entries := s.skipped.entries[1..];
    }
    s.skipped.entries := With(s.skipped.entries, slot, key);
    return true;
  }

  method TrySkipped(s: Session, slot: Slot) returns (key: Option<Bytes>)
    modifies s.skipped
    ensures key == Lookup(old(s.skipped.entries), slot)
    ensures s.skipped.entries == if key.None? then old(s.skipped.entries) else Without(old(s.skipped.entries), slot)
  {
    key := Lookup(s.skipped.entries, slot);
    if key.Some? {
      s.skipped.entries := Without(s.skipped.entries, slot);
    }
  }

  /** The Diffie-Hellman branch: a new record over the old map, which it empties. */
  method DhRatchet(c: Crypto, s: Session, remote: Bytes, newKeys: KeyPair) returns (s': Session)
    modifies s.skipped
    ensures s'.Value() == DhView(c, old(s.Value()), remote, newKeys)
    ensures s'.skipped == s.skipped && fresh({s'.send, s'.receive}) && s'.send != s'.receive
  {
    var prk := c.extract(s.rootKey, c.agree(newKeys.secretKey, remote));
    var send := new Chain(c.expand(prk, InfoChainSend), 0);
    var receive := new Chain(c.expand(prk, InfoChainRecv), 0);
    s' := Session(c.expand(prk, InfoDh), send, receive, newKeys, remote, s.skipped, s.maxSkipped);
    s'.skipped.entries := [];
  }

  /** The walk of `decrypt`: derive and store one key a step until the counter reaches `target`. */
  method SkipTo(c: Crypto, s: Session, target: nat) returns (stored: bool)
    requires s.Valid() && s.receive.counter <= target
    modifies s.receive, s.skipped
    ensures stored == (target == old(s.receive.counter) || s.maxSkipped > 0)
    ensures s.Value() == if stored then SkipView(c, old(s.Value()), target - old(s.receive.counter))
                         else Advance(c, old(s.Value()))
  {
    hide SkipView, SkipOneView, BehindCounter, Advance;
    ghost var v := s.Value();
    ghost var walked: nat := 0;
    SkipNothing(c, v);
    OneStep(c, v);
    while s.receive.counter < target
      invariant s.receive.counter == v.recvCount + walked <= target
      invariant walked > 0 ==> s.maxSkipped > 0
      invariant s.Value() == SkipView(c, v, walked)
    {
      if s.maxSkipped > 0 {
        SkipViewStep(c, v, walked);
        SkipCounts(c, v, walked + 1);
      }
      var ok := SkipOne(c, s);
      if !ok {
        return false;
      }
      walked := walked + 1;
    }
    return true;
  }

  method SkipOne(c: Crypto, s: Session) returns (stored: bool)
    requires s.send != s.receive
    modifies s.receive, s.skipped
    ensures stored == (s.maxSkipped > 0) && s.Value() == SkipOneView(c, old(s.Value()))
  {
    var messageKey := DeriveMessageKey(c, s.receive);
    stored := StoreSkipped(s, Slot(s.remote, s.receive.counter), messageKey);
  }

  /** deriveMessageKey, and the two assignments that follow it wherever a key is received. */
  method DeriveMessageKey(c: Crypto, chain: Chain) returns (messageKey: Bytes)
    modifies chain
    ensures messageKey == MessageKey(c, old(chain.chainKey))
    ensures chain.chainKey == NextChain(c, old(chain.chainKey)) && chain.counter == old(chain.counter) + 1
  {
    messageKey := c.expand(chain.chainKey, InfoMessage);
    chain.chainKey := c.expand(messageKey, InfoMessage);
    chain.counter := chain.counter + 1;
  }

  /** The rest of `decrypt`, once the chain the envelope belongs to is in place. */
  method Receive(c: Crypto, s: Session, e: Envelope) returns (o: Outcome)
    requires s.Valid() && e.header.counter > s.receive.counter
    modifies s.receive, s.skipped
    ensures (o, s.Value()) == ReceiveView(c, old(s.Value()), e)
  {
    hide SkipView, BehindCounter, MessageKey, NextChain, Open;
    var stored := SkipTo(c, s, e.header.counter - 1);
    if !stored {
      return LimitExceeded(s.maxSkipped);
    }
    var messageKey := DeriveMessageKey(c, s.receive);
    o := Open(c, messageKey, e);
  }

  /**
   Decrypting.  The caller's own session `s` is changed too: without the Diffie-Hellman branch it is the very session
   returned, and with that branch it keeps its chains but its skipped map has been emptied and refilled, because the
   copied record still points at it.
   */
  method Decrypt(c: Crypto, s: Session, e: Envelope, newKeys: KeyPair) returns (o: Outcome, s': Session)
    requires s.Valid()
    modifies s.receive, s.skipped
    ensures (o, s'.Value()) == DecryptView(c, old(s.Value()), e, newKeys)
    ensures s'.Valid() && s'.skipped == s.skipped
    ensures var dh := e.header.counter > old(s.receive.counter) && e.header.publicKey != s.remote;
            if dh then fresh({s'.send, s'.receive}) && s.Value() == old(s.Value()).(skipped := s'.Value().skipped)
            else s' == s
  {
    DecryptStaysBehindCounter(c, s.Value(), e, newKeys);
    if e.header.counter <= s.receive.counter {
      var key := TrySkipped(s, Slot(e.header.publicKey, e.header.counter));
      return if key.None? then Replay else Open(c, key.value, e), s;
    }
    s' := s;
    if e.header.publicKey != s.remote {
      s' := DhRatchet(c, s, e.header.publicKey, newKeys);
    }
    o := Receive(c, s', e);
  }
}
