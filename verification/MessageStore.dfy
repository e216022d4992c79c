/**
 Creating messages in the in-memory store: services/messaging/src/ports/messages/inMemory/messagesWriteAdapter.ts and
 store.ts.
 */
module MessageStore {
  import opened Common
  import opened MessagePages

  /** A Map of messages, in insertion order, and the index from client keys to message ids. */
  datatype Store = Store(messages: seq<Message>, clientIndex: map<string, string>)

  /** One call of `create`, with what the clock and the id generator would answer. */
  datatype Create = Create(conversationId: string, senderId: string, kind: string, content: string,
                           idempotencyKey: Option<string>, messageId: Option<string>, generated: string, now: int)

  function ClientKey(senderId: string, key: string): string {
    Join(senderId, key)
  }

  /** Map.set: a present id keeps its place in the order. */
  function Put(messages: seq<Message>, m: Message): seq<Message> {
    var i := FindIndex(messages, m.id);
    if 0 <= i < |messages| then messages[i := m] else messages + [m]
  }

  predicate Deduped(st: Store, c: Create) {
    Given(c.idempotencyKey) &&
    var k := ClientKey(c.senderId, c.idempotencyKey.value);
    k in st.clientIndex && st.clientIndex[k] != ""
  }

  function ChosenId(c: Create): string {
    if c.messageId.Some? then c.messageId.value else c.generated
  }

  function NewMessage(c: Create): Message {
    Message(ChosenId(c), c.conversationId, c.senderId, c.kind, "sent", c.content, c.now, None)
  }

  function Created(st: Store, c: Create): Store {
    if Deduped(st, c) then st
    else
      Store(Put(st.messages, NewMessage(c)),
            if Given(c.idempotencyKey)
            then st.clientIndex[ClientKey(c.senderId, c.idempotencyKey.value) := ChosenId(c)] else st.clientIndex)
  }

  function CreatedId(st: Store, c: Create): string {
    if Deduped(st, c) then st.clientIndex[ClientKey(c.senderId, c.idempotencyKey.value)] else ChosenId(c)
  }

  function CreatedAll(st: Store, cs: seq<Create>): Store {
    if cs == [] then st else Created(CreatedAll(st, cs[..|cs| - 1]), cs[|cs| - 1])
  }

  class MessagesWriteAdapter {
    var messages: seq<Message>
    var clientIndex: map<string, string>

    ghost function Contents(): Store
      reads this
    {
      Store(messages, clientIndex)
    }

    constructor ()
      ensures Contents() == Store([], map[])
    {
      messages, clientIndex := [], map[];
    }

    method Create(c: Create) returns (id: string)
      modifies this
      ensures Contents() == Created(old(Contents()), c) && id == CreatedId(old(Contents()), c)
    {
      if c.idempotencyKey.Some? && c.idempotencyKey.value != "" {
        var key := ClientKey(c.senderId, c.idempotencyKey.value);
        if key in clientIndex && clientIndex[key] != "" {
          return clientIndex[key];
        }
      }
      id := if c.messageId.Some? then c.messageId.value else c.generated;
      var message := Message(id, c.conversationId, c.senderId, c.kind, "sent", c.content, c.now, None);
      messages := Put(messages, message);
      if c.idempotencyKey.Some? && c.idempotencyKey.value != "" {
        clientIndex := clientIndex[ClientKey(c.senderId, c.idempotencyKey.value) := id];
      }
    }
  }

  // ----- idempotency -----------------------------------------------------------------------------------------------

  /** A client key, once used, stands for the same message for ever. */
  lemma {:induction false} IndexIsForever(st: Store, cs: seq<Create>, key: string)
    requires key in st.clientIndex && st.clientIndex[key] != ""
    ensures var after := CreatedAll(st, cs).clientIndex; key in after && after[key] == st.clientIndex[key]
  {
    if cs != [] {
      IndexIsForever(st, cs[..|cs| - 1], key);
    }
  }

  /**
   Whatever was created in between, creating again with the same sender and key answers the first id, and adds nothing.
   */
  lemma {:induction false} RepeatedCreateIsIdempotent(st: Store, first: Create, between: seq<Create>, again: Create)
    requires Given(first.idempotencyKey) && CreatedId(st, first) != ""
    requires again.senderId == first.senderId && again.idempotencyKey == first.idempotencyKey
    ensures var before := CreatedAll(Created(st, first), between);
            Created(before, again) == before && CreatedId(before, again) == CreatedId(st, first)
  {
    IndexIsForever(Created(st, first), between, ClientKey(first.senderId, first.idempotencyKey.value));
  }

  /** Two senders have client keys in common exactly when the id of one, with a colon, begins that of the other. */
  lemma ClientKeysSharedIff(sender: string, other: string)
    requires sender != other
    ensures (exists key, key' :: key != "" && key' != "" && ClientKey(sender, key) == ClientKey(other, key')) <==>
            Clash(sender, other)
  {
    JoinSharedIff(sender, other, 1);
    assert forall key :: ClientKey(sender, key) == Join(sender, key) && ClientKey(other, key) == Join(other, key);
  }

  // ----- what a create does to the others --------------------------------------------------------------------------

  ghost predicate WellFormed(st: Store) {
    DistinctIds(st.messages) && forall m :: m in st.messages ==> m.id != ""
  }

  /** The id is not empty and the clock has not gone back. */
  ghost predicate Stamped(st: Store, c: Create) {
    Deduped(st, c) || (ChosenId(c) != "" && forall m :: m in st.messages ==> m.createdAt <= c.now)
  }

  predicate Stored(messages: seq<Message>, id: string) {
    0 <= FindIndex(messages, id) < |messages|
  }

  /** Where a message of this id is stored, or would be. */
  function Position(messages: seq<Message>, id: string): nat {
    var i := FindIndex(messages, id);
    if 0 <= i < |messages| then i else |messages|
  }

  lemma {:induction false} FindIndexFinds(s: seq<Message>, id: string)
    ensures var i := FindIndex(s, id);
            if 0 <= i < |s| then s[i].id == id && (forall j :: 0 <= j < i ==> s[j].id != id)
            else i == -1 && forall j :: 0 <= j < |s| ==> s[j].id != id
  {
    if s != [] {
      FindIndexFinds(s[..|s| - 1], id);
    }
  }

  lemma StoredMember(s: seq<Message>, m: Message)
    requires DistinctIds(s) && m in s
    ensures Stored(s, m.id) && s[Position(s, m.id)] == m
  {
    FindIndexFinds(s, m.id);
    var j :| 0 <= j < |s| && s[j] == m;
  }

  lemma PutAt(messages: seq<Message>, x: Message)
    ensures var after, i := Put(messages, x), Position(messages, x.id);
            && |after| == (if i < |messages| then |messages| else |messages| + 1)
            && after[i] == x && forall j :: 0 <= j < |messages| && j != i ==> after[j] == messages[j]
  {
    FindIndexFinds(messages, x.id);
  }

  /**
   A create that is not a repeat leaves every message of another id where it was, and puts its own in the place of its
   id.
   */
  lemma PutKeeps(messages: seq<Message>, x: Message)
    requires DistinctIds(messages)
    ensures var after := Put(messages, x);
            && DistinctIds(after)
            && (forall m :: m in after <==> (m in messages && m.id != x.id) || m == x)
  {
    var after, i := Put(messages, x), Position(messages, x.id);
    PutAt(messages, x);
    FindIndexFinds(messages, x.id);
    forall m ensures m in after <==> (m in messages && m.id != x.id) || m == x {
      if m in messages && m.id != x.id {
        var j :| 0 <= j < |messages| && messages[j] == m;
        assert after[j] == m;
      }
      if m in after && m != x {
        var j :| 0 <= j < |after| && after[j] == m;
        assert messages[j] == m;
      }
    }
  }

  lemma PutKeepsPositions(messages: seq<Message>, x: Message, id: string)
    requires DistinctIds(messages) && (Stored(messages, id) || id == x.id)
    ensures Stored(Put(messages, x), id) && Position(Put(messages, x), id) == Position(messages, id)
  {
    var after, i := Put(messages, x), Position(messages, id);
    PutAt(messages, x);
    PutKeeps(messages, x);
    FindIndexFinds(messages, id);
    FindIndexFinds(messages, x.id);
    FindIndexFinds(after, id);
    assert i < |after| && after[i].id == id;
  }

  lemma CreatedIsWellFormed(st: Store, c: Create)
    requires WellFormed(st) && Stamped(st, c)
    ensures WellFormed(Created(st, c))
  {
    PutKeeps(st.messages, NewMessage(c));
  }

  /** A message stays exactly as long as no create takes its id over (or makes the very same message again). */
  lemma KeptUnlessTakenOver(st: Store, c: Create, m: Message)
    requires WellFormed(st) && m in st.messages
    ensures m in Created(st, c).messages <==> Deduped(st, c) || ChosenId(c) != m.id || NewMessage(c) == m
  {
    PutKeeps(st.messages, NewMessage(c));
  }

  /**
   What is created is what is listed: a create that is not a repeat answers the caller's id or a generated one, and
   under that id just this message is stored, sent now, with its own conversation, sender, kind and content, for every
   filter that asks for nothing else.
   */
  lemma CreatedIsListed(st: Store, c: Create, f: Filter)
    requires DistinctIds(st.messages) && !Deduped(st, c)
    ensures var m := Message(if c.messageId.Some? then c.messageId.value else c.generated, c.conversationId, c.senderId,
                             c.kind, "sent", c.content, c.now, None);
            var listing := FilterMessages(Created(st, c).messages, f);
            && CreatedId(st, c) == m.id
            && (m in listing <==>
                  && f.conversationId in {None, Some(""), Some(c.conversationId)}
                  && f.senderId in {None, Some(""), Some(c.senderId)}
                  && f.kind in {None, Some(""), Some(c.kind)}
                  && f.status in {None, Some(""), Some("sent")}
                  && (f.before.Some? ==> c.now < f.before.value) && (f.after.Some? ==> c.now > f.after.value))
            && (forall x :: x in listing && x.id == m.id ==> x == m)
  {
    PutKeeps(st.messages, NewMessage(c));
    FilterMeansMatching(Created(st, c).messages, f);
    hide FilterMessages, Put;
  }

  lemma {:induction false} IndexedAreStored(cs: seq<Create>)
    ensures var st := CreatedAll(Store([], map[]), cs);
            DistinctIds(st.messages) && forall k :: k in st.clientIndex ==> Stored(st.messages, st.clientIndex[k])
  {
    if cs != [] {
      var st, c := CreatedAll(Store([], map[]), cs[..|cs| - 1]), cs[|cs| - 1];
      IndexedAreStored(cs[..|cs| - 1]);
      PutKeeps(st.messages, NewMessage(c));
      PutKeepsPositions(st.messages, NewMessage(c), ChosenId(c));
      hide Put;
      forall k | k in st.clientIndex ensures Stored(Put(st.messages, NewMessage(c)), st.clientIndex[k]) {
        PutKeepsPositions(st.messages, NewMessage(c), st.clientIndex[k]);
      }
    }
  }

  /** Whatever has been created before, the id a create answers, anew or again, is that of a stored message. */
  lemma AnsweredIdIsStored(cs: seq<Create>, c: Create)
    ensures var st := CreatedAll(Store([], map[]), cs); Stored(Created(st, c).messages, CreatedId(st, c))
  {
    IndexedAreStored(cs);
    var st := CreatedAll(Store([], map[]), cs);
    PutKeepsPositions(st.messages, NewMessage(c), ChosenId(c));
  }

  // ----- the order of a listing ------------------------------------------------------------------------------------

  /** Newer, or of the same instant and stored before. */
  predicate Ahead(messages: seq<Message>, a: Message, b: Message) {
    a.createdAt > b.createdAt ||
    (a.createdAt == b.createdAt && Position(messages, a.id) < Position(messages, b.id))
  }

  lemma AheadInFront(front: seq<Message>, last: Message, a: Message, b: Message)
    requires DistinctIds(front + [last]) && a in front && b in front && Ahead(front, a, b)
    ensures Ahead(front + [last], a, b)
  {
    var all := front + [last];
    assert forall k :: 0 <= k < |front| ==> all[k] == front[k];
    StoredMember(front, a);
    StoredMember(front, b);
    SamePosition(front, last, a);
    SamePosition(front, last, b);
  }

  lemma SamePosition(front: seq<Message>, last: Message, a: Message)
    requires a in front
    ensures Position(front + [last], a.id) == Position(front, a.id) < |front|
  {
    assert (front + [last])[..|front|] == front;
    FindIndexFinds(front, a.id);
  }

  lemma LastPosition(front: seq<Message>, last: Message)
    requires DistinctIds(front + [last])
    ensures Position(front + [last], last.id) == |front|
  {
    var all := front + [last];
    FindIndexFinds(all, last.id);
    assert all[|front|] == last;
  }

  lemma InsertedAhead(front: seq<Message>, last: Message, sorted: seq<Message>, i: nat, j: nat)
    requires DistinctIds(front + [last]) && Descending(sorted) && i < j <= |sorted|
    requires forall m :: m in sorted ==> m in front
    requires forall k, l :: 0 <= k < l < |sorted| ==> Ahead(front, sorted[k], sorted[l])
    ensures |Insert(sorted, last)| == |sorted| + 1
    ensures Ahead(front + [last], Insert(sorted, last)[i], Insert(sorted, last)[j])
  {
    hide Insert, Ahead;
    var k, after := Place(sorted, last), Insert(sorted, last);
    InsertAt(sorted, last, i);
    InsertAt(sorted, last, j);
    if i == k {
      NewestAhead(front, last, after[j], false);
    } else if j == k {
      NewestAhead(front, last, after[i], true);
    } else {
      AheadInFront(front, last, after[i], after[j]);
    }
  }

  lemma NewestAhead(front: seq<Message>, last: Message, m: Message, before: bool)
    requires DistinctIds(front + [last]) && m in front
    requires if before then m.createdAt >= last.createdAt else m.createdAt < last.createdAt
    ensures if before then Ahead(front + [last], m, last) else Ahead(front + [last], last, m)
  {
    LastPosition(front, last);
    SamePosition(front, last, m);
  }

  lemma {:induction false} ListingOrder(messages: seq<Message>, f: Filter)
    requires DistinctIds(messages)
    ensures var listing := FilterMessages(messages, f);
            forall i, j :: 0 <= i < j < |listing| ==> Ahead(messages, listing[i], listing[j])
  {
    if messages == [] {
      NarrowedIsOnePass(messages, f);
    } else {
      hide FilterMessages, Insert, Ahead, Matches;
      var front, last := messages[..|messages| - 1], messages[|messages| - 1];
      assert messages == front + [last];
      ListingOrder(front, f);
      FilterAppend(front, last, f);
      FilterMeansMatching(front, f);
      ListingDescends(front, f);
      var sorted, listing := FilterMessages(front, f), FilterMessages(messages, f);
      forall i, j | 0 <= i < j < |listing| ensures Ahead(messages, listing[i], listing[j]) {
        if Matches(f, last) {
          InsertAt(sorted, last, 0);
          InsertedAhead(front, last, sorted, i, j);
        } else {
          AheadInFront(front, last, listing[i], listing[j]);
        }
      }
    }
  }
}
