/**
 A reader follows nextCursor from page to page while others create messages:
 services/messaging/src/ports/messages/inMemory/messagesReadAdapter.ts:38-44 against messagesWriteAdapter.ts:30-60.
 A create may be a repeat, make a message of a new id, or take over the id of a stored one, which Map.set leaves in
 place.
 */
module PageWalk {
  import opened Common
  import opened MessagePages
  import opened MessageStore

  datatype Walk = Walk(store: Store, items: seq<Message>, cursor: Option<string>, pages: nat, done: bool)

  datatype Event = Write(create: Create) | NextPage

  function Start(st: Store): Walk {
    Walk(st, [], None, 0, false)
  }

  function Listing(st: Store, f: Filter): seq<Message> {
    FilterMessages(st.messages, f)
  }

  /** The walk is over once a page has no nextCursor. */
  function Turn(w: Walk, f: Filter, limit: nat): Walk
    requires limit >= 1
  {
    if w.done then w
    else
      match ListPage(w.store.messages, f, w.cursor, limit)
      case Ok(page) => Walk(w.store, w.items + page.items, page.nextCursor, w.pages + 1, page.nextCursor.None?)
      case Thrown => w
  }

  function Step(w: Walk, ev: Event, f: Filter, limit: nat): Walk
    requires limit >= 1
  {
    match ev
    case Write(c) => w.(store := Created(w.store, c))
    case NextPage => Turn(w, f, limit)
  }

  function Run(w: Walk, evs: seq<Event>, f: Filter, limit: nat): Walk
    requires limit >= 1
  {
    if evs == [] then w else Step(Run(w, evs[..|evs| - 1], f, limit), evs[|evs| - 1], f, limit)
  }

  // ----- what is still to come -------------------------------------------------------------------------------------

  predicate Listed(st: Store, f: Filter, m: Message) {
    m in st.messages && Matches(f, m)
  }

  predicate AtCursor(st: Store, f: Filter, cursor: Option<string>, m: Message) {
    Given(cursor) && Listed(st, f, m) && m.id == cursor.value
  }

  /** Listed, and behind the cursor's message.  A cursor that is not listed starts again at the front. */
  ghost predicate Coming(st: Store, f: Filter, cursor: Option<string>, m: Message) {
    Listed(st, f, m) && forall c :: AtCursor(st, f, cursor, c) ==> Ahead(st.messages, c, m)
  }

  /** Where the next page starts. */
  function Next(listing: seq<Message>, cursor: Option<string>): (n: nat)
    ensures n <= |listing|
  {
    var i := if Given(cursor) then FindIndex(listing, cursor.value) else -1;
    if 0 <= i < |listing| then i + 1 else 0
  }

  lemma PageStartsAtNext(listing: seq<Message>, cursor: Option<string>, limit: nat)
    ensures SliceWithCursor(listing, cursor, limit) ==
            listing[Next(listing, cursor)..Min(Next(listing, cursor) + limit, |listing|)]
  {
    if Given(cursor) {
      FindIndexFinds(listing, cursor.value);
    }
  }

  lemma ListingFacts(st: Store, f: Filter)
    requires WellFormed(st)
    ensures var listing := Listing(st, f);
            && DistinctIds(listing)
            && (forall m :: m in listing <==> Listed(st, f, m))
            && (forall i, j :: 0 <= i < j < |listing| ==> Ahead(st.messages, listing[i], listing[j]))
  {
    FilterKeepsDistinct(st.messages, f);
    FilterMeansMatching(st.messages, f);
    ListingOrder(st.messages, f);
  }

  lemma AheadOneWay(messages: seq<Message>, a: Message, b: Message)
    ensures Ahead(messages, a, b) ==> !Ahead(messages, b, a)
  {
  }

  /** A message at place i of the listing is still to come exactly if the next page has not passed it. */
  lemma ComingIsBehindNext(st: Store, f: Filter, cursor: Option<string>, i: nat)
    requires WellFormed(st) && i < |Listing(st, f)|
    ensures Coming(st, f, cursor, Listing(st, f)[i]) <==> i >= Next(Listing(st, f), cursor)
  {
    hide FilterMessages, Ahead, Listed;
    var listing, n := Listing(st, f), Next(Listing(st, f), cursor);
    ListingFacts(st, f);
    assert listing[i] in listing;
    if Given(cursor) {
      FindIndexFinds(listing, cursor.value);
    }
    if n > 0 {
      var c := listing[n - 1];
      assert c in listing && AtCursor(st, f, cursor, c);
      AheadOneWay(st.messages, c, listing[i]);
      AheadOneWay(st.messages, c, c);
      forall d | AtCursor(st, f, cursor, d) ensures d == c {
        SameId(listing, c, d);
      }
    } else {
      forall d ensures !AtCursor(st, f, cursor, d) {
        assert d in listing ==> !Given(cursor) || d.id != cursor.value;
      }
    }
  }

  lemma SameId(s: seq<Message>, a: Message, b: Message)
    requires DistinctIds(s) && a in s && b in s && a.id == b.id
    ensures a == b
  {
  }

  // ----- the promise, and which creates spoil it -------------------------------------------------------------------

  predicate Returned(items: seq<Message>, id: string) {
    exists i :: 0 <= i < |items| && items[i].id == id
  }

  /** Nothing has been returned twice, and nothing that is to come has been returned. */
  ghost predicate NoRepeat(w: Walk, f: Filter) {
    DistinctIds(w.items) &&
    (!w.done ==> forall m :: Coming(w.store, f, w.cursor, m) ==> !Returned(w.items, m.id))
  }

  /** Each of these messages has been returned or is to come. */
  ghost predicate NoLoss(w: Walk, f: Filter, wanted: seq<Message>) {
    forall m :: m in wanted && Matches(f, m) ==> m in w.items || (!w.done && Coming(w.store, f, w.cursor, m))
  }

  /** Behind the place that the new message takes. */
  predicate BehindNew(messages: seq<Message>, c: Create, m: Message) {
    m.createdAt < c.now || Position(messages, m.id) > Position(messages, ChosenId(c))
  }

  /** Of the same instant as the new message, and stored before the place that it takes. */
  predicate TiedBefore(messages: seq<Message>, c: Create, m: Message) {
    m.createdAt == c.now && Position(messages, m.id) < Position(messages, ChosenId(c))
  }

  /**
   Makes the walk return something again.  Either the create takes over the id of the cursor, and something that has
   been returned is then behind the cursor, which moves to the front, or is lost if the new message does not match; or
   it brings an id back that has been returned, behind the cursor.
   */
  ghost predicate Repeats(w: Walk, f: Filter, c: Create) {
    !w.done && !Deduped(w.store, c) &&
    if w.cursor == Some(ChosenId(c)) then
      exists m :: Listed(w.store, f, m) && m.id != ChosenId(c) && Returned(w.items, m.id) &&
                  (Matches(f, NewMessage(c)) ==> BehindNew(w.store.messages, c, m))
    else
      Matches(f, NewMessage(c)) && Returned(w.items, ChosenId(c)) &&
      forall m :: AtCursor(w.store, f, w.cursor, m) ==> TiedBefore(w.store.messages, c, m)
  }

  /**
   Makes the walk miss a message that is to come: the create takes its id over, or brings a lost cursor back behind it.
   */
  predicate Spoils(w: Walk, f: Filter, c: Create, m: Message) {
    if m.id == ChosenId(c) then m != NewMessage(c)
    else w.cursor == Some(ChosenId(c)) && Matches(f, NewMessage(c)) && !BehindNew(w.store.messages, c, m)
  }

  ghost predicate Loses(w: Walk, f: Filter, c: Create, wanted: seq<Message>) {
    !w.done && !Deduped(w.store, c) &&
    exists m :: m in wanted && m !in w.items && Coming(w.store, f, w.cursor, m) && Spoils(w, f, c, m)
  }

  /** What the create does to the order of the others, and where it puts its own. */
  lemma AheadAfter(messages: seq<Message>, x: Message, a: Message, b: Message)
    requires DistinctIds(messages) && a in messages && b in messages && a.id != x.id && b.id != x.id
    ensures Ahead(Put(messages, x), a, b) <==> Ahead(messages, a, b)
  {
    StoredMember(messages, a);
    StoredMember(messages, b);
    PutKeepsPositions(messages, x, a.id);
    PutKeepsPositions(messages, x, b.id);
  }

  lemma NewAhead(messages: seq<Message>, c: Create, m: Message)
    requires DistinctIds(messages) && m in messages && m.id != ChosenId(c) && m.createdAt <= c.now
    ensures Ahead(Put(messages, NewMessage(c)), NewMessage(c), m) <==> BehindNew(messages, c, m)
    ensures Ahead(Put(messages, NewMessage(c)), m, NewMessage(c)) <==> TiedBefore(messages, c, m)
  {
    StoredMember(messages, m);
    PutKeepsPositions(messages, NewMessage(c), m.id);
    PutKeepsPositions(messages, NewMessage(c), ChosenId(c));
    DifferentPositions(messages, m, ChosenId(c));
  }

  lemma DifferentPositions(messages: seq<Message>, m: Message, id: string)
    requires DistinctIds(messages) && m in messages && m.id != id
    ensures Position(messages, m.id) != Position(messages, id)
  {
    StoredMember(messages, m);
    FindIndexFinds(messages, id);
  }

  /** A message of another id is to come after the create as before, unless the cursor is what was taken over. */
  lemma OthersComing(st: Store, f: Filter, cursor: Option<string>, c: Create, m: Message)
    requires WellFormed(st) && Stamped(st, c) && !Deduped(st, c) && m.id != ChosenId(c)
    ensures var st' := Created(st, c);
            Coming(st', f, cursor, m) <==>
            if cursor == Some(ChosenId(c)) then
              Listed(st, f, m) && (Matches(f, NewMessage(c)) ==> BehindNew(st.messages, c, m))
            else Coming(st, f, cursor, m)
  {
    hide Ahead, BehindNew, Matches, Put;
    var st', x := Created(st, c), NewMessage(c);
    PutKeeps(st.messages, x);
    if Listed(st, f, m) {
      if cursor == Some(ChosenId(c)) {
        NewAhead(st.messages, c, m);
        assert forall d :: AtCursor(st', f, cursor, d) ==> d == x;
        assert Matches(f, x) ==> AtCursor(st', f, cursor, x);
      } else {
        forall d ensures AtCursor(st', f, cursor, d) <==> AtCursor(st, f, cursor, d) {
        }
        forall d | AtCursor(st, f, cursor, d) ensures Ahead(st'.messages, d, m) <==> Ahead(st.messages, d, m) {
          AheadAfter(st.messages, x, d, m);
        }
      }
    }
  }

  /** Whether the new message itself is to come. */
  lemma NewComing(st: Store, f: Filter, cursor: Option<string>, c: Create)
    requires WellFormed(st) && Stamped(st, c) && !Deduped(st, c)
    ensures var st', x := Created(st, c), NewMessage(c);
            Coming(st', f, cursor, x) <==>
            && Matches(f, x) && cursor != Some(ChosenId(c))
            && forall m :: AtCursor(st, f, cursor, m) ==> TiedBefore(st.messages, c, m)
  {
    hide Ahead, BehindNew, Matches, Put;
    var st', x := Created(st, c), NewMessage(c);
    PutKeeps(st.messages, x);
    if cursor == Some(ChosenId(c)) {
      AheadOneWay(st'.messages, x, x);
      assert Matches(f, x) ==> AtCursor(st', f, cursor, x);
    } else {
      forall d ensures AtCursor(st', f, cursor, d) <==> AtCursor(st, f, cursor, d) {
      }
      forall d | AtCursor(st, f, cursor, d)
        ensures Ahead(st'.messages, d, x) <==> TiedBefore(st.messages, c, d)
      {
        NewAhead(st.messages, c, d);
      }
    }
  }

  /** Exactly which creates make the walk return something twice. */
  lemma {:induction false} WriteRepeatsIff(w: Walk, f: Filter, limit: nat, c: Create)
    requires limit >= 1 && WellFormed(w.store) && Stamped(w.store, c) && NoRepeat(w, f)
    ensures NoRepeat(Step(w, Write(c), f, limit), f) <==> !Repeats(w, f, c)
  {
    hide Coming, Returned, Matches, BehindNew, DistinctIds, WellFormed, Stamped;
    var w' := Step(w, Write(c), f, limit);
    if !w.done && !Deduped(w.store, c) {
      var x := NewMessage(c);
      NewComing(w.store, f, w.cursor, c);
      forall m: Message | m.id != x.id
        ensures Coming(w'.store, f, w.cursor, m) <==>
                if w.cursor == Some(ChosenId(c)) then
                  Listed(w.store, f, m) && (Matches(f, x) ==> BehindNew(w.store.messages, c, m))
                else Coming(w.store, f, w.cursor, m)
      {
        OthersComing(w.store, f, w.cursor, c, m);
      }
      forall m: Message | m.id == x.id && Coming(w'.store, f, w.cursor, m) ensures m == x {
        ComingIsStored(w'.store, f, w.cursor, m);
        CreatedHolds(w.store, c, m);
      }
    }
  }

  lemma ComingIsStored(st: Store, f: Filter, cursor: Option<string>, m: Message)
    requires Coming(st, f, cursor, m)
    ensures m in st.messages && Matches(f, m)
  {
  }

  lemma CreatedHolds(st: Store, c: Create, m: Message)
    requires WellFormed(st) && !Deduped(st, c)
    ensures m in Created(st, c).messages <==> (m in st.messages && m.id != ChosenId(c)) || m == NewMessage(c)
  {
    PutKeeps(st.messages, NewMessage(c));
  }

  lemma StillComing(w: Walk, f: Filter, limit: nat, c: Create, m: Message)
    requires limit >= 1 && WellFormed(w.store) && Stamped(w.store, c) && !Deduped(w.store, c)
    requires Coming(w.store, f, w.cursor, m)
    ensures Coming(Created(w.store, c), f, w.cursor, m) <==> !Spoils(w, f, c, m)
  {
    hide Coming, Matches, BehindNew, WellFormed, Stamped, Created;
    ComingIsStored(w.store, f, w.cursor, m);
    if m.id != ChosenId(c) {
      OthersComing(w.store, f, w.cursor, c, m);
    } else {
      CreatedHolds(w.store, c, m);
      if m == NewMessage(c) {
        SameAgain(w.store, f, w.cursor, c, m);
      } else if Coming(Created(w.store, c), f, w.cursor, m) {
        ComingIsStored(Created(w.store, c), f, w.cursor, m);
      }
    }
  }

  /** Making the very same message again changes nothing. */
  lemma SameAgain(st: Store, f: Filter, cursor: Option<string>, c: Create, m: Message)
    requires WellFormed(st) && !Deduped(st, c) && m == NewMessage(c) && m in st.messages
    ensures Coming(Created(st, c), f, cursor, m) <==> Coming(st, f, cursor, m)
  {
    hide Matches;
    StoredMember(st.messages, m);
    PutAt(st.messages, m);
    assert Put(st.messages, m) == st.messages;
    assert Created(st, c).messages == st.messages;
  }

  /** Exactly which creates make the walk miss a message. */
  lemma WriteLosesIff(w: Walk, f: Filter, limit: nat, c: Create, wanted: seq<Message>)
    requires limit >= 1 && WellFormed(w.store) && Stamped(w.store, c) && NoLoss(w, f, wanted)
    ensures NoLoss(Step(w, Write(c), f, limit), f, wanted) <==> !Loses(w, f, c, wanted)
  {
    hide Coming, Matches, WellFormed, Stamped, Created, Deduped, Spoils;
    if Deduped(w.store, c) {
      DedupedChangesNothing(w.store, c);
    } else if !w.done {
      forall m | m in wanted && Coming(w.store, f, w.cursor, m)
        ensures Coming(Created(w.store, c), f, w.cursor, m) <==> !Spoils(w, f, c, m)
      {
        StillComing(w, f, limit, c, m);
      }
      forall m | Coming(w.store, f, w.cursor, m) ensures Matches(f, m) {
        ComingIsStored(w.store, f, w.cursor, m);
      }
    }
  }

  lemma DedupedChangesNothing(st: Store, c: Create)
    requires Deduped(st, c)
    ensures Created(st, c) == st
  {
  }

  /**
   Once the clock has moved on, and with the cursor's message still listed: a create spoils the walk exactly if it takes
   over a wanted message that is to come, or the cursor's own while another returned message is listed.
   */
  lemma {:induction false} SpoiledByTakeover(w: Walk, f: Filter, c: Create, wanted: seq<Message>, at: Message)
    requires WellFormed(w.store) && NoRepeat(w, f) && AtCursor(w.store, f, w.cursor, at)
    requires !w.done && !Deduped(w.store, c) && forall m :: m in w.store.messages ==> m.createdAt < c.now
    ensures Repeats(w, f, c) <==>
            (ChosenId(c) == at.id && exists m :: Listed(w.store, f, m) && m.id != at.id && Returned(w.items, m.id))
    ensures Loses(w, f, c, wanted) <==>
            (exists m :: m in wanted && m !in w.items && m.id == ChosenId(c) && Coming(w.store, f, w.cursor, m))
  {
    hide Matches, Coming, Returned, Position, NoRepeat;
    assert ChosenId(c) == at.id <==> w.cursor == Some(ChosenId(c));
    forall m | Listed(w.store, f, m) ensures BehindNew(w.store.messages, c, m) && !TiedBefore(w.store.messages, c, m) {
    }
    forall m | Coming(w.store, f, w.cursor, m) ensures Listed(w.store, f, m) {
      ComingIsStored(w.store, f, w.cursor, m);
    }
  }

  // ----- a page ----------------------------------------------------------------------------------------------------

  /** What one page does, in terms of the listing. */
  lemma TurnTakes(w: Walk, f: Filter, limit: nat) returns (n: nat, n': nat)
    requires limit >= 1 && !w.done && WellFormed(w.store)
    ensures var listing, w' := Listing(w.store, f), Turn(w, f, limit);
            && n == Next(listing, w.cursor) && n' == Min(n + limit, |listing|) && n <= n' <= |listing|
            && w' == Walk(w.store, w.items + listing[n..n'], w'.cursor, w.pages + 1, n' - n < limit)
            && (!w'.done ==> w'.cursor == Some(listing[n' - 1].id) && n' == n + limit && Next(listing, w'.cursor) == n')
  {
    hide FilterMessages, SliceWithCursor;
    var listing := Listing(w.store, f);
    n := Next(listing, w.cursor);
    n' := Min(n + limit, |listing|);
    PageStartsAtNext(listing, w.cursor, limit);
    ListingFacts(w.store, f);
    if n' - n == limit {
      assert listing[n..n'][limit - 1] == listing[n' - 1] && listing[n' - 1] in listing;
      FindIndexFinds(listing, listing[n' - 1].id);
    }
  }

  lemma ComingListed(st: Store, f: Filter, cursor: Option<string>, m: Message)
    requires WellFormed(st)
    ensures Coming(st, f, cursor, m) <==> m in Listing(st, f)[Next(Listing(st, f), cursor)..]
  {
    hide FilterMessages, Matches, Ahead;
    var listing := Listing(st, f);
    ListingFacts(st, f);
    assert m in listing[Next(listing, cursor)..] ==> m in listing;
    if m in listing {
      var i :| 0 <= i < |listing| && listing[i] == m;
      ComingIsBehindNext(st, f, cursor, i);
      SuffixMember(listing, i, Next(listing, cursor));
    }
  }

  lemma SuffixMember(s: seq<Message>, i: nat, n: nat)
    requires DistinctIds(s) && i < |s| && n <= |s|
    ensures s[i] in s[n..] <==> i >= n
  {
    if i >= n {
      assert s[n..][i - n] == s[i];
    }
  }

  lemma ReturnedMore(items: seq<Message>, page: seq<Message>, id: string)
    ensures Returned(items + page, id) <==> Returned(items, id) || Returned(page, id)
  {
    var all := items + page;
    assert forall i :: 0 <= i < |items| ==> all[i] == items[i];
    assert forall i :: 0 <= i < |page| ==> all[|items| + i] == page[i];
    assert forall i :: |items| <= i < |all| ==> all[i] == page[i - |items|];
  }

  lemma NotInPage(listing: seq<Message>, n: nat, n': nat, k: nat)
    requires DistinctIds(listing) && n <= n' <= |listing| && k < |listing| && !(n <= k < n')
    ensures !Returned(listing[n..n'], listing[k].id)
  {
    assert forall j :: 0 <= j < n' - n ==> listing[n..n'][j] == listing[n + j];
  }

  lemma PageDistinct(items: seq<Message>, listing: seq<Message>, n: nat, n': nat)
    requires DistinctIds(listing) && n <= n' <= |listing|
    requires DistinctIds(items) && forall m :: m in listing[n..] ==> !Returned(items, m.id)
    ensures DistinctIds(items + listing[n..n'])
    ensures forall m :: m in listing[n'..] ==> !Returned(items + listing[n..n'], m.id)
  {
    var page := listing[n..n'];
    var all := items + page;
    forall i, j | 0 <= i < j < |all| ensures all[i].id != all[j].id {
      if i < |items| <= j {
        assert listing[n..][j - |items|] == all[j] && all[i] == items[i];
        assert !Returned(items, all[j].id);
      }
    }
    forall m | m in listing[n'..] ensures !Returned(all, m.id) {
      var k :| n' <= k < |listing| && listing[k] == m;
      assert listing[n..][k - n] == m;
      ReturnedMore(items, page, m.id);
      NotInPage(listing, n, n', k);
    }
  }

  lemma TurnKeepsNoRepeat(w: Walk, f: Filter, limit: nat)
    requires limit >= 1 && WellFormed(w.store) && NoRepeat(w, f)
    ensures NoRepeat(Turn(w, f, limit), f)
  {
    if !w.done {
      hide Turn, FilterMessages, Coming, Returned, DistinctIds, WellFormed, Matches;
      var listing, w' := Listing(w.store, f), Turn(w, f, limit);
      var n, n' := TurnTakes(w, f, limit);
      ListingFacts(w.store, f);
      forall m ensures Coming(w.store, f, w.cursor, m) <==> m in listing[n..] {
        ComingListed(w.store, f, w.cursor, m);
      }
      PageDistinct(w.items, listing, n, n');
      if !w'.done {
        forall m ensures Coming(w.store, f, w'.cursor, m) <==> m in listing[n'..] {
          ComingListed(w.store, f, w'.cursor, m);
        }
      }
    }
  }

  lemma PartsOfRest(s: seq<Message>, n: nat, n': nat, m: Message)
    requires n <= n' <= |s|
    ensures m in s[n..] <==> m in s[n..n'] || m in s[n'..]
  {
    assert s[n..] == s[n..n'] + s[n'..];
  }

  lemma TurnKeepsNoLoss(w: Walk, f: Filter, limit: nat, wanted: seq<Message>)
    requires limit >= 1 && WellFormed(w.store) && NoLoss(w, f, wanted)
    ensures NoLoss(Turn(w, f, limit), f, wanted)
  {
    if !w.done {
      hide Turn, FilterMessages, Coming, DistinctIds, WellFormed, Matches;
      var listing, w' := Listing(w.store, f), Turn(w, f, limit);
      var n, n' := TurnTakes(w, f, limit);
      forall m | m in wanted && Matches(f, m) && m !in w.items
        ensures m in w'.items || (!w'.done && Coming(w.store, f, w'.cursor, m))
      {
        ComingListed(w.store, f, w.cursor, m);
        PartsOfRest(listing, n, n', m);
        if !w'.done {
          ComingListed(w.store, f, w'.cursor, m);
        } else {
          assert n' == |listing|;
        }
      }
    }
  }

  // ----- whole runs ------------------------------------------------------------------------------------------------

  /** Every create of the run is stamped when it happens. */
  ghost predicate AllStamped(w: Walk, evs: seq<Event>, f: Filter, limit: nat)
    requires limit >= 1
  {
    evs == [] ||
    (AllStamped(w, evs[..|evs| - 1], f, limit) &&
     (evs[|evs| - 1].Write? ==> Stamped(Run(w, evs[..|evs| - 1], f, limit).store, evs[|evs| - 1].create)))
  }

  lemma TurnKeepsStore(w: Walk, f: Filter, limit: nat)
    requires limit >= 1
    ensures Turn(w, f, limit).store == w.store
  {
  }

  lemma {:induction false} RunKeepsWellFormed(w: Walk, evs: seq<Event>, f: Filter, limit: nat)
    requires limit >= 1 && WellFormed(w.store) && AllStamped(w, evs, f, limit)
    ensures WellFormed(Run(w, evs, f, limit).store)
  {
    if evs != [] {
      hide WellFormed, Turn;
      var front := evs[..|evs| - 1];
      RunKeepsWellFormed(w, front, f, limit);
      TurnKeepsStore(Run(w, front, f, limit), f, limit);
      if evs[|evs| - 1].Write? {
        CreatedIsWellFormed(Run(w, front, f, limit).store, evs[|evs| - 1].create);
      }
    }
  }

  lemma StepRepeatsIff(w: Walk, ev: Event, f: Filter, limit: nat)
    requires limit >= 1 && WellFormed(w.store) && NoRepeat(w, f) && (ev.Write? ==> Stamped(w.store, ev.create))
    ensures NoRepeat(Step(w, ev, f, limit), f) <==> !(ev.Write? && Repeats(w, f, ev.create))
  {
    match ev
    case Write(c) => WriteRepeatsIff(w, f, limit, c);
    case NextPage => TurnKeepsNoRepeat(w, f, limit);
  }

  lemma StepLosesIff(w: Walk, ev: Event, f: Filter, limit: nat, wanted: seq<Message>)
    requires limit >= 1 && WellFormed(w.store) && NoLoss(w, f, wanted) && (ev.Write? ==> Stamped(w.store, ev.create))
    ensures NoLoss(Step(w, ev, f, limit), f, wanted) <==> !(ev.Write? && Loses(w, f, ev.create, wanted))
  {
    match ev
    case Write(c) => WriteLosesIff(w, f, limit, c, wanted);
    case NextPage => TurnKeepsNoLoss(w, f, limit, wanted);
  }

  lemma RunLast(w: Walk, evs: seq<Event>, f: Filter, limit: nat)
    requires limit >= 1 && evs != []
    ensures Run(w, evs, f, limit) == Step(Run(w, evs[..|evs| - 1], f, limit), evs[|evs| - 1], f, limit)
  {
  }

  /** A run never comes to repeat itself exactly when none of its creates makes it. */
  lemma {:induction false} RunRepeatsIff(w: Walk, evs: seq<Event>, f: Filter, limit: nat)
    requires limit >= 1 && WellFormed(w.store) && NoRepeat(w, f) && AllStamped(w, evs, f, limit)
    ensures (forall n :: 0 <= n <= |evs| ==> NoRepeat(Run(w, evs[..n], f, limit), f)) <==>
            (forall n :: 0 <= n < |evs| && evs[n].Write? ==> !Repeats(Run(w, evs[..n], f, limit), f, evs[n].create))
  {
    hide NoRepeat, Repeats, Step, WellFormed, Stamped;
    if evs == [] {
      assert evs[..0] == [];
    } else {
      var front, last := evs[..|evs| - 1], evs[|evs| - 1];
      RunRepeatsIff(w, front, f, limit);
      RunKeepsWellFormed(w, front, f, limit);
      RunLast(w, evs, f, limit);
      assert evs[..|evs|] == evs && evs[..|front|] == front;
      assert forall n :: 0 <= n <= |front| ==> front[..n] == evs[..n];
      assert forall n :: 0 <= n < |front| ==> front[n] == evs[n];
      if NoRepeat(Run(w, front, f, limit), f) {
        StepRepeatsIff(Run(w, front, f, limit), last, f, limit);
      }
    }
  }

  /** And never comes to miss one of the wanted messages exactly when none of its creates makes it. */
  lemma {:induction false} RunLosesIff(w: Walk, evs: seq<Event>, f: Filter, limit: nat, wanted: seq<Message>)
    requires limit >= 1 && WellFormed(w.store) && NoLoss(w, f, wanted) && AllStamped(w, evs, f, limit)
    ensures (forall n :: 0 <= n <= |evs| ==> NoLoss(Run(w, evs[..n], f, limit), f, wanted)) <==>
            (forall n :: 0 <= n < |evs| && evs[n].Write? ==>
             !Loses(Run(w, evs[..n], f, limit), f, evs[n].create, wanted))
  {
    hide NoLoss, Loses, Step, WellFormed, Stamped;
    if evs == [] {
      assert evs[..0] == [];
    } else {
      var front, last := evs[..|evs| - 1], evs[|evs| - 1];
      RunLosesIff(w, front, f, limit, wanted);
      RunKeepsWellFormed(w, front, f, limit);
      RunLast(w, evs, f, limit);
      assert evs[..|evs|] == evs && evs[..|front|] == front;
      assert forall n :: 0 <= n <= |front| ==> front[..n] == evs[..n];
      assert forall n :: 0 <= n < |front| ==> front[n] == evs[n];
      if NoLoss(Run(w, front, f, limit), f, wanted) {
        StepLosesIff(Run(w, front, f, limit), last, f, limit, wanted);
      }
    }
  }

  // ----- what the promise means for a reader who is left alone -----------------------------------------------------

  function QuietPages(w: Walk, k: nat, f: Filter, limit: nat): Walk
    requires limit >= 1
  {
    if k == 0 then w else Turn(QuietPages(w, k - 1, f, limit), f, limit)
  }

  /** What is to come, in order. */
  function Rest(w: Walk, f: Filter): seq<Message> {
    if w.done then [] else Listing(w.store, f)[Next(Listing(w.store, f), w.cursor)..]
  }

  lemma TurnKeepsRest(w: Walk, f: Filter, limit: nat)
    requires limit >= 1 && WellFormed(w.store)
    ensures var w' := Turn(w, f, limit);
            && w'.store == w.store && w'.items + Rest(w', f) == w.items + Rest(w, f)
            && (!w'.done ==> !w.done && |w'.items| == |w.items| + limit)
  {
    hide FilterMessages, Turn, WellFormed;
    TurnKeepsStore(w, f, limit);
    DoneStaysDone(w, f, limit);
    if !w.done {
      var n, n' := TurnTakes(w, f, limit);
      var listing := Listing(w.store, f);
      assert listing[n..] == listing[n..n'] + listing[n'..];
      assert listing[|listing|..] == [];
      assert w.items + (listing[n..n'] + listing[n'..]) == (w.items + listing[n..n']) + listing[n'..];
    }
  }

  /** With nobody writing, the pages from here on put together are what was to come, and they end. */
  lemma {:induction false} QuietPagesAreRest(w: Walk, k: nat, f: Filter, limit: nat)
    requires limit >= 1 && WellFormed(w.store)
    ensures var r := QuietPages(w, k, f, limit);
            && r.store == w.store
            && r.items + Rest(r, f) == w.items + Rest(w, f)
            && (!r.done ==> |r.items| == |w.items| + k * limit)
  {
    hide Rest, Turn, WellFormed;
    if k > 0 {
      QuietPagesAreRest(w, k - 1, f, limit);
      MulSuccessor(k - 1, limit);
      TurnKeepsRest(QuietPages(w, k - 1, f, limit), f, limit);
    } else {
      assert k * limit == 0;
    }
  }

  lemma DoneStaysDone(w: Walk, f: Filter, limit: nat)
    requires limit >= 1
    ensures w.done ==> Turn(w, f, limit) == w
  {
  }

  /** With nobody writing at all, the pages put together are list(filter). */
  lemma {:induction false} QuietWalkIsList(st: Store, k: nat, f: Filter, limit: nat)
    requires limit >= 1 && WellFormed(st)
    ensures var r := QuietPages(Start(st), k, f, limit);
            && r.items <= Listing(st, f)
            && (r.done ==> r.items == Listing(st, f))
            && (k * limit > |Listing(st, f)| ==> r.done)
  {
    hide FilterMessages;
    QuietPagesAreRest(Start(st), k, f, limit);
    assert Rest(Start(st), f) == Listing(st, f);
    var r := QuietPages(Start(st), k, f, limit);
    assert [] + Listing(st, f) == Listing(st, f) && r.items + [] == r.items;
    assert r.items <= r.items + Rest(r, f);
  }

  /** The state of a walk keeps the promise exactly when reading on undisturbed to the end returns nothing twice. */
  lemma {:induction false} NoRepeatMeansQuietEnd(w: Walk, k: nat, f: Filter, limit: nat)
    requires limit >= 1 && WellFormed(w.store) && QuietPages(w, k, f, limit).done
    ensures NoRepeat(w, f) <==> DistinctIds(QuietPages(w, k, f, limit).items)
  {
    hide FilterMessages, Coming, QuietPages, WellFormed;
    var r := QuietPages(w, k, f, limit);
    QuietPagesAreRest(w, k, f, limit);
    assert r.items + [] == r.items;
    assert r.items == w.items + Rest(w, f);
    if w.done {
      assert w.items + [] == w.items;
    } else {
      ListingFacts(w.store, f);
      var rest := Rest(w, f);
      forall m ensures Coming(w.store, f, w.cursor, m) <==> m in rest {
        ComingListed(w.store, f, w.cursor, m);
      }
      DistinctAppend(w.items, rest);
    }
  }

  lemma DistinctAppend(items: seq<Message>, rest: seq<Message>)
    requires DistinctIds(rest)
    ensures DistinctIds(items + rest) <==> DistinctIds(items) && forall m :: m in rest ==> !Returned(items, m.id)
  {
    var all := items + rest;
    if DistinctIds(all) {
      assert forall i :: 0 <= i < |items| ==> all[i] == items[i];
      forall m | m in rest ensures !Returned(items, m.id) {
        var j :| 0 <= j < |rest| && rest[j] == m;
        assert all[|items| + j] == m;
      }
    }
    if DistinctIds(items) && forall m :: m in rest ==> !Returned(items, m.id) {
      forall i, j | 0 <= i < j < |all| ensures all[i].id != all[j].id {
        if i < |items| <= j {
          assert rest[j - |items|] in rest && items[i] == all[i];
        }
      }
    }
  }

  /** And that the same reading returns every wanted message. */
  lemma NoLossMeansQuietEnd(w: Walk, k: nat, f: Filter, limit: nat, wanted: seq<Message>)
    requires limit >= 1 && WellFormed(w.store) && QuietPages(w, k, f, limit).done
    ensures NoLoss(w, f, wanted) <==> forall m :: m in wanted && Matches(f, m) ==> m in QuietPages(w, k, f, limit).items
  {
    hide FilterMessages, Coming, QuietPages, Matches, WellFormed;
    QuietPagesAreRest(w, k, f, limit);
    var r := QuietPages(w, k, f, limit);
    assert r.items + [] == r.items;
    if w.done {
      assert w.items + [] == w.items;
    }
    forall m ensures m in r.items <==> m in w.items || (!w.done && Coming(w.store, f, w.cursor, m)) {
      if !w.done {
        ComingListed(w.store, f, w.cursor, m);
      }
    }
  }

  // ----- who is missed ---------------------------------------------------------------------------------------------

  /** Some create took the message's id over before the message was returned. */
  ghost predicate TakenOver(w: Walk, evs: seq<Event>, f: Filter, limit: nat, m: Message)
    requires limit >= 1
  {
    exists n :: 0 <= n < |evs| && TakesOver(Run(w, evs[..n], f, limit), evs[n], m)
  }

  predicate TakesOver(w: Walk, ev: Event, m: Message) {
    ev.Write? && !Deduped(w.store, ev.create) && ChosenId(ev.create) == m.id && m !in w.items && !w.done
  }

  /** What is gone from the store before it was returned is never returned: later messages are newer. */
  ghost predicate Gone(w: Walk, m: Message) {
    m !in w.items && (w.done || m !in w.store.messages)
  }

  lemma StepKeepsGone(w: Walk, ev: Event, f: Filter, limit: nat, m: Message)
    requires limit >= 1 && WellFormed(w.store) && Gone(w, m) && (ev.Write? ==> ev.create.now > m.createdAt)
    ensures Gone(Step(w, ev, f, limit), m)
  {
    hide Turn, FilterMessages, Matches;
    match ev
    case Write(c) =>
      if !Deduped(w.store, c) {
        CreatedHolds(w.store, c, m);
      }
    case NextPage =>
      DoneStaysDone(w, f, limit);
      if !w.done {
        var n, n' := TurnTakes(w, f, limit);
        ListingFacts(w.store, f);
        assert m !in Listing(w.store, f);
      }
  }

  ghost predicate AllLater(evs: seq<Event>, m: Message) {
    forall n :: 0 <= n < |evs| && evs[n].Write? ==> evs[n].create.now > m.createdAt
  }

  lemma LosesIffTakesOver(w: Walk, ev: Event, f: Filter, m: Message)
    requires NoLoss(w, f, [m]) && Matches(f, m) && (ev.Write? ==> ev.create.now > m.createdAt)
    ensures (ev.Write? && Loses(w, f, ev.create, [m])) <==> TakesOver(w, ev, m)
  {
    hide Coming, Matches;
    assert m in [m];
  }

  lemma TakeoverGoes(w: Walk, ev: Event, f: Filter, limit: nat, m: Message)
    requires limit >= 1 && WellFormed(w.store) && TakesOver(w, ev, m) && (ev.Write? ==> ev.create.now > m.createdAt)
    ensures Gone(Step(w, ev, f, limit), m)
  {
    CreatedHolds(w.store, ev.create, m);
  }

  lemma {:induction false} GoneOrKept(w: Walk, evs: seq<Event>, f: Filter, limit: nat, m: Message)
    requires limit >= 1 && WellFormed(w.store) && AllStamped(w, evs, f, limit) && AllLater(evs, m)
    requires NoLoss(w, f, [m]) && Matches(f, m)
    ensures var r := Run(w, evs, f, limit);
            if TakenOver(w, evs, f, limit, m) then Gone(r, m) else NoLoss(r, f, [m])
  {
    hide Step, NoLoss, Gone, TakesOver, WellFormed, Matches, Loses;
    if evs != [] {
      var front, last := evs[..|evs| - 1], evs[|evs| - 1];
      GoneOrKept(w, front, f, limit, m);
      RunKeepsWellFormed(w, front, f, limit);
      RunLast(w, evs, f, limit);
      var r := Run(w, front, f, limit);
      TakenOverFront(w, evs, f, limit, m);
      if TakenOver(w, front, f, limit, m) {
        StepKeepsGone(r, last, f, limit, m);
      } else {
        LosesIffTakesOver(r, last, f, m);
        if TakesOver(r, last, m) {
          TakeoverGoes(r, last, f, limit, m);
        } else {
          StepLosesIff(r, last, f, limit, [m]);
        }
      }
    }
  }

  lemma TakenOverFront(w: Walk, evs: seq<Event>, f: Filter, limit: nat, m: Message)
    requires limit >= 1 && evs != []
    ensures var front, last := evs[..|evs| - 1], evs[|evs| - 1];
            TakenOver(w, evs, f, limit, m) <==>
            TakenOver(w, front, f, limit, m) || TakesOver(Run(w, front, f, limit), last, m)
  {
    hide Run, TakesOver;
    var front := evs[..|evs| - 1];
    assert forall n :: 0 <= n <= |front| ==> front[..n] == evs[..n];
    assert forall n :: 0 <= n < |front| ==> front[n] == evs[n];
    assert evs[..|front|] == front;
    if TakenOver(w, front, f, limit, m) {
      var n :| 0 <= n < |front| && TakesOver(Run(w, front[..n], f, limit), front[n], m);
      assert TakesOver(Run(w, evs[..n], f, limit), evs[n], m);
    }
    if TakesOver(Run(w, front, f, limit), evs[|front|], m) {
      assert TakesOver(Run(w, evs[..|front|], f, limit), evs[|front|], m);
    }
    if TakenOver(w, evs, f, limit, m) {
      var n :| 0 <= n < |evs| && TakesOver(Run(w, evs[..n], f, limit), evs[n], m);
      if n < |front| {
        assert TakesOver(Run(w, front[..n], f, limit), front[n], m);
      }
    }
  }

  /**
   A walk that has ended has returned a matching message of its start exactly if no create took over the message's id
   before that; the creates come later than the message, whatever else they do.
   */
  lemma {:induction false} ReturnedIffNotTakenOver(st: Store, evs: seq<Event>, f: Filter, limit: nat, m: Message)
    requires limit >= 1 && WellFormed(st) && AllStamped(Start(st), evs, f, limit) && AllLater(evs, m)
    requires m in st.messages && Matches(f, m) && Run(Start(st), evs, f, limit).done
    ensures m in Run(Start(st), evs, f, limit).items <==> !TakenOver(Start(st), evs, f, limit, m)
  {
    hide Run, AllStamped, TakenOver, Matches;
    assert NoLoss(Start(st), f, [m]);
    GoneOrKept(Start(st), evs, f, limit, m);
    assert m in [m];
  }

  // ----- who is missed, whatever the creates do --------------------------------------------------------------------

  /** Neither returned nor to come. */
  ghost predicate Missed(w: Walk, f: Filter, m: Message) {
    m !in w.items && (w.done || !Coming(w.store, f, w.cursor, m))
  }

  /**
   Makes a missed message one to come: the create makes that very message again in a place behind the cursor, or takes
   over the id of the cursor, whose place was behind the message.
   */
  ghost predicate Restores(w: Walk, f: Filter, c: Create, m: Message) {
    !w.done && !Deduped(w.store, c) &&
    if m.id == ChosenId(c) then
      && m == NewMessage(c) && w.cursor != Some(m.id)
      && forall d :: AtCursor(w.store, f, w.cursor, d) ==> TiedBefore(w.store.messages, c, d)
    else
      && w.cursor == Some(ChosenId(c)) && Listed(w.store, f, m)
      && (Matches(f, NewMessage(c)) ==> BehindNew(w.store.messages, c, m))
  }

  /** Of the creates that spoil the message's chance or restore it, the last one spoilt it. */
  ghost predicate Spoilt(w: Walk, evs: seq<Event>, f: Filter, limit: nat, m: Message)
    requires limit >= 1
  {
    evs != [] &&
    var front, last := evs[..|evs| - 1], evs[|evs| - 1];
    if Spoilt(w, front, f, limit, m) then !(last.Write? && Restores(Run(w, front, f, limit), f, last.create, m))
    else last.Write? && Loses(Run(w, front, f, limit), f, last.create, [m])
  }

  lemma MissedWrite(w: Walk, f: Filter, limit: nat, c: Create, m: Message)
    requires limit >= 1 && WellFormed(w.store) && Stamped(w.store, c) && Missed(w, f, m) && Matches(f, m)
    ensures Missed(Step(w, Write(c), f, limit), f, m) <==> !Restores(w, f, c, m)
  {
    hide Coming, Matches, BehindNew, TiedBefore, WellFormed, Stamped, Created, AtCursor;
    if Deduped(w.store, c) {
      DedupedChangesNothing(w.store, c);
    } else if m.id != ChosenId(c) {
      OthersComing(w.store, f, w.cursor, c, m);
    } else if m == NewMessage(c) {
      NewComing(w.store, f, w.cursor, c);
    } else if Coming(Created(w.store, c), f, w.cursor, m) {
      ComingIsStored(Created(w.store, c), f, w.cursor, m);
      CreatedHolds(w.store, c, m);
    }
  }

  lemma MissedTurn(w: Walk, f: Filter, limit: nat, m: Message)
    requires limit >= 1 && WellFormed(w.store) && Missed(w, f, m)
    ensures Missed(Turn(w, f, limit), f, m)
  {
    hide Turn, FilterMessages, Coming, WellFormed;
    DoneStaysDone(w, f, limit);
    if !w.done {
      var n, n' := TurnTakes(w, f, limit);
      var listing, w' := Listing(w.store, f), Turn(w, f, limit);
      ComingListed(w.store, f, w.cursor, m);
      PartsOfRest(listing, n, n', m);
      if !w'.done {
        ComingListed(w.store, f, w'.cursor, m);
      }
    }
  }

  lemma LostIsMissed(w: Walk, f: Filter, limit: nat, c: Create, m: Message)
    requires limit >= 1 && WellFormed(w.store) && Stamped(w.store, c) && Loses(w, f, c, [m])
    ensures Missed(Step(w, Write(c), f, limit), f, m)
  {
    hide Coming, Matches, WellFormed, Stamped, Created, Spoils;
    StillComing(w, f, limit, c, m);
  }

  lemma {:induction false} MissedIffSpoilt(w: Walk, evs: seq<Event>, f: Filter, limit: nat, m: Message)
    requires limit >= 1 && WellFormed(w.store) && AllStamped(w, evs, f, limit)
    requires NoLoss(w, f, [m]) && Matches(f, m)
    ensures var r := Run(w, evs, f, limit);
            if Spoilt(w, evs, f, limit, m) then Missed(r, f, m) else NoLoss(r, f, [m])
  {
    hide Step, NoLoss, Missed, Loses, Restores, WellFormed, Stamped, Matches;
    if evs != [] {
      var front, last := evs[..|evs| - 1], evs[|evs| - 1];
      MissedIffSpoilt(w, front, f, limit, m);
      RunKeepsWellFormed(w, front, f, limit);
      RunLast(w, evs, f, limit);
      var r := Run(w, front, f, limit);
      if Spoilt(w, front, f, limit, m) {
        match last
        case Write(c) =>
          MissedWrite(r, f, limit, c, m);
          if Restores(r, f, c, m) {
            MissedNoMore(r, f, limit, c, m);
          }
        case NextPage => MissedStep(r, f, limit, m);
      } else {
        StepLosesIff(r, last, f, limit, [m]);
        if last.Write? && Loses(r, f, last.create, [m]) {
          LostIsMissed(r, f, limit, last.create, m);
        }
      }
    }
  }

  lemma MissedStep(w: Walk, f: Filter, limit: nat, m: Message)
    requires limit >= 1 && WellFormed(w.store) && Missed(w, f, m)
    ensures Missed(Step(w, NextPage, f, limit), f, m)
  {
    hide Turn, Missed, WellFormed;
    MissedTurn(w, f, limit, m);
  }

  lemma MissedNoMore(w: Walk, f: Filter, limit: nat, c: Create, m: Message)
    requires limit >= 1 && Restores(w, f, c, m) && Missed(w, f, m) && !Missed(Step(w, Write(c), f, limit), f, m)
    ensures NoLoss(Step(w, Write(c), f, limit), f, [m])
  {
    hide Coming, Created, Matches, Deduped;
  }

  /**
   Whatever the creates do, within the message's millisecond or later: a walk that has ended has returned a matching
   message of its start exactly if the last create that spoilt or restored its chance did not spoil it.
   */
  lemma {:induction false} ReturnedIffNotSpoilt(st: Store, evs: seq<Event>, f: Filter, limit: nat, m: Message)
    requires limit >= 1 && WellFormed(st) && AllStamped(Start(st), evs, f, limit)
    requires m in st.messages && Matches(f, m) && Run(Start(st), evs, f, limit).done
    ensures m in Run(Start(st), evs, f, limit).items <==> !Spoilt(Start(st), evs, f, limit, m)
  {
    hide Run, AllStamped, Spoilt, Matches;
    assert NoLoss(Start(st), f, [m]);
    MissedIffSpoilt(Start(st), evs, f, limit, m);
    assert m in [m];
  }

  // ----- creates with ids of their own -----------------------------------------------------------------------------

  /** What has been returned, and where the cursor stands, is stored; an id never leaves the store. */
  ghost predicate Known(w: Walk) {
    && (forall m :: m in w.items ==> Stored(w.store.messages, m.id))
    && (Given(w.cursor) ==> Stored(w.store.messages, w.cursor.value))
  }

  lemma StepKeepsKnown(w: Walk, ev: Event, f: Filter, limit: nat)
    requires limit >= 1 && WellFormed(w.store) && Known(w)
    ensures Known(Step(w, ev, f, limit))
  {
    hide Turn, FilterMessages, Stored, Matches;
    match ev
    case Write(c) =>
      forall id | Stored(w.store.messages, id) ensures Stored(Created(w.store, c).messages, id) {
        if !Deduped(w.store, c) {
          PutKeepsPositions(w.store.messages, NewMessage(c), id);
        }
      }
    case NextPage =>
      DoneStaysDone(w, f, limit);
      if !w.done {
        var n, n' := TurnTakes(w, f, limit);
        ListingFacts(w.store, f);
        var listing := Listing(w.store, f);
        forall m | m in listing ensures Stored(w.store.messages, m.id) {
          StoredMember(w.store.messages, m);
        }
        assert n' > n ==> listing[n' - 1] in listing;
        if Turn(w, f, limit).done {
          DoneHasNoCursor(w, f, limit);
        }
      }
  }

  lemma DoneHasNoCursor(w: Walk, f: Filter, limit: nat)
    requires limit >= 1 && !w.done && Turn(w, f, limit).done
    ensures Turn(w, f, limit).cursor == None
  {
  }

  /** A create whose id is not stored yet, or that is a repeat, never spoils a walk. */
  lemma OwnIdSpoilsNothing(w: Walk, f: Filter, c: Create, wanted: seq<Message>)
    requires Known(w) && WellFormed(w.store) && Stamped(w.store, c)
    requires Deduped(w.store, c) || !Stored(w.store.messages, ChosenId(c))
    ensures !Repeats(w, f, c) && !Loses(w, f, c, wanted)
  {
    hide Matches, Ahead, FindIndex;
    if !Deduped(w.store, c) {
      forall m | m in w.store.messages ensures m.id != ChosenId(c) {
        StoredMember(w.store.messages, m);
      }
      assert forall i :: 0 <= i < |w.items| ==> w.items[i] in w.items;
      assert w.cursor != Some(ChosenId(c));
    }
  }

  ghost predicate OwnIds(w: Walk, evs: seq<Event>, f: Filter, limit: nat)
    requires limit >= 1
  {
    forall n :: 0 <= n < |evs| && evs[n].Write? ==>
      var st := Run(w, evs[..n], f, limit).store;
      Deduped(st, evs[n].create) || !Stored(st.messages, ChosenId(evs[n].create))
  }

  /**
   While creates have ids of their own, as generated ids are, nothing is returned twice, and nothing missed at the end.
   */
  lemma {:induction false} OwnIdsKeepPromise(w: Walk, evs: seq<Event>, f: Filter, limit: nat, wanted: seq<Message>)
    requires limit >= 1 && WellFormed(w.store) && Known(w) && NoRepeat(w, f) && NoLoss(w, f, wanted)
    requires AllStamped(w, evs, f, limit) && OwnIds(w, evs, f, limit)
    ensures var r := Run(w, evs, f, limit); Known(r) && NoRepeat(r, f) && NoLoss(r, f, wanted)
  {
    hide NoRepeat, NoLoss, Known, Step, WellFormed, Repeats, Loses, Stored, Deduped;
    if evs != [] {
      var front, last := evs[..|evs| - 1], evs[|evs| - 1];
      assert forall n :: 0 <= n <= |front| ==> front[..n] == evs[..n];
      assert forall n :: 0 <= n < |front| ==> front[n] == evs[n];
      assert evs[..|front|] == front;
      OwnIdsKeepPromise(w, front, f, limit, wanted);
      var r := Run(w, front, f, limit);
      RunKeepsWellFormed(w, front, f, limit);
      RunLast(w, evs, f, limit);
      StepKeepsKnown(r, last, f, limit);
      if last.Write? {
        OwnIdSpoilsNothing(r, f, last.create, wanted);
      }
      StepRepeatsIff(r, last, f, limit);
      StepLosesIff(r, last, f, limit, wanted);
    }
  }

  // ----- what is returned matches ----------------------------------------------------------------------------------

  lemma {:induction false} EverythingReturnedMatches(st: Store, evs: seq<Event>, f: Filter, limit: nat)
    requires limit >= 1 && WellFormed(st) && AllStamped(Start(st), evs, f, limit)
    ensures forall m :: m in Run(Start(st), evs, f, limit).items ==> Matches(f, m)
  {
    if evs != [] {
      hide Turn, FilterMessages, Matches, WellFormed, Stamped;
      var front := evs[..|evs| - 1];
      EverythingReturnedMatches(st, front, f, limit);
      RunKeepsWellFormed(Start(st), front, f, limit);
      var r := Run(Start(st), front, f, limit);
      DoneStaysDone(r, f, limit);
      if !r.done {
        var n, n' := TurnTakes(r, f, limit);
        ListingFacts(r.store, f);
        assert forall m :: m in Listing(r.store, f)[n..n'] ==> m in Listing(r.store, f);
      }
    }
  }

  // ----- how a walk ends -------------------------------------------------------------------------------------------

  function PagesAsked(evs: seq<Event>): nat {
    if evs == [] then 0 else PagesAsked(evs[..|evs| - 1]) + if evs[|evs| - 1].NextPage? then 1 else 0
  }

  lemma StepCounts(w: Walk, ev: Event, f: Filter, limit: nat)
    requires limit >= 1 && WellFormed(w.store)
    ensures var w' := Step(w, ev, f, limit);
            !w'.done ==> !w.done && |w'.items| == |w.items| + if ev.NextPage? then limit else 0
  {
    hide Turn, Rest;
    TurnKeepsRest(w, f, limit);
  }

  /** A walk that goes on has had only full pages. */
  lemma {:induction false} GoingOnHasFullPages(w: Walk, evs: seq<Event>, f: Filter, limit: nat)
    requires limit >= 1 && WellFormed(w.store) && AllStamped(w, evs, f, limit)
    ensures var r := Run(w, evs, f, limit); !r.done ==> !w.done && |r.items| == |w.items| + PagesAsked(evs) * limit
  {
    hide Step, WellFormed, Stamped;
    if evs != [] {
      var front, last := evs[..|evs| - 1], evs[|evs| - 1];
      GoingOnHasFullPages(w, front, f, limit);
      RunKeepsWellFormed(w, front, f, limit);
      StepCounts(Run(w, front, f, limit), last, f, limit);
      MulSuccessor(PagesAsked(front), limit);
    } else {
      assert PagesAsked(evs) * limit == 0;
    }
  }

  lemma {:induction false} IdsAreAsMany(s: seq<Message>)
    ensures |set m | m in s :: m.id| <= |s|
    ensures DistinctIds(s) ==> |set m | m in s :: m.id| == |s|
  {
    if s != [] {
      var front, last := s[..|s| - 1], s[|s| - 1];
      IdsAreAsMany(front);
      assert s == front + [last];
      assert (set m | m in s :: m.id) == (set m | m in front :: m.id) + {last.id};
    }
  }

  lemma FewerIds(a: seq<Message>, b: seq<Message>)
    requires DistinctIds(a) && forall m :: m in a ==> Returned(b, m.id)
    ensures |a| <= |b|
  {
    IdsAreAsMany(a);
    IdsAreAsMany(b);
    var ids, all := set m | m in a :: m.id, set m | m in b :: m.id;
    forall id | id in ids ensures id in all {
      var i :| 0 <= i < |b| && b[i].id == id;
      assert b[i] in b;
    }
    assert ids <= all;
    SubsetSize(ids, all);
  }

  lemma SubsetSize(a: set<string>, b: set<string>)
    requires a <= b
    ensures |a| <= |b|
  {
    assert b == a + (b - a);
  }

  lemma {:induction false} RunKeepsKnown(w: Walk, evs: seq<Event>, f: Filter, limit: nat)
    requires limit >= 1 && WellFormed(w.store) && AllStamped(w, evs, f, limit) && Known(w)
    ensures Known(Run(w, evs, f, limit))
  {
    if evs != [] {
      hide Known, Step, WellFormed, Stamped;
      RunKeepsKnown(w, evs[..|evs| - 1], f, limit);
      RunKeepsWellFormed(w, evs[..|evs| - 1], f, limit);
      StepKeepsKnown(Run(w, evs[..|evs| - 1], f, limit), evs[|evs| - 1], f, limit);
    }
  }

  /** A walk that does not repeat itself is over once its pages have room for more than is stored. */
  lemma {:induction false} WalkEnds(w: Walk, evs: seq<Event>, f: Filter, limit: nat)
    requires limit >= 1 && WellFormed(w.store) && AllStamped(w, evs, f, limit) && w.items == []
    requires Known(w) && NoRepeat(Run(w, evs, f, limit), f)
    ensures PagesAsked(evs) * limit > |Run(w, evs, f, limit).store.messages| ==> Run(w, evs, f, limit).done
  {
    hide Run, AllStamped, WellFormed, Coming;
    var r := Run(w, evs, f, limit);
    RunKeepsKnown(w, evs, f, limit);
    GoingOnHasFullPages(w, evs, f, limit);
    forall m | m in r.items ensures Returned(r.store.messages, m.id) {
      FindIndexFinds(r.store.messages, m.id);
    }
    FewerIds(r.items, r.store.messages);
  }

  /** The cursor is listed, and neither it nor anything to come is newer than this. */
  ghost predicate BoundedBy(w: Walk, f: Filter, newest: int) {
    !w.done ==>
      && (exists d :: AtCursor(w.store, f, w.cursor, d))
      && (forall d :: AtCursor(w.store, f, w.cursor, d) ==> d.createdAt <= newest)
      && (forall m :: Coming(w.store, f, w.cursor, m) ==> m.createdAt <= newest)
  }

  /** Later than that, and not in the place of the cursor. */
  predicate LandsAhead(w: Walk, c: Create, newest: int) {
    Deduped(w.store, c) || (c.now > newest && w.cursor != Some(ChosenId(c)))
  }

  lemma WriteAheadComing(w: Walk, f: Filter, c: Create, newest: int, m: Message)
    requires WellFormed(w.store) && Stamped(w.store, c) && !w.done && BoundedBy(w, f, newest) &&
             LandsAhead(w, c, newest)
    ensures Coming(Created(w.store, c), f, w.cursor, m) ==> Coming(w.store, f, w.cursor, m)
  {
    hide Coming, Matches, Position;
    if !Deduped(w.store, c) {
      if m.id != ChosenId(c) {
        OthersComing(w.store, f, w.cursor, c, m);
      } else if Coming(Created(w.store, c), f, w.cursor, m) {
        ComingIsStored(Created(w.store, c), f, w.cursor, m);
        CreatedHolds(w.store, c, m);
        NewComing(w.store, f, w.cursor, c);
      }
    }
  }

  lemma WriteAheadCursor(w: Walk, f: Filter, c: Create, newest: int, d: Message)
    requires WellFormed(w.store) && LandsAhead(w, c, newest)
    ensures AtCursor(Created(w.store, c), f, w.cursor, d) <==> AtCursor(w.store, f, w.cursor, d)
  {
    hide Matches;
    if !Deduped(w.store, c) {
      CreatedHolds(w.store, c, d);
    }
  }

  /** What is to come shrinks or stays when a create lands ahead of the cursor. */
  lemma WriteAheadShrinks(w: Walk, f: Filter, limit: nat, c: Create, newest: int)
    requires limit >= 1 && WellFormed(w.store) && Stamped(w.store, c) && BoundedBy(w, f, newest) &&
             LandsAhead(w, c, newest)
    ensures var w' := Step(w, Write(c), f, limit); BoundedBy(w', f, newest) && |Rest(w', f)| <= |Rest(w, f)|
  {
    if !w.done {
      hide FilterMessages, Coming, AtCursor, Created, Next, Stamped, LandsAhead, WellFormed, Deduped;
      var w' := Step(w, Write(c), f, limit);
      CreatedIsWellFormed(w.store, c);
      forall m ensures Coming(w'.store, f, w.cursor, m) ==> Coming(w.store, f, w.cursor, m) {
        WriteAheadComing(w, f, c, newest, m);
      }
      forall d ensures AtCursor(w'.store, f, w.cursor, d) <==> AtCursor(w.store, f, w.cursor, d) {
        WriteAheadCursor(w, f, c, newest, d);
      }
      RestIsComing(w, f);
      RestIsComing(w', f);
      forall m | m in Rest(w', f) ensures Returned(Rest(w, f), m.id) {
        assert m in Rest(w, f);
      }
      FewerIds(Rest(w', f), Rest(w, f));
    }
  }

  lemma RestIsComing(w: Walk, f: Filter)
    requires WellFormed(w.store) && !w.done
    ensures DistinctIds(Rest(w, f)) && forall m :: m in Rest(w, f) <==> Coming(w.store, f, w.cursor, m)
  {
    hide FilterMessages, Coming, Matches;
    ListingFacts(w.store, f);
    forall m ensures m in Rest(w, f) <==> Coming(w.store, f, w.cursor, m) {
      ComingListed(w.store, f, w.cursor, m);
    }
  }

  lemma NewCursorIsLast(w: Walk, f: Filter, limit: nat, d: Message)
    requires limit >= 1 && WellFormed(w.store) && !w.done && !Turn(w, f, limit).done
    requires AtCursor(w.store, f, Turn(w, f, limit).cursor, d)
    ensures Coming(w.store, f, w.cursor, d)
  {
    hide FilterMessages, Coming, Turn, Matches;
    var n, n' := TurnTakes(w, f, limit);
    var listing := Listing(w.store, f);
    ListingFacts(w.store, f);
    assert listing[n..][limit - 1] == listing[n' - 1] && listing[n' - 1] in listing;
    SameId(listing, d, listing[n' - 1]);
    RestIsComing(w, f);
  }

  lemma NewCursorIsListed(w: Walk, f: Filter, limit: nat)
    requires limit >= 1 && WellFormed(w.store) && !w.done && !Turn(w, f, limit).done
    ensures exists d :: AtCursor(w.store, f, Turn(w, f, limit).cursor, d)
  {
    hide FilterMessages, Turn, Matches;
    var n, n' := TurnTakes(w, f, limit);
    var listing := Listing(w.store, f);
    ListingFacts(w.store, f);
    assert listing[n' - 1] in listing;
    NonEmptyId(w.store, listing[n' - 1]);
    assert AtCursor(w.store, f, Turn(w, f, limit).cursor, listing[n' - 1]);
  }

  lemma LaterIsComing(w: Walk, f: Filter, limit: nat, m: Message)
    requires limit >= 1 && WellFormed(w.store) && !w.done && !Turn(w, f, limit).done
    requires Coming(w.store, f, Turn(w, f, limit).cursor, m)
    ensures Coming(w.store, f, w.cursor, m)
  {
    hide FilterMessages, Coming, Turn, Matches;
    var n, n' := TurnTakes(w, f, limit);
    var listing := Listing(w.store, f);
    ComingListed(w.store, f, Turn(w, f, limit).cursor, m);
    ComingListed(w.store, f, w.cursor, m);
    var k :| n' <= k < |listing| && listing[k] == m;
    assert listing[n..][k - n] == m;
  }

  lemma TurnKeepsBound(w: Walk, f: Filter, limit: nat, newest: int)
    requires limit >= 1 && WellFormed(w.store)
    requires BoundedBy(w, f, newest) || (forall m :: m in w.store.messages ==> m.createdAt <= newest)
    ensures BoundedBy(Turn(w, f, limit), f, newest)
  {
    hide FilterMessages, Coming, Turn, WellFormed, AtCursor;
    DoneStaysDone(w, f, limit);
    TurnKeepsStore(w, f, limit);
    var w' := Turn(w, f, limit);
    if !w.done && !w'.done {
      NewCursorIsListed(w, f, limit);
      forall m | Coming(w.store, f, w.cursor, m) ensures m.createdAt <= newest {
        ComingIsStored(w.store, f, w.cursor, m);
      }
      forall d | AtCursor(w.store, f, w'.cursor, d) ensures d.createdAt <= newest {
        NewCursorIsLast(w, f, limit, d);
      }
      forall m | Coming(w.store, f, w'.cursor, m) ensures m.createdAt <= newest {
        LaterIsComing(w, f, limit, m);
      }
    }
  }

  lemma NonEmptyId(st: Store, m: Message)
    requires WellFormed(st) && m in st.messages
    ensures m.id != ""
  {
  }

  ghost predicate AllLandAhead(w: Walk, evs: seq<Event>, f: Filter, limit: nat, newest: int)
    requires limit >= 1
  {
    forall n :: 0 <= n < |evs| && evs[n].Write? ==> LandsAhead(Run(w, evs[..n], f, limit), evs[n].create, newest)
  }

  lemma {:induction false} RestNeverGrows(w: Walk, evs: seq<Event>, f: Filter, limit: nat, newest: int)
    requires limit >= 1 && WellFormed(w.store) && AllStamped(w, evs, f, limit)
    requires BoundedBy(w, f, newest) && AllLandAhead(w, evs, f, limit, newest)
    ensures var r := Run(w, evs, f, limit);
            BoundedBy(r, f, newest) && |r.items| + |Rest(r, f)| <= |w.items| + |Rest(w, f)|
  {
    hide BoundedBy, Rest, Turn, WellFormed, Stamped, LandsAhead;
    if evs != [] {
      var front, last := evs[..|evs| - 1], evs[|evs| - 1];
      assert forall n :: 0 <= n <= |front| ==> front[..n] == evs[..n];
      assert forall n :: 0 <= n < |front| ==> front[n] == evs[n];
      assert evs[..|front|] == front;
      RestNeverGrows(w, front, f, limit, newest);
      RunKeepsWellFormed(w, front, f, limit);
      var r := Run(w, front, f, limit);
      match last
      case Write(c) => WriteAheadShrinks(r, f, limit, c, newest);
      case NextPage =>
        TurnKeepsRest(r, f, limit);
        TurnKeepsBound(r, f, limit, newest);
        assert |Turn(r, f, limit).items + Rest(Turn(r, f, limit), f)| == |r.items + Rest(r, f)|;
    }
  }

  /**
   From the second page on, as long as creates come later than the newest message was at the first page (two of them in
   one millisecond will do) and do not take the cursor's message over, a walk needs no more pages than the listing had
   left then, however many messages are created meanwhile.
   */
  lemma {:induction false} WalkEndsWhileOthersWrite(st: Store, evs: seq<Event>, f: Filter, limit: nat, newest: int)
    requires limit >= 1 && WellFormed(st) && forall m :: m in st.messages ==> m.createdAt <= newest
    requires var w := Turn(Start(st), f, limit); AllStamped(w, evs, f, limit) && AllLandAhead(w, evs, f, limit, newest)
    ensures var w := Turn(Start(st), f, limit);
            PagesAsked(evs) * limit > |Rest(w, f)| ==> Run(w, evs, f, limit).done
  {
    hide Turn, Run, AllStamped, AllLandAhead, Rest, WellFormed, BoundedBy;
    var w := Turn(Start(st), f, limit);
    TurnKeepsStore(Start(st), f, limit);
    TurnKeepsBound(Start(st), f, limit, newest);
    RestNeverGrows(w, evs, f, limit, newest);
    GoingOnHasFullPages(w, evs, f, limit);
  }

  // ----- two walks that go wrong -----------------------------------------------------------------------------------

  function Text(id: string, at: int): Message {
    Message(id, "c", "s", "text", "sent", "", at, None)
  }

  function InConversation(): Filter {
    Filter(Some("c"), None, None, None, false, None, None)
  }

  function TakeOver(id: string, at: int): Create {
    Create("c", "s", "text", "", None, Some(id), "9", at)
  }

  lemma TurnFromListing(w: Walk, f: Filter, limit: nat, listing: seq<Message>, n: nat)
    requires limit >= 1 && !w.done && WellFormed(w.store) && Listing(w.store, f) == listing && n <= |listing|
    requires if n == 0 then w.cursor == None else w.cursor == Some(listing[n - 1].id)
    ensures var page := listing[n..Min(n + limit, |listing|)];
            Turn(w, f, limit) == Walk(w.store, w.items + page,
                                      if |page| == limit then Some(page[|page| - 1].id) else None,
                                      w.pages + 1, |page| < limit)
  {
    hide FilterMessages, SliceWithCursor;
    PageStartsAtNext(listing, w.cursor, limit);
    ListingFacts(w.store, f);
    if n > 0 {
      FindIndexFinds(listing, listing[n - 1].id);
      assert listing[n - 1] in listing;
    }
  }

  lemma ListingOfNone(f: Filter)
    ensures FilterMessages([], f) == []
  {
    NarrowedIsOnePass([], f);
  }

  lemma ListingOfTwo(a: Message, b: Message, f: Filter)
    requires Matches(f, a) && Matches(f, b)
    ensures FilterMessages([a, b], f) == if a.createdAt >= b.createdAt then [a, b] else [b, a]
  {
    hide FilterMessages, Matches;
    ListingOfNone(f);
    FilterAppend([], a, f);
    FilterAppend([a], b, f);
    assert [] + [a] == [a] && [a] + [b] == [a, b];
    assert Insert([], a) == [a];
    assert [a][..0] == [] && Insert([], b) == [b];
  }

  lemma ListingOfThird(two: seq<Message>, c: Message, f: Filter, sorted: seq<Message>, k: nat)
    requires Matches(f, c) && FilterMessages(two, f) == sorted && k <= |sorted|
    requires forall i :: 0 <= i < |sorted| ==> (sorted[i].createdAt >= c.createdAt <==> i < k)
    ensures FilterMessages(two + [c], f) == sorted[..k] + [c] + sorted[k..]
  {
    hide FilterMessages, Insert;
    FilterAppend(two, c, f);
    InsertSplices(sorted, c);
    var p := Place(sorted, c);
    assert p > 0 ==> sorted[p - 1].createdAt >= c.createdAt;
    assert p < |sorted| ==> sorted[p].createdAt < c.createdAt;
  }

  lemma ThreeEvents(w: Walk, c: Create, f: Filter, limit: nat)
    requires limit >= 1
    ensures Run(w, [NextPage, Write(c), NextPage], f, limit) ==
            Turn(Step(Turn(w, f, limit), Write(c), f, limit), f, limit)
  {
    hide Turn;
    var evs := [NextPage, Write(c), NextPage];
    assert evs[..2] == [NextPage, Write(c)] && evs[..2][..1] == [NextPage] && [NextPage][..0] == [];
    assert Run(w, [NextPage], f, limit) == Turn(w, f, limit);
  }

  /** A create takes over the id of a message that is to come: the walk ends without it. */
  lemma ReusedIdIsMissed()
    ensures var st := Store([Text("1", 10), Text("2", 20)], map[]);
            var r := Run(Start(st), [NextPage, Write(TakeOver("1", 30)), NextPage], InConversation(), 1);
            r.done && r.items == [Text("2", 20)] && Matches(InConversation(), Text("1", 10))
  {
    hide FilterMessages, Run, Turn, FindIndex;
    var f, one, two, moved := InConversation(), Text("1", 10), Text("2", 20), Text("1", 30);
    var c := TakeOver("1", 30);
    assert "1"[0] != "2"[0];
    var st, st' := Store([one, two], map[]), Store([moved, two], map[]);
    ThreeEvents(Start(st), c, f, 1);
    ListingOfTwo(one, two, f);
    TurnFromListing(Start(st), f, 1, [two, one], 0);
    var w := Walk(st, [two], Some("2"), 1, false);
    assert [] + [two, one][0..1] == [two];
    assert Turn(Start(st), f, 1) == w;
    PutAt(st.messages, moved);
    FindIndexFinds(st.messages, "1");
    assert [one, two][0].id == "1";
    assert Put(st.messages, moved) == [moved, two];
    ListingOfTwo(moved, two, f);
    TurnFromListing(w.(store := st'), f, 1, [moved, two], 2);
    assert [two] + [] == [two];
  }

  lemma FirstPageOfThree(one: Message, two: Message, three: Message)
    requires one == Text("1", 10) && two == Text("2", 20) && three == Text("3", 30)
    ensures var st := Store([one, two, three], map[]);
            Turn(Start(st), InConversation(), 2) == Walk(st, [three, two], Some("2"), 1, false)
  {
    hide FilterMessages, Turn;
    var f := InConversation();
    assert "1"[0] != "2"[0] && "2"[0] != "3"[0] && "1"[0] != "3"[0];
    ListingOfTwo(one, two, f);
    ListingOfThird([one, two], three, f, [two, one], 0);
    assert [one, two] + [three] == [one, two, three] && [] + [three] + [two, one] == [three, two, one];
    TurnFromListing(Start(Store([one, two, three], map[])), f, 2, [three, two, one], 0);
    assert [] + [three, two, one][0..2] == [three, two];
  }

  lemma SecondPageOfThree(one: Message, moved: Message, three: Message, w: Walk)
    requires one == Text("1", 10) && moved == Text("2", 40) && three == Text("3", 30)
    requires w.store.messages == [one, moved, three] && w.cursor == Some("2") && !w.done
    ensures Turn(w, InConversation(), 2).items == w.items + [three, one]
  {
    hide FilterMessages, Turn;
    var f := InConversation();
    assert "1"[0] != "2"[0] && "2"[0] != "3"[0] && "1"[0] != "3"[0];
    ListingOfTwo(one, moved, f);
    ListingOfThird([one, moved], three, f, [moved, one], 1);
    assert [one, moved] + [three] == [one, moved, three];
    assert [moved, one][..1] + [three] + [moved, one][1..] == [moved, three, one];
    TurnFromListing(w, f, 2, [moved, three, one], 1);
    assert [moved, three, one][1..3] == [three, one];
  }

  /** A create takes over the id of the cursor: the walk returns message 3 a second time. */
  lemma ReusedCursorRepeats()
    ensures var st := Store([Text("1", 10), Text("2", 20), Text("3", 30)], map[]);
            var r := Run(Start(st), [NextPage, Write(TakeOver("2", 40)), NextPage], InConversation(), 2);
            r.items == [Text("3", 30), Text("2", 20), Text("3", 30), Text("1", 10)]
  {
    hide FilterMessages, Run, Turn, FindIndex;
    var f, one, two, three, moved := InConversation(), Text("1", 10), Text("2", 20), Text("3", 30), Text("2", 40);
    var c := TakeOver("2", 40);
    var st := Store([one, two, three], map[]);
    ThreeEvents(Start(st), c, f, 2);
    FirstPageOfThree(one, two, three);
    var w := Walk(st, [three, two], Some("2"), 1, false);
    FindIndexFinds(st.messages, "2");
    assert st.messages[1].id == "2" && "1"[0] != "2"[0];
    PutAt(st.messages, moved);
    assert Put(st.messages, moved) == [one, moved, three];
    SecondPageOfThree(one, moved, three, Step(w, Write(c), f, 2));
    assert [three, two] + [three, one] == [three, two, three, one];
  }
}
