# Verified models of the messaging platform's stateful cores

Each Dafny module models one component that keeps state or steps through a protocol, step by step as its code does, and
proves what the component promises over whole runs. Networks, clocks, Redis, SQL tables and cryptography are abstract:
a value the caller passes in, a map, a history of events, or an uninterpreted function.

How the files are laid out:

- `Ratchet` models the Double Ratchet session of the crypto package: chains and the bounded map of skipped keys.
  `RatchetRun` runs two peers over a network that loses, repeats and reorders envelopes.
- `ParticipantCache` models the versioned participant lists, first one call at a time, then any number of processes
  interleaved at every await.
- `MessagePages`, `MessageStore` and `PageWalk` model the in-memory listing, the idempotent create, and a reader that
  follows cursors while others create. `MessageSql` models the generated SQL as a syntax tree with positional
  parameters, evaluates it with NULL and three-valued logic, and compares it with the in-memory page.
- `Connection` and `Hub` model the WebSocket transport: one connection's send queue, and the hub's numbered logs,
  snapshots, resume and batched replay.
- `MemoryCache`, `CircuitBreaker`, `StorageClient` and `StorageRun` model the storage package: the LRU cache, the breaker
  with both ways of retrying, and the read-through cache, first sequentially, then at every await.
- `Outbox` and `OutboxRun` model the transactional outbox: one dispatcher's tick, then any number of them with crashes,
  lost and late publishes and updates. `Consumer` models the other end of the stream, and `ConsumerRepeats` says over whole
  runs when it broadcasts a message more than once.
- `RateLimiter` models the two fixed-window limiters.
- `Common` holds an option type, a little arithmetic, and what joining names by a colon can confuse.

Every object whose methods update it is a class; its methods are proved against step functions on values, and the
theorems are about those functions. A run is a sequence of events, and a theorem about runs holds for every sequence.
Where calls interleave at their awaits, lemmas say that a call which nothing interrupts does what the method does
(`GetAtOnce`, `ReadAtOnce`, `TickAtOnce`, `LoopIsTurns`).

Where a promise is not kept by the code as it stands, the model keeps the code and a lemma shows an input that breaks the
promise or says exactly when it holds:

- The first invalidation of a conversation raises a missing counter to 1, which reads the same as missing, so the old
  list is served again; in any run exactly then (`FirstInvalidateHidesNothing`).
- A create that takes over the id of a stored message can make a walk miss a message or return one twice
  (`ReusedIdIsMissed`, `ReusedCursorRepeats`); `WriteLosesIff`, `WriteRepeatsIff` and `SpoiledByTakeover` say exactly
  which creates do, and `RunLosesIff`, `RunRepeatsIff` and `ReturnedIffNotSpoilt` carry that over whole runs.
- SQL and memory list differently for an empty string in the filter and for messages of one instant
  (`EmptyStringDiffers`, `TiesDiffer`); `SqlListIffMemoryList`, `PagesAgreeIff` and `CountsAgreeIff` say exactly when
  listings, all pages and counts agree, and `SqlPageIffMemoryPage` which cursors from elsewhere do no harm.
- The LRU cache may hold more than maxItems entries once entries have expired (`OverflowsAfterExpiry`); `RunFitsIff` says
  exactly when, `SizeBound` by how much, and `EvictsLeastRecentlyUsedIff` when a set still evicts as an LRU cache should.
- Changing a record never purges it from the cache (`RecordReadsIgnoreChanges`), although
  packages/storage/docs/architecture.md:88-89 says that writes and deletes do. The same document says at line 81 that
  bypassCache always forces adapter access; a cache_only read ignores that option (`CacheOnlyIgnoresBypass`).
- Two namespaces share cache keys exactly when one of them, followed by a colon, begins the other (`KeysSharedIff`), and
  exactly then may a blob read answer with another blob (`AlwaysExactIffSeparate`).
- A row is stranded for ever exactly when its dispatcher crashes, or is cut off by a timeout before the update meant for
  the row (`StrandedIffDropped`, `CrashStrands`); every other row settles (`SettledUnlessDropped`).
- After a failed broadcast the next event of the conversation is broadcast once for every queued item
  (`OnceIffQueueWasEmpty`, `FailureRepeatsBroadcast`); `ConsumerRepeats.RunRepeatsIff` says exactly in which
  runs a message goes out more than once.
- A resume with another connection's token drops what the new connection had logged before it, and may number frames anew
  (`ForeignResumeRenumbers`, `FrameForgotten`).

## Model

| member | source | states |
|---|---|---|
| RatchetRun.FittingRunDelivers | packages/crypto/src/sessions/ratchet.ts:104-147 | After any run of loss, duplication and reordering in which what is pending fits maxSkipped, the first delivery of an envelope opens to its own plaintext and every later one is refused as a replay with the peer unchanged. |
| RatchetRun.EveryDelivery | packages/crypto/src/sessions/ratchet.ts:104-147 | With no restriction on the run: a delivery opens, is a replay, or hits the limit, decided by the counter, whether the key is still stored, and the limit, and the counters and the set of opened messages move accordingly. |
| RatchetRun.EveryRunKeepsMaps | packages/crypto/src/sessions/ratchet.ts:35-58 | In every run the skipped map has at most maxSkipped entries in increasing counter order, each with the sender's own key, and stored are exactly the unopened messages passed over that are newer than everything the run has evicted. |
| RatchetRun.MissingIsLost | packages/crypto/src/sessions/ratchet.ts:35-48 | In every run, an unopened message that was passed over has no stored key if and only if a walk of the run shifted its key out of the map or had no room for it. |
| RatchetRun.NoDhBranch | packages/crypto/src/sessions/ratchet.ts:115-124 | No honest run ever replaces a peer's root key, key pair, remote key or limit, which is what the Diffie-Hellman branch would do. |
| RatchetRun.EvictsNothingIffFits | packages/crypto/src/sessions/ratchet.ts:40-45 | No step of a run evicts the key of an unopened message if and only if at every delivery what is pending, with the gap it opens, is within the limit. |
| RatchetRun.RunKeepsInv | packages/crypto/src/sessions/ratchet.ts:82-147 | In every run both chains are as far along as the counters say and every sent envelope is sealed under the key of its number. |
| RatchetRun.StoredCount | packages/crypto/src/sessions/ratchet.ts:35-48 | If nothing pending has been evicted, the map holds as many keys as there are unopened messages below the counter. |
| RatchetRun.EnvelopesSealedOnThePath | packages/crypto/src/sessions/ratchet.ts:82-102 | In every run the n-th envelope of either peer is sealed under place 2n - 1 of the path that repeated expansion makes from the handshake's chain key; as long as that path does not come back, no peer seals two envelopes under one key: two envelopes share a key if and only if they have the same number. |
| RatchetRun.EveryEnvelopeWasSent | packages/crypto/src/sessions/ratchet.ts:82-92 | In every run each envelope is the record of one send of its peer: that plaintext, the next counter, the peer's own public key, and the receive counter the peer had at that moment. |
| Ratchet.KeysDifferIffPathDoes | packages/crypto/src/sessions/ratchet.ts:18-22 | The message keys and chain keys of n messages all differ from each other if and only if the first 2n places of the path do. |
| Ratchet.ChainIsOnePath | packages/crypto/src/sessions/ratchet.ts:18-22 | Message keys are the odd places and chain keys the even places of one path, each place expanded from the one before. |
| Ratchet.GrowingNeverReturns | packages/crypto/src/sessions/ratchet.ts:18-22 | An expansion that always lengthens its input never comes back to an earlier key. |
| Ratchet.DhDelivery | packages/crypto/src/sessions/ratchet.ts:115-147 | An envelope that runs ahead under a new public key opens when it was sealed under its number's key of the receive chain of this root key and agreement; the session then has the new key pair, a fresh send counter, and the keys passed over, newest first to stay. |
| Ratchet.HeaderAloneMoves | packages/crypto/src/sessions/ratchet.ts:104-147 | An envelope moves the session by its header alone, whether or not it opens; it opens to just what the key of its number makes of it, stored or on the chain, and is rejected when that key makes nothing of it. |
| Ratchet.DhKeysAreBound | packages/crypto/src/sessions/ratchet.ts:10-16 | With derivations that never collide, the root, send and receive keys of a Diffie-Hellman branch differ from each other and from those of any branch with another root key or agreement. |
| Ratchet.DhForgets | packages/crypto/src/sessions/ratchet.ts:60-68 | What that branch makes depends on nothing of the old session but its root key and limit. |
| Ratchet.ChainAfterAdds | packages/crypto/src/sessions/ratchet.ts:18-22 | Walking a chain m steps and then n is walking it m + n, so a skipped key is the sender's key of that number. |
| Ratchet.StoreExtendsKept | packages/crypto/src/sessions/ratchet.ts:35-48 | Storing one key after another keeps exactly the newest ones that the limit allows. |
| Ratchet.SkipViewStep | packages/crypto/src/sessions/ratchet.ts:126-135 | One turn of the walk takes the state after n skipped keys to the state after n + 1. |
| Ratchet.DecryptStaysBehindCounter | packages/crypto/src/sessions/ratchet.ts:104-147 | No call leaves a stored key of the current remote key above the receive counter, so a walk never overwrites an entry. |
| Ratchet.Initialize | packages/crypto/src/sessions/ratchet.ts:70-80 | A new session has both chains at the handshake's chain key and counter 0, an empty map, and shares no mutable part with anything. |
| Ratchet.Encrypt | packages/crypto/src/sessions/ratchet.ts:82-102 | The caller's session is left as it was; the returned one differs only in a fresh send chain, one step on, and the envelope carries the next counter. |
| Ratchet.Decrypt | packages/crypto/src/sessions/ratchet.ts:104-147 | The outcome and the new session as a function of the old one and the envelope, and what becomes of the caller's own session: it is the very one returned, or, after the Diffie-Hellman branch, has the shared map emptied and refilled under it. |
| Ratchet.SkipTo | packages/crypto/src/sessions/ratchet.ts:126-135 | The loop as one step: all keys up to the target stored within the limit, or, with no room at all, one key consumed and the limit reported. |
| Ratchet.DeriveMessageKey | packages/crypto/src/sessions/ratchet.ts:18-22 | The chain is advanced in place by one message and the key of that message is returned. |
| Ratchet.StoreSkipped | packages/crypto/src/sessions/ratchet.ts:35-48 | The key is stored, the oldest entry giving way at the limit; with a limit of 0 or less nothing changes and the store fails. |
| Ratchet.TrySkipped | packages/crypto/src/sessions/ratchet.ts:50-58 | A stored key is returned once and taken out; an unknown one changes nothing. |
| ParticipantCache.EveryHitWasGiven | services/messaging/src/app/stream/participantCache.ts:84-183 | For every interleaving, crash, expiry and lost, late or repeated message: a list that a get returns was given to a set that read the very version this get read, and between those two reads lies no increment but the conversation's first. |
| ParticipantCache.RunKeepsInv | services/messaging/src/app/stream/participantCache.ts:84-183 | In every run each counter is the number of its increments, and every list in Redis, in any process's memory or in any call's hands was given to a set that read its version. |
| ParticipantCache.EveryGetHitsIff | services/messaging/src/app/stream/participantCache.ts:84-116 | In every run a get that has ended returned a list if and only if that list lay ready for it: in its process's memory under the version it had read when it looked there, or else in Redis under that version's key when Redis looked. |
| ParticipantCache.RedisHoldsLastWritten | services/messaging/src/app/stream/participantCache.ts:121-127 | In every run Redis holds for each conversation and version the list written last, unless it has expired since. |
| ParticipantCache.MemoryHoldsLastCopy | services/messaging/src/app/stream/participantCache.ts:90-167 | In every run a process holds the copy it took last, unless its own invalidate, a message with a higher version or a stop has dropped it since. |
| ParticipantCache.HitIff | services/messaging/src/app/stream/participantCache.ts:84-116 | A get hits if and only if memory holds a copy of the version read or Redis a list under its key; the copy is served first, what Redis serves is copied, and the next get needs no Redis list. |
| ParticipantCache.SetThenGet | services/messaging/src/app/stream/participantCache.ts:84-136 | After a set the same process gets the list at any version, and any other gets it if and only if it does not hold a different copy of that very version. |
| ParticipantCache.GetAtOnce | services/messaging/src/app/stream/participantCache.ts:84-116 | A get of the interleaved machine that nothing interrupts answers and remembers what the method does. |
| ParticipantCache.SetAtOnce | services/messaging/src/app/stream/participantCache.ts:121-136 | So does a set. |
| ParticipantCache.InvalidateAtOnce | services/messaging/src/app/stream/participantCache.ts:142-154 | So does an invalidate. |
| ParticipantCache.InvalidateHidesIffCounterExisted | services/messaging/src/app/stream/participantCache.ts:142-183 | Set, invalidate, get: the get misses exactly when the conversation's counter existed before the invalidate; otherwise it returns the old list. |
| ParticipantCache.FirstInvalidateHidesNothing | services/messaging/src/app/stream/participantCache.ts:142-183 | The same after any run of any processes: it misses if and only if the conversation had been invalidated before. |
| ParticipantCache.RunCountersLead | services/messaging/src/app/stream/participantCache.ts:172-184 | In every run no list is stored above its conversation's counter. |
| ParticipantCache.SameVersionBetween | services/messaging/src/app/stream/participantCache.ts:172-184 | If two reads around an increment see one version, that increment was the conversation's first. |
| ParticipantCache.CacheKeyInjective | services/messaging/src/app/stream/participantCache.ts:189-191 | Whatever characters conversation ids hold, no two (conversation, version) pairs share a key. |
| ParticipantCache.KeysApart | services/messaging/src/app/stream/participantCache.ts:189-198 | A list never shares a key with a counter. |
| ParticipantCache.ParticipantCache.Get | services/messaging/src/app/stream/participantCache.ts:84-116 | What an uninterrupted get answers and remembers: memory first, then Redis, and an empty list for a miss. |
| ParticipantCache.ParticipantCache.Set | services/messaging/src/app/stream/participantCache.ts:121-136 | The list is stored in Redis and in memory under the version read, and nothing else changes. |
| ParticipantCache.ParticipantCache.Invalidate | services/messaging/src/app/stream/participantCache.ts:142-154 | The counter rises, this process forgets the conversation, and the new version is published. |
| ParticipantCache.ParticipantCache.HandleInvalidation | services/messaging/src/app/stream/participantCache.ts:159-167 | A message removes an older copy only. |
| PageWalk.RunRepeatsIff | services/messaging/src/ports/messages/inMemory/messagesReadAdapter.ts:38-94 | For every run of pages and creates, whatever ids these use: the walk never comes to a state in which something returned is to come again, if and only if none of its creates repeats. |
| PageWalk.RunLosesIff | services/messaging/src/ports/messages/inMemory/messagesReadAdapter.ts:38-94 | And it never comes to a state in which a wanted message is neither returned nor to come, if and only if none of its creates loses one. |
| PageWalk.WriteRepeatsIff | services/messaging/src/ports/messages/inMemory/messagesWriteAdapter.ts:30-60 | Exactly which single creates bring something back: those that take over the cursor's id while a returned message is then behind it, or bring a returned id back behind the cursor. |
| PageWalk.WriteLosesIff | services/messaging/src/ports/messages/inMemory/messagesWriteAdapter.ts:30-60 | Exactly which single creates lose a wanted message: those that take its id over while it is to come, or bring a lost cursor back behind it. |
| PageWalk.SpoiledByTakeover | services/messaging/src/ports/messages/inMemory/messagesWriteAdapter.ts:30-60 | With the clock moved on and the cursor listed: spoiled if and only if the create's id is that of a wanted message to come, or the cursor's while another returned message is listed. |
| PageWalk.ReturnedIffNotSpoilt | services/messaging/src/ports/messages/inMemory/messagesReadAdapter.ts:38-94 | Whatever creates do, in the same millisecond too: a walk that has ended has returned a matching message of its start if and only if, of the creates that spoilt or restored the message's chance, the last one did not spoil it. |
| PageWalk.ReturnedIffNotTakenOver | services/messaging/src/ports/messages/inMemory/messagesReadAdapter.ts:38-94 | With creates later than the message that comes down to: no create took the message's id over before it was returned. |
| PageWalk.OwnIdsKeepPromise | services/messaging/src/ports/messages/inMemory/messagesReadAdapter.ts:38-94 | While creates are repeats or have ids of their own, nothing is returned twice and every wanted message is returned or to come. |
| PageWalk.NoRepeatMeansQuietEnd | services/messaging/src/ports/messages/inMemory/messagesReadAdapter.ts:38-94 | A state is free of repeats if and only if reading on undisturbed to the end returns no id twice. |
| PageWalk.NoLossMeansQuietEnd | services/messaging/src/ports/messages/inMemory/messagesReadAdapter.ts:38-94 | A state has lost nothing if and only if reading on undisturbed to the end returns every wanted message. |
| PageWalk.EverythingReturnedMatches | services/messaging/src/ports/messages/inMemory/messagesReadAdapter.ts:38-76 | Nothing is ever returned that does not match the filter. |
| PageWalk.WalkEnds | services/messaging/src/ports/messages/inMemory/messagesReadAdapter.ts:86-94 | A walk without repeats is over once its pages have room for more messages than are stored. |
| PageWalk.WalkEndsWhileOthersWrite | services/messaging/src/ports/messages/inMemory/messagesReadAdapter.ts:86-94 | As long as later creates come after the newest message of the first page and leave the cursor's id alone, a walk needs no more pages than were left then, however much is created. |
| PageWalk.QuietWalkIsList | services/messaging/src/ports/messages/inMemory/messagesReadAdapter.ts:30-44 | With nobody writing, the pages put together are list(filter), and they end. |
| MessageStore.ListingOrder | services/messaging/src/ports/messages/inMemory/messagesReadAdapter.ts:78-81 | A listing is in the order of creation time, newest first, and of storage within an instant. |
| PageWalk.ReusedIdIsMissed | services/messaging/src/ports/messages/inMemory/messagesWriteAdapter.ts:37-53 | A concrete walk that misses a message because a create took over its id. |
| PageWalk.ReusedCursorRepeats | services/messaging/src/ports/messages/inMemory/messagesWriteAdapter.ts:37-53 | A concrete walk that returns a message twice because a create took over the cursor's id. |
| MessagePages.SortIsTheStableSort | services/messaging/src/ports/messages/inMemory/messagesReadAdapter.ts:78-81 | The sorted listing is the only newest-first order that keeps the messages of each instant as they were. |
| MessagePages.SortSorts | services/messaging/src/ports/messages/inMemory/messagesReadAdapter.ts:78-81 | Newest first, a permutation, and stable. |
| MessagePages.NarrowedIsOnePass | services/messaging/src/ports/messages/inMemory/messagesReadAdapter.ts:48-74 | The seven filter passes are one pass with the conjunction of the active conditions; empty strings switch a condition off. |
| MessagePages.FilterMeansMatching | services/messaging/src/ports/messages/inMemory/messagesReadAdapter.ts:48-76 | list(filter) holds exactly the stored messages that match. |
| MessagePages.ThrowsIffNoRoom | services/messaging/src/ports/messages/inMemory/messagesReadAdapter.ts:38-44 | A page of any listing and cursor throws if and only if its limit is 0. |
| MessageStore.RepeatedCreateIsIdempotent | services/messaging/src/ports/messages/inMemory/messagesWriteAdapter.ts:30-60 | Whatever was created in between, creating again with the same sender and key answers the first id and adds nothing. |
| MessageStore.CreatedIsListed | services/messaging/src/ports/messages/inMemory/messagesWriteAdapter.ts:30-60 | A create that is no repeat answers the caller's id or a generated one and stores under it just one message, with its own conversation, sender, kind, content and the present time and status sent, listed by a filter if and only if the filter asks for nothing else. |
| MessageStore.AnsweredIdIsStored | services/messaging/src/ports/messages/inMemory/messagesWriteAdapter.ts:31-60 | After any creates, the id a create answers is that of a stored message. |
| MessageStore.ClientKeysSharedIff | services/messaging/src/ports/messages/inMemory/store.ts:14 | Two senders have client keys in common if and only if the id of one, followed by a colon, begins that of the other. |
| MessageStore.CreatedIsWellFormed | services/messaging/src/ports/messages/inMemory/messagesWriteAdapter.ts:30-60 | Whatever id it uses, a create keeps ids distinct and not empty. |
| MessageStore.KeptUnlessTakenOver | services/messaging/src/ports/messages/inMemory/messagesWriteAdapter.ts:30-60 | A stored message stays if and only if the create is a repeat, has another id, or makes the very same message. |
| MessageStore.MessagesWriteAdapter.Create | services/messaging/src/ports/messages/inMemory/messagesWriteAdapter.ts:30-60 | The whole new store and the id answered, for a repeated client key, a new message and a reused id. |
| MessageSql.SqlListIffMemoryList | services/messaging/src/ports/messages/postgres/messagesReadAdapter.ts:25-30 | For any table and filter, the query of list may answer with the in-memory listing if and only if, of matching rows of one instant, none is stored before one with a greater id, and every matching message meets the filter's empty strings. |
| MessageSql.OrderedIff | services/messaging/src/ports/messages/postgres/messagesReadAdapter.ts:85-86 | An in-memory listing is in the order by created_at and id, both descending, if and only if the rows of each instant were stored so. |
| MessageSql.PagesAgreeIff | services/messaging/src/ports/messages/postgres/messagesReadAdapter.ts:37-131 | Under the same condition, and only then, every page query for a listed cursor, or none, and any limit has the in-memory page as its one answer. |
| MessageSql.SqlPageIffMemoryPage | services/messaging/src/ports/messages/postgres/messagesReadAdapter.ts:37-131 | Where listings agree, and for any cursor: the SQL page equals the in-memory page, items and nextCursor, if and only if there is no cursor, or nothing is listed, or the cursor is listed, or everything listed is behind its row. |
| MessageSql.DistinctTimesAgree | services/messaging/src/ports/messages/postgres/messagesReadAdapter.ts:81-91 | Distinct instants and no empty filter string are enough for the listing and for every page. |
| MessageSql.NextCursorFits | services/messaging/src/ports/messages/postgres/messagesReadAdapter.ts:37-47 | A nextCursor meets the cursor condition on the later table it is used on, after any creates, unless one that does not match took its id over. |
| MessageSql.ListedCursorStays | services/messaging/src/ports/messages/postgres/messagesReadAdapter.ts:121-125 | A create unlists a listed cursor if and only if it takes its id over with a message that does not match. |
| MessageSql.PageQueryMeans | services/messaging/src/ports/messages/postgres/messagesReadAdapter.ts:53-131 | Evaluated with its positional parameters, the page query keeps exactly the matching rows, empty strings taken literally, behind the cursor row, and asks for the given limit. |
| MessageSql.PageRows | services/messaging/src/ports/messages/postgres/messagesReadAdapter.ts:81-91 | Where listings agree, the page query has exactly one answer: the part of list(filter) behind the cursor row, cut to the limit. |
| MessageSql.OrderUnique | services/messaging/src/ports/messages/postgres/messagesReadAdapter.ts:85-86 | Ordering by time and then id leaves rows of distinct ids no choice. |
| MessageSql.CountsAgreeIff | services/messaging/src/ports/messages/postgres/messagesReadAdapter.ts:31-35 | count never exceeds the length of the in-memory listing, and equals it if and only if every matching message meets the filter's empty strings. |
| MessageSql.EmptyStringDiffers | services/messaging/src/ports/messages/postgres/messagesReadAdapter.ts:99-108 | A concrete filter with an empty string that lists a message in memory and not in SQL. |
| MessageSql.TiesDiffer | services/messaging/src/ports/messages/postgres/messagesReadAdapter.ts:81-88 | Two concrete messages of one instant that memory and SQL list in different orders. |
| MessageSql.QueryBuilder.Build | services/messaging/src/ports/messages/postgres/messagesReadAdapter.ts:53-91 | The helpers that push onto two arrays build the syntax tree whose meaning is proved above. |
| Connection.HandedInAcceptanceOrder | packages/transport/src/connection.ts:63-108 | In every interleaving what the socket was handed is a prefix of what was accepted, none skipped or repeated, the queue stays within its limit, and when no loop runs and nothing failed all of it has been handed over. |
| Connection.OneLoopAtATime | packages/transport/src/connection.ts:78-108 | At most one flush loop is under way, and the sending flag says whether one is. |
| Connection.SilentAfterFailure | packages/transport/src/connection.ts:126-150 | After the first recorded failure nothing more is handed over or accepted, whatever happens; no loop begins, and the one under way ends as soon as it goes on. |
| Connection.SuccessfulSendsDrain | packages/transport/src/connection.ts:81-108 | A loop goes on after every send that succeeds, awaited or not: it hands the whole queue over in order, and ends. |
| Connection.LoopDrains | packages/transport/src/connection.ts:81-108 | With sends that return, the code's own loop does that in one go. |
| Connection.ClosedWith | packages/transport/src/connection.ts:63-150 | In every run the connection is failed if and only if some send was reported to have failed; it is closed with 1011 once if so, with 1013 once for each payload that found the queue full, and with nothing else. |
| Connection.OneSendAtATime | packages/transport/src/connection.ts:84-93 | In every run, while a send is awaited nothing else is handed to the socket, whatever is enqueued, flushed or reported meanwhile. |
| Connection.LoopIsTurns | packages/transport/src/connection.ts:81-107 | The code's loop is a run of the machine, one turn for each send. |
| Connection.Connection.Enqueue | packages/transport/src/connection.ts:63-76 | Which payloads are accepted, and the state after the loop that an accepted one may start. |
| Connection.Connection.RunLoop | packages/transport/src/connection.ts:81-107 | The loop as a function of the queue and of how each send goes. |
| Connection.Connection.Resume | packages/transport/src/connection.ts:90-107 | What follows an awaited send: the failure is recorded or the loop goes on. |
| Connection.Connection.HandleSendFailure | packages/transport/src/connection.ts:126-150 | The first failure empties the queue and closes the socket; later ones do nothing. |
| Hub.ResumeReplaysTheGap | packages/transport/src/websocketHub/resume.ts:31-80 | Anywhere in any run, a resume that goes through replays exactly the frames after the client's last one, in order, if and only if the log still reaches back that far, and otherwise the whole log. |
| Hub.ResumeGoesThroughIff | packages/transport/src/websocketHub/resume.ts:31-78 | A resume goes through if and only if the token is the connection's own, expired or not, or a stored, unexpired one of the same account and device; every other closes with 1008 and its reason, and only an expired token is dropped; what goes through rotates the token and is acknowledged with it. |
| Hub.ResumeStaysWithItsOwner | packages/transport/src/websocketHub/resume.ts:50-61 | In every run what a resume with another connection's token takes over is what a connection object of the same account and device, holding that very token, had logged at some earlier moment. |
| Hub.OnlyOwnFrames | packages/transport/src/websocketHub/resume.ts:50-61 | In every run whatever a connection's line has logged was broadcast while a connection of the same account and device was registered. |
| Hub.BroadcastReachesRegistered | packages/transport/src/websocketHub/state.ts:57-62 | In every run a broadcast is logged by the connection that each client registered last and has not closed, and by no other. |
| Hub.ReconnectTakesOver | packages/transport/src/websocketHub/resume.ts:31-70 | In every run, reading a stored token and resuming with it in time moves its line to the owner's new connection under a new token, and the old token is gone from the store. |
| Hub.BroadcastsReach | packages/transport/src/websocketHub/state.ts:76-91 | Of any sequence of broadcasts a connection is sent, in order, exactly those that meet no overload, and is closed with 1013 once for each of the others. |
| Hub.BroadcastsAreLogged | packages/transport/src/websocketHub/state.ts:161-165 | Every one of them is logged under the next number, sent or not. |
| Hub.EveryBroadcastIsPersisted | packages/transport/src/websocketHub/state.ts:66-74 | And after each the connection's snapshot is handed to the store. |
| Hub.LogsAreTails | packages/transport/src/websocketHub/state.ts:156-169 | In every run each connection's log and each stored snapshot's is the numbered tail of what was logged: consecutive, ending at the server sequence, of length min(limit, sequence). |
| Hub.RunKeepsInv | packages/transport/src/websocketHub/state.ts:66-74 | The same of snapshots on their way to the store and of those a resume has read, however late they are written or used. |
| Hub.WebSocketHub.Replay | packages/transport/src/websocketHub/resume.ts:80-123 | The batched loop is one pass: if hand-over k+1 is refused, exactly the first k frames were handed over, the socket was closed once and nothing later was tried, and the batches are as many as the size requires. |
| Hub.WebSocketHub.HandleResume | packages/transport/src/websocketHub/resume.ts:30-125 | The whole handler: a refusal closes with its code and sends nothing; otherwise the acknowledgement is sent or the socket closed as overloaded, the frames follow up to the first refusal, and one snapshot of the moved connection is handed over. |
| Hub.WebSocketHub.ReplayBatch | packages/transport/src/websocketHub/resume.ts:94-103 | One batch stops at the first refusal. |
| Hub.BatchesIsCeiling | packages/transport/src/websocketHub/resume.ts:81 | The reported number of batches is the quotient rounded up, counted batch by batch. |
| Hub.WebSocketHub.Broadcast | packages/transport/src/websocketHub/state.ts:156-169 | Every registered connection logs the payload once under its own next number, sends it or is closed as overloaded, and hands its snapshot to the store; the registry stays. |
| Hub.WebSocketHub.Register | packages/transport/src/websocketHub/registerClient.ts:7-62 | Without authentication or over the connection limit nothing changes and the socket is closed; otherwise a connection object of its own takes over the client id, with an empty log and its first snapshot. |
| Hub.WebSocketHub.Close | packages/transport/src/websocketHub/registerClient.ts:64-70 | A close removes that client and no other, and hands over the last snapshot. |
| Hub.HubConnection.Resume | packages/transport/src/websocketHub/resume.ts:31-80 | Each token branch up to the acknowledgement: refusal leaves the line unchanged and closes with the right code; success takes over the snapshot, rotates the token, sends the acknowledgement with the new token unless the socket is overloaded, and picks the frames; and whether the store is told to drop the token. |
| Hub.ForeignResumeRenumbers | packages/transport/src/websocketHub/resume.ts:58-60 | In every run a resume with another connection's token replaces what this connection logged itself, and its next frame gets a number this connection has already given if and only if the stored line was behind its own. |
| Hub.FrameForgotten | packages/transport/src/websocketHub/resume.ts:58-60 | A concrete run in which a frame logged before the resume is in no log afterwards and its number is given again. |
| Hub.HubConnection.LogFrame | packages/transport/src/websocketHub/state.ts:161-165 | One frame is numbered and logged, the oldest giving way at the limit. |
| Hub.HubConnection.SafeSend | packages/transport/src/websocketHub/state.ts:76-91 | An overloaded socket is closed with 1013 and gets nothing; any other gets the payload. |
| MemoryCache.SizeBound | packages/storage/src/cache/memoryCache.ts:32-65 | After any run with E expiry removals, max(entries, maxItems) plus the keys left over in the order is at most maxItems + E; so without expiry removals the size limit holds. |
| MemoryCache.RunFitsIff | packages/storage/src/cache/memoryCache.ts:43-53 | A run stays within maxItems all the way if and only if no set of it, at capacity and for a new key, drops a key that the map has already lost. |
| MemoryCache.OneStepOverfillsIff | packages/storage/src/cache/memoryCache.ts:43-53 | From a cache within its limit, one operation exceeds it if and only if it is such a set. |
| MemoryCache.OverflowsAfterExpiry | packages/storage/src/cache/memoryCache.ts:35-47 | A concrete run that leaves two entries in a cache of one. |
| MemoryCache.HitIsLatestSet | packages/storage/src/cache/memoryCache.ts:32-53 | A hit returns the value of the key's latest set, not deleted since and not past its expiry. |
| MemoryCache.HitsIffStanding | packages/storage/src/cache/memoryCache.ts:32-53 | In every run a get answers with the latest set of its key that was neither deleted, nor dropped to make room, nor found expired, as long as that is within its own time to live, or else the cache's; and misses if and only if there is none. |
| MemoryCache.EvictsLeastRecentlyUsedIff | packages/storage/src/cache/memoryCache.ts:43-53 | In every run, a set of a new key at capacity takes out exactly the stored key used longest ago if and only if the map still holds the head of the order array; otherwise it takes out nothing, as does any other set. |
| MemoryCache.EvictsLeastRecentlyUsed | packages/storage/src/cache/memoryCache.ts:43-53 | So without expiry removals every set of a new key at capacity takes out the stored key used longest ago. |
| MemoryCache.RunSortsByLastUse | packages/storage/src/cache/memoryCache.ts:61-65 | In every run the order array is sorted by last use. |
| MemoryCache.MemoryCache.Get | packages/storage/src/cache/memoryCache.ts:32-41 | The answer and the new map and order for a hit, a miss and an expired entry. |
| MemoryCache.MemoryCache.Set | packages/storage/src/cache/memoryCache.ts:43-53 | The new map and order, eviction included. |
| MemoryCache.MemoryCache.Delete | packages/storage/src/cache/memoryCache.ts:55-59 | The key leaves both map and order. |
| CircuitBreaker.ClosedIffBelowThreshold | packages/storage/src/utils/circuitBreaker.ts:25-60 | However checks and late results of many callers interleave, the breaker is closed exactly while its failures are below the threshold. |
| CircuitBreaker.RefusedIff | packages/storage/src/utils/circuitBreaker.ts:25-60 | After any run a call is refused if and only if, since the last recovery, the breaker was tripped, has not been probed, and no more than resetTimeoutMs has passed since the failure that last tripped it. |
| CircuitBreaker.Recovery | packages/storage/src/utils/circuitBreaker.ts:25-60 | Once the timeout is over the next check is let through; and while no failure comes in, the breaker is closed, with no failure counted, if and only if at least one success has come in since and successThreshold of them since the last recovery. |
| CircuitBreaker.StateFromEvents | packages/storage/src/utils/circuitBreaker.ts:25-60 | After any run the state is what the events since the last recovery make of it: failures, successes, phase, and the time of the next attempt. |
| CircuitBreaker.CallsAreEvents | packages/storage/src/utils/circuitBreaker.ts:25-60 | Guarded calls are such a run: one check each, and one result for each that was let through. |
| CircuitBreaker.FailedProbeReopens | packages/storage/src/utils/circuitBreaker.ts:44-54 | So one failed half-open probe re-opens it for a whole timeout. |
| CircuitBreaker.FailingBackendIsSpared | packages/storage/src/utils/circuitBreaker.ts:25-60 | With one caller at a time and a failing backend, any T ms let at most failureThreshold + floor(T / resetTimeoutMs) operations through. |
| CircuitBreaker.Retry | packages/storage/src/utils/retry.ts:11-39 | It stops at the first success, unretryable error or last attempt, with that outcome, and pauses between the tries by the capped doubling. |
| CircuitBreaker.PausesDouble | packages/storage/src/utils/retry.ts:32-34 | The first pause is the base delay or the cap, and each later one is the lesser of the cap and twice the one before, if and only if the cap is not negative or not yet reached. |
| CircuitBreaker.ExecuteWithRetry | packages/storage/src/adapters/redisStream.ts:240-263 | However often it tries, the breaker ends where a plain sequence of guarded calls would leave it. |
| CircuitBreaker.RecordRequest | packages/storage/src/client.ts:219-323 | The breaker is asked once and told once; if it allows, tries stop at the first that succeeds, must not be retried or is the last, with that outcome; if it refuses there are none. |
| StorageRun.EveryRead | packages/storage/src/client.ts:325-456 | In every interleaving, retries included, a strong read answers what the adapter held during the call, or a fill under its key stamped at most the budget before it was checked, which is of the same object unless namespaces in use clash; a bypassing read answers what the adapter held; a cache_only read never asks the adapter. |
| StorageRun.CacheOnlyIgnoresBypass | packages/storage/src/client.ts:353-436 | A concrete run in which a bypassing read answers from the adapter and a cache_only read with the same option still answers with the old copy. |
| StorageRun.RunKeepsInv | packages/storage/src/client.ts:325-456 | Every cached value is a fill under its key, of an object which the adapter held with that value. |
| StorageRun.ReadAtOnce | packages/storage/src/client.ts:353-436 | A read of the interleaved machine that nothing interrupts answers, and leaves the cache, as the client's method does. |
| StorageRun.WriteAtOnce | packages/storage/src/client.ts:325-352 | So does a write. |
| StorageRun.DeleteAtOnce | packages/storage/src/client.ts:437-456 | So does a delete. |
| StorageRun.RetryRunsAgain | packages/storage/src/utils/retry.ts:22-39 | After a timeout a read asks for the adapter's contents of now, and a write or a delete is carried out once more. |
| StorageClient.AlwaysExactIffSeparate | packages/storage/src/client.ts:325-456 | One operation at a time, over given namespaces: in every run and mode a blob read is what the adapter holds, if and only if no blob namespace followed by a colon begins another. |
| StorageClient.BlobReadsAreExact | packages/storage/src/client.ts:325-456 | The same for one run: in every mode, however stale, a blob read is the blob the adapter holds. |
| StorageClient.ClashMixesBlobsUp | packages/storage/src/client.ts:325-456 | For any two clashing namespaces, a run in which a blob that does not exist answers with another one. |
| StorageClient.RecordReadsIgnoreChanges | packages/storage/src/client.ts:466-525 | In every run of reads, writes, deletes and expiries: a record read that is content with the cached copy answers what the adapter held at the last fetch of its key, which is right if and only if the record was not changed since or last to that value; other reads are exact. |
| StorageClient.ServesCopyIff | packages/storage/src/client.ts:353-436 | A read answers from the cache if and only if there is a copy which its mode lets it have: any under cache_only, and without the bypass any under eventual and one within the budget under strong; otherwise the adapter answers, and a second read at once gets that from the cache. |
| StorageClient.CopyIsLastFetch | packages/storage/src/client.ts:466-525 | A record's key is cached only after a fetch that neither an expiry nor another fetch of the key has followed, and then holds what that fetch read. |
| StorageClient.UncopiedRecordIsExact | packages/storage/src/client.ts:466-525 | Without such a fetch a record read is exact. |
| StorageClient.CacheKeyInjective | packages/storage/src/client.ts:100-102 | Objects whose namespaces do not clash never share a cache key, and a blob never shares one with a record. |
| StorageClient.KeysSharedIff | packages/storage/src/client.ts:100-102 | Two namespaces have objects that share a key if and only if one of them, followed by a colon, begins the other. |
| StorageClient.Client.Read | packages/storage/src/client.ts:353-436 | The answer and the cache afterwards for each mode, the bypass option, and fresh, stale and missing entries. |
| StorageClient.Client.WriteBlob | packages/storage/src/client.ts:325-352 | The adapter is written and the cached copy purged. |
| StorageClient.Client.DeleteBlob | packages/storage/src/client.ts:437-456 | The adapter's copy and the cached one both go. |
| StorageClient.Client.UpsertRecord | packages/storage/src/client.ts:466-488 | Only the adapter changes. |
| StorageClient.Client.DeleteRecord | packages/storage/src/client.ts:573-591 | Only the adapter changes. |
| OutboxRun.NoRowHeldTwice | services/messaging/src/app/stream/dispatcher.ts:29-169 | In every run of any number of dispatchers, a row that one of them, or its late update, may still change is picked and held by no other. |
| OutboxRun.EveryRow | services/messaging/src/app/stream/dispatcher.ts:73-169 | In every run a sent row has a stream entry, a pending one has attempts left, a dead one has used exactly maxAttempts. |
| OutboxRun.PicksAreBounded | services/messaging/src/repositories/outboxRepository.ts:23-51 | Picks so far plus attempts left never exceed maxAttempts for each row, so only finitely many fetches pick rows. |
| OutboxRun.FetchSpends | services/messaging/src/repositories/outboxRepository.ts:23-51 | A fetch lowers the attempts left by exactly its batch size. |
| OutboxRun.EveryRowSettles | services/messaging/src/app/stream/dispatcher.ts:29-180 | If table updates succeed, as many ticks as attempts are left leave every row sent or dead, whatever Redis does. |
| OutboxRun.TickDrains | services/messaging/src/app/stream/dispatcher.ts:102-169 | Such a tick leaves no row picked and spends an attempt on each row of its batch. |
| OutboxRun.StrandedIffDropped | services/messaging/src/app/stream/dispatcher.ts:29-180 | In every run, a row is picked with nobody left to settle it if and only if at some step its holder crashed, or was cut off by a timeout before the update meant for it. |
| OutboxRun.StrandedThroughout | services/messaging/src/repositories/outboxRepository.ts:27-36 | Such a row is never taken up again, however the run goes on. |
| OutboxRun.CrashStrands | services/messaging/src/app/stream/dispatcher.ts:29-36 | A concrete run that strands a row. |
| OutboxRun.WorkIsBounded | services/messaging/src/app/stream/dispatcher.ts:29-180 | In every run of any number of dispatchers, with inserts and failures at any time, at most five times maxAttempts steps for each row get something done. |
| OutboxRun.UnsettledGoesOn | services/messaging/src/app/stream/dispatcher.ts:29-180 | While a row is neither settled nor stranded, some dispatcher has a next step. |
| OutboxRun.SettledUnlessDropped | services/messaging/src/app/stream/dispatcher.ts:29-180 | When nothing is left to do, after any interleaving, a row is sent or dead if and only if its holder never dropped it. |
| OutboxRun.PlanCovers | services/messaging/src/app/stream/dispatcher.ts:102-169 | Every row of a batch is marked sent, failed or dead by some update. |
| OutboxRun.PlannedUpdate | services/messaging/src/app/stream/dispatcher.ts:102-169 | And for the right reason: published, to be retried, or out of attempts. |
| OutboxRun.RunKeepsInv | services/messaging/src/app/stream/dispatcher.ts:29-180 | The joint invariant of rows, stream, dispatchers and late updates over every run. |
| OutboxRun.TickAtOnce | services/messaging/src/app/stream/dispatcher.ts:29-180 | A tick of the many-dispatcher machine that nothing interrupts leaves table and stream as the dispatcher's method does, whichever publishes succeed and wherever an update throws. |
| Outbox.Dispatcher.Tick | services/messaging/src/app/stream/dispatcher.ts:29-180 | The whole table and stream after a tick, for any publish outcomes and a table update that may throw at any point. |
| Outbox.Dispatcher.PublishBatch | services/messaging/src/app/stream/dispatcher.ts:73-100 | Each row is tried once, in order; the successes are in the stream. |
| Outbox.OutboxTable.FetchBatch | services/messaging/src/repositories/outboxRepository.ts:23-51 | The first pending rows become picked with one more attempt, and are returned as such. |
| Outbox.PendingFrom | services/messaging/src/repositories/outboxRepository.ts:28-35 | Only pending rows, in order, at most the limit, and all of them if there are fewer. |
| Outbox.SetStatus | services/messaging/src/repositories/outboxRepository.ts:53-87 | Exactly the named rows get the status, whatever they were, and keep everything else. |
| Consumer.EveryPass | services/messaging/src/app/stream/consumer.ts:284-352 | After any run, a pass broadcasts in non-decreasing seq, leaves the sorted buffer without a prefix, and with only transient failures every message of that prefix has been broadcast. |
| Consumer.ExactlyOnce | services/messaging/src/app/stream/consumer.ts:172-352 | If broadcast never throws, each message that arrived and was processed is broadcast exactly once over the run, however often it arrives. |
| Consumer.OnceIffQueueWasEmpty | services/messaging/src/app/stream/consumer.ts:213-222 | A finished event was broadcast once exactly when its conversation's queue was empty before. |
| Consumer.FailureRepeatsBroadcast | services/messaging/src/app/stream/consumer.ts:213-222 | A run in which one transient failure leaves the queue filled and the next pass broadcasts the event twice. |
| ConsumerRepeats.RunRepeatsIff | services/messaging/src/app/stream/consumer.ts:172-352 | Whatever arrives and however the hub fails, a run broadcasts every message at most once if and only if no attempt on an unseen event gets a success with the event already sent, or two successes with its queue filled. |
| ConsumerRepeats.QueueFilledIffFailed | services/messaging/src/app/stream/consumer.ts:213-222 | After any run a conversation's queue is filled if and only if the last attempt on an unseen event of it failed. |
| Consumer.ProcessBufferHolds | services/messaging/src/app/stream/consumer.ts:284-352 | One pass in any state, with the same promise. |
| Consumer.RunKeepsSeenSent | services/messaging/src/app/stream/consumer.ts:172-230 | Whatever the hub does, an id marked as seen has been broadcast. |
| Consumer.PassAcks | services/messaging/src/app/stream/consumer.ts:291-332 | The acknowledged entries are a prefix of the sorted buffer, all of it unless a transient failure ends the pass. |
| Consumer.UnnumberedCountAsZero | services/messaging/src/app/stream/consumer.ts:289-291 | A pass takes numbered events in order and those without a number where 0 would stand. |
| Consumer.QueueKeeps | services/messaging/src/ws/backpressure.ts:18-36 | A queue that nobody drains keeps the oldest items when it drops the new and the newest when it drops the old, as many as it is allowed. |
| Consumer.RefusedEventsWait | services/messaging/src/app/stream/consumer.ts:213-222 | While the hub refuses everything, a conversation's queue keeps the newest hundred of its events; nothing is marked as seen and each event costs one call of the hub. |
| Consumer.BoundedQueue.Push | services/messaging/src/ws/backpressure.ts:18-36 | The new queue and whether the item was accepted, for both drop policies. |
| Consumer.BoundedQueue.Drain | services/messaging/src/ws/backpressure.ts:38-47 | The loop with the consumer's sender: one broadcast of the event at hand for each queued item, until one throws. |
| Consumer.StreamConsumer.Broadcast | services/messaging/src/app/stream/consumer.ts:172-234 | The whole state after one event: skipped, broadcast, or left in its queue. |
| Consumer.StreamConsumer.Process | services/messaging/src/app/stream/consumer.ts:284-352 | The whole state after a pass and the ids acknowledged. |
| RateLimiter.WindowGrantsBounded | services/messaging/src/app/rateLimiter.ts:40-59 | Under a clock that does not run back, a key gets at most (k + 1) * max grants in a span of k intervals. |
| RateLimiter.RefusedIffWindowIsSpent | services/messaging/src/app/rateLimiter.ts:43-55 | After any calls under any clock, a call is refused if and only if max calls of its key were let through in a window that is still open, and is told how long that window has left; windows are read off the calls alone. |
| RateLimiter.FirstCallsOfAWindow | services/messaging/src/app/rateLimiter.ts:43-55 | So a window lets its first max calls through, its very first whatever max is, and no other. |
| RateLimiter.RetryAfterIsExact | services/messaging/src/app/rateLimiter.ts:50-52 | Whatever is asked before a refused call's wait is over, a call of its key is refused until then and let through then. |
| RateLimiter.SweepingIsInvisible | services/messaging/src/app/middleware/requireParticipant.ts:46-85 | The limiter that sweeps expired buckets answers every call sequence, under a clock that does not run back, as the one that never sweeps, so the laws of the windows are its laws too. |
| RateLimiter.SweepingLimiter.Cleanup | services/messaging/src/app/middleware/requireParticipant.ts:79-85 | The sweep removes exactly the buckets that are over. |
| RateLimiter.SweepingLimiter.Check | services/messaging/src/app/middleware/requireParticipant.ts:46-68 | The answer and the buckets after a check, sweep included. |
| RateLimiter.Limiter.Take | services/messaging/src/app/rateLimiter.ts:43-55 | The answer and the buckets after a take. |

## Left out

- libsodium, HKDF bytes and Diffie-Hellman arithmetic: uninterpreted functions; the law used is that opening inverts sealing, and the lemmas about keys name what they ask of the derivations.
- The header's public keys are compared as byte sequences, which their decimal text determines; no forged or corrupted envelope is modelled in the two-party runs.
- packages/crypto/src/ratchet.ts: an older near-copy with a different eviction order.
- Fastify routes, servers, JWT, captcha, directory lookups, Zod schemas, configuration, metrics, logging and tracing.
- The identifier messagingMetrics at services/messaging/src/app/stream/consumer.ts:256, 266 and 351 is treated as the metrics object it stands for.
- Heartbeats, pong handling and the rate limit on incoming messages: a close is an arbitrary step.
- The inFlight duplicate check of the hub: the id is removed in the same call.
- The in-memory resume store keeps references to live logs; snapshots here are by value, as in the Redis store.
- Hub.ResumeReplaysTheGap: packages/transport/src/websocketHub/resume.ts:58-80 is one step, because a broadcast at the awaits there is both sent live and replayed.
- Connection payloads are strings; a Buffer of length zero is truthy in JavaScript and is not modelled.
- ISO timestamps are integers, and createdAt is compared as an integer where the code compares strings of one format.
- Negative or fractional page limits, empty message ids, and updates and soft deletes during a walk.
- PageWalk.ReturnedIffNotTakenOver: counts creates that come later than the message; ReturnedIffNotSpoilt covers all of them.
- Participant paging by joinedAt, which is not unique, and conversation SQL paging, whose cursor and order use different columns.
- SQL errors for ill-typed parameters, and columns that the filters do not touch.
- Cache events, hit counters, sampling and the cache manager's own retry and breaker: a cache command may fail, repeat or land late.
- StorageRun.EveryRead: the budget counts from the stamp a fill gets when it is stored, as the code counts it, not from the adapter's read.
- Listings, streams and quotas of the storage client, and the adapters beyond their retry-and-breaker wrapper.
- Jitter: a pause is given by its upper bound.
- The breakers around publishes and table updates: a refusal, a failure and a timeout are all failed outcomes, and what timed out may land later.
- A table update that fails outright is modelled as one that times out and is then dropped, as by a crash.
- Outbox.PendingFrom: one dispatcher picks the first pending rows; with several, a fetch may pick any pending rows, as SKIP LOCKED allows.
- Trimming of the stream: it lists every entry ever added.
- The dead-letter table, XAUTOCLAIM, malformed entries, a failing XACK (the buffer is cleared all the same) and a stop that runs beside the read loop.
- Consumer.BoundedQueue.Drain: the sender is the consumer's own, which answers true or throws.
