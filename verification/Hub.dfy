/**
 The WebSocket hub of packages/transport/src/websocketHub: numbered outbound logs, snapshots of them in a resume store,
 and the replay a resuming client gets.
 */
module Hub {
  import opened Common

  datatype Frame = Frame(seq_: int, payload: string)

  /**
   What the hub keeps for one connection.  `history` is every payload ever logged on this line of connections, across
   resumes; the program does not keep it.
   */
  datatype Link = Link(accountId: string, deviceId: string, resumeToken: string, expiresAt: int,
                       serverSequence: int, log: seq<Frame>, history: seq<string>)

  /** A stored snapshot, by value. */
  datatype Snapshot = Snapshot(resumeToken: string, accountId: string, deviceId: string, lastServerSeq: int,
                               expiresAt: int, frames: seq<Frame>, history: seq<string>)

  /** The newest `limit` payloads of a history, numbered from 1 over the whole history. */
  function Logged(history: seq<string>, limit: nat): (log: seq<Frame>)
    ensures |log| == Min(limit, |history|)
    ensures forall i :: 0 <= i < |log| ==>
      log[i] == Frame(|history| - |log| + i + 1, history[|history| - |log| + i])
  {
    var n := Min(limit, |history|);
    seq(n, i requires 0 <= i < n => Frame(|history| - n + i + 1, history[|history| - n + i]))
  }

  /** The synchronous part of `broadcastTo`. */
  function LogStep(l: Link, raw: string, limit: nat): Link {
    var log := l.log + [Frame(l.serverSequence + 1, raw)];
    l.(serverSequence := l.serverSequence + 1, log := if |log| > limit then log[1..] else log,
       history := l.history + [raw])
  }

  function Snap(l: Link): Snapshot {
    Snapshot(l.resumeToken, l.accountId, l.deviceId, l.serverSequence, l.expiresAt, l.log, l.history)
  }

  /** What a client is told when its resume goes through, before the replay. */
  datatype Ack = Ack(fromSeq: int, expiresInMs: int, resumeToken: string)

  /** `drops` says whether the store is told to forget the token that the client resumed with. */
  datatype Resumption =
    | Refused(code: int, reason: string, drops: bool)
    | Resumed(link: Link, ack: Ack, replay: seq<Frame>, drops: bool)

  /** From the checked resume request to the frames to replay, with the store's answer for a foreign token in hand. */
  function ResumeStep(l: Link, token: string, lastClientSeq: int, stored: Option<Snapshot>, now: int,
                      newToken: string, newExpiry: int): Resumption {
    if token != l.resumeToken && stored.None? then Refused(1008, "invalid_token", false)
    else if token != l.resumeToken && stored.value.expiresAt < now then Refused(1008, "expired_token", true)
    else if token != l.resumeToken &&
            (stored.value.accountId != l.accountId || stored.value.deviceId != l.deviceId) then
      Refused(1008, "token_conflict", false)
    else
      var m := if token == l.resumeToken then l
               else l.(serverSequence := stored.value.lastServerSeq, log := stored.value.frames,
                       history := stored.value.history);
      Resumed(m.(resumeToken := newToken, expiresAt := newExpiry), Ack(lastClientSeq + 1, newExpiry - now, newToken),
              FramesFrom(m.log, lastClientSeq + 1), token != l.resumeToken || now > l.expiresAt)
  }

  function FramesFrom(log: seq<Frame>, fromSeq: int): seq<Frame> {
    if log == [] then []
    else (if log[0].seq_ >= fromSeq then [log[0]] else []) + FramesFrom(log[1..], fromSeq)
  }

  // ----- the objects -----------------------------------------------------------------------------------------------

  /** A connection, what its socket has been given and closed with, and the snapshots handed to the resume store. */
  datatype Wire = Wire(link: Link, queued: seq<string>, closed: seq<int>, persisted: seq<Snapshot>)

  /** A socket that buffers too much is closed as overloaded and gets nothing. */
  function SendStep(w: Wire, payload: string, overloaded: bool): Wire {
    w.(queued := w.queued + (if overloaded then [] else [payload]),
       closed := w.closed + (if overloaded then [1013] else []))
  }

  function PersistStep(w: Wire): Wire {
    w.(persisted := w.persisted + [Snap(w.link)])
  }

  /** broadcastTo: log, send, persist. */
  function BroadcastStep(w: Wire, raw: string, limit: nat, overloaded: bool): Wire {
    PersistStep(SendStep(w.(link := LogStep(w.link, raw, limit)), raw, overloaded))
  }

  function Payloads(frames: seq<Frame>): seq<string> {
    seq(|frames|, i requires 0 <= i < |frames| => frames[i].payload)
  }

  /** Frames handed over one after the other, and whether the next one was refused. */
  function ReplayStep(w: Wire, handed: seq<Frame>, refused: bool): Wire {
    w.(queued := w.queued + Payloads(handed), closed := w.closed + if refused then [1013] else [])
  }

  /** The fields beside a Link's are the sends, closes and persists made so far. */
  class HubConnection {
    const accountId: string
    const deviceId: string
    var resumeToken: string
    var resumeTokenExpiresAt: int
    var sequence: int
    var serverSequence: int
    var outboundLog: seq<Frame>
    var history: seq<string>
    var queued: seq<string>
    var closed: seq<int>
    var persisted: seq<Snapshot>

    constructor (accountId: string, deviceId: string, resumeToken: string, expiresAt: int)
      ensures OnWire() == Wire(Link(accountId, deviceId, resumeToken, expiresAt, 0, [], []), [], [], [])
    {
      this.accountId, this.deviceId := accountId, deviceId;
      this.resumeToken, this.resumeTokenExpiresAt := resumeToken, expiresAt;
      sequence, serverSequence, outboundLog, history, queued, closed, persisted := 0, 0, [], [], [], [], [];
    }

    function Value(): Link
      reads this
    {
      Link(accountId, deviceId, resumeToken, resumeTokenExpiresAt, serverSequence, outboundLog, history)
    }

    function OnWire(): Wire
      reads this
    {
      Wire(Value(), queued, closed, persisted)
    }

    method LogFrame(raw: string, outboundLogLimit: nat)
      modifies this
      ensures OnWire() == old(OnWire()).(link := LogStep(old(Value()), raw, outboundLogLimit)) &&
              sequence == old(sequence)
    {
      serverSequence := serverSequence + 1;
      outboundLog := outboundLog + [Frame(serverSequence, raw)];
      if |outboundLog| > outboundLogLimit {
        outboundLog := outboundLog[1..];
      }
      history := history + [raw];
    }

    method SafeSend(payload: string, overloaded: bool)
      modifies this`queued, this`closed
      ensures OnWire() == SendStep(old(OnWire()), payload, overloaded)
    {
      if overloaded {
        closed := closed + [1013];
        return;
      }
      queued := queued + [payload];
    }

    method SafeSendWithBackpressure(payload: string, overloaded: bool) returns (sent: bool)
      modifies this`queued, this`closed
      ensures sent == !overloaded && OnWire() == SendStep(old(OnWire()), payload, overloaded)
    {
      if overloaded {
        closed := closed + [1013];
        return false;
      }
      queued := queued + [payload];
      return true;
    }

    method PersistSnapshot()
      modifies this`persisted
      ensures OnWire() == PersistStep(old(OnWire()))
    {
      persisted := persisted + [Snap(Value())];
    }

    method BroadcastTo(raw: string, outboundLogLimit: nat, overloaded: bool)
      modifies this
      ensures OnWire() == BroadcastStep(old(OnWire()), raw, outboundLogLimit, overloaded)
    {
      LogFrame(raw, outboundLogLimit);
      SafeSend(raw, overloaded);
      PersistSnapshot();
    }

    /** Up to the acknowledgement; `render` is JSON.stringify, and the frames to replay are picked after it is sent. */
    method Resume(token: string, lastClientSeq: int, stored: Option<Snapshot>, now: int, newToken: string,
                  newExpiry: int, render: Ack -> string, overloaded: bool)
      returns (ok: bool, replay: seq<Frame>, drops: bool)
      modifies this
      ensures match ResumeStep(old(Value()), token, lastClientSeq, stored, now, newToken, newExpiry)
              case Refused(code, why, d) =>
                !ok && drops == d && OnWire() == old(OnWire()).(closed := old(closed) + [code])
              case Resumed(link, ack, frames, d) =>
                && ok && drops == d && replay == frames
                && OnWire() == SendStep(old(OnWire()).(link := link), render(ack), overloaded)
    {
      hide FramesFrom, SendStep;
      ok, replay, drops := true, [], false;
      if token != resumeToken {
        if stored.None? {
          closed := closed + [1008];
          return false, [], false;
        }
        var persisted := stored.value;
        if persisted.expiresAt < now {
          closed := closed + [1008];
          return false, [], true;
        }
        if persisted.accountId != accountId || persisted.deviceId != deviceId {
          closed := closed + [1008];
          return false, [], false;
        }
        sequence := persisted.lastServerSeq;
        serverSequence := persisted.lastServerSeq;
        outboundLog := persisted.frames;
        history := persisted.history;
        drops := true;
      } else if now > resumeTokenExpiresAt {
        drops := true;
      }
      var fromSeq := lastClientSeq + 1;
      resumeToken := newToken;
      resumeTokenExpiresAt := newExpiry;
      SafeSend(render(Ack(fromSeq, newExpiry - now, newToken)), overloaded);
      replay := FramesFrom(outboundLog, fromSeq);
    }
  }

  datatype Auth = Auth(accountId: string, deviceId: string)
  datatype Registration = Rejected(code: int) | Accepted(connection: HubConnection)

  class WebSocketHub {
    const outboundLogLimit: nat
    const maxReplayBatchSize: int
    var connections: map<string, HubConnection>

    constructor (outboundLogLimit: nat, maxReplayBatchSize: int)
      ensures this.outboundLogLimit == outboundLogLimit && this.maxReplayBatchSize == maxReplayBatchSize
      ensures connections == map[]
    {
      this.outboundLogLimit, this.maxReplayBatchSize, connections := outboundLogLimit, maxReplayBatchSize, map[];
    }

    /** Each registration makes its own connection object. */
    ghost predicate Valid()
      reads this
    {
      forall c, d :: c in connections && d in connections && c != d ==> connections[c] != connections[d]
    }

    /** `auth` is what authentication answers, `allowed` what the connection limiter does. */
    method Register(clientId: string, auth: Option<Auth>, allowed: bool, token: string, expiresAt: int)
      returns (r: Registration)
      requires Valid()
      modifies this
      ensures Valid()
      ensures auth.None? ==> r == Rejected(1008) && unchanged(this)
      ensures auth.Some? && !allowed ==> r == Rejected(1013) && unchanged(this)
      ensures auth.Some? && allowed ==>
        var link := Link(auth.value.accountId, auth.value.deviceId, token, expiresAt, 0, [], []);
        && r.Accepted? && fresh(r.connection) && connections == old(connections)[clientId := r.connection]
        && r.connection.OnWire() == Wire(link, [], [], [Snap(link)])
    {
      if auth.None? {
        return Rejected(1008);
      }
      if !allowed {
        return Rejected(1013);
      }
      var connection := new HubConnection(auth.value.accountId, auth.value.deviceId, token, expiresAt);
      connections := connections[clientId := connection];
      connection.PersistSnapshot();
      return Accepted(connection);
    }

    /** The socket of this connection object has closed. */
    method Close(clientId: string, connection: HubConnection)
      requires Valid()
      modifies this, connection
      ensures Valid() && connections == old(connections) - {clientId}
      ensures connection.OnWire() == PersistStep(old(connection.OnWire()))
    {
      connections := connections - {clientId};
      connection.PersistSnapshot();
    }

    /** Every registered connection logs the payload once, sends it unless overloaded, and is persisted. */
    method Broadcast(raw: string, overloaded: set<string>)
      requires Valid()
      modifies connections.Values
      ensures connections == old(connections)
      ensures forall c :: c in connections ==>
        connections[c].OnWire() == BroadcastStep(old(connections[c].OnWire()), raw, outboundLogLimit, c in overloaded)
    {
      hide BroadcastStep;
      var clients := connections.Keys;
      while clients != {}
        invariant clients <= connections.Keys && connections == old(connections)
        invariant forall c :: c in clients ==> connections[c].OnWire() == old(connections[c].OnWire())
        invariant forall c :: c in connections && c !in clients ==>
          connections[c].OnWire() == BroadcastStep(old(connections[c].OnWire()), raw, outboundLogLimit, c in overloaded)
        decreases clients
      {
        var client :| client in clients;
        assert connections[client] in connections.Values;
        connections[client].BroadcastTo(raw, outboundLogLimit, client in overloaded);
        clients := clients - {client};
      }
    }

    /** One batch of the replay: hand frames over until one is refused. */
    method ReplayBatch(connection: HubConnection, batch: seq<Frame>, first: nat, accepts: nat -> bool)
      returns (sentCount: nat)
      modifies connection`queued, connection`closed
      ensures FirstRefused(first, |batch|, accepts, sentCount)
      ensures connection.OnWire() == ReplayStep(old(connection.OnWire()), batch[..sentCount], sentCount < |batch|)
    {
      sentCount := 0;
      ghost var before := connection.OnWire();
      while sentCount < |batch|
        invariant sentCount <= |batch| && (forall k: nat :: first <= k < first + sentCount ==> accepts(k))
        invariant connection.OnWire() == ReplayStep(before, batch[..sentCount], false)
      {
        OneMore(before, batch, sentCount);
        var sent := connection.SafeSendWithBackpressure(batch[sentCount].payload, !accepts(first + sentCount));
        if !sent {
          break;
        }
        sentCount := sentCount + 1;
      }
    }

    /**
     The batched replay loop; accepts(k) says whether the k-th hand-over of the run goes through.  It is one pass over
     the frames that stops at the first refusal.
     */
    method Replay(connection: HubConnection, frames: seq<Frame>, accepts: nat -> bool)
      returns (replayCount: nat, batches: nat, batchSizes: seq<nat>)
      requires maxReplayBatchSize >= 1
      modifies connection`queued, connection`closed
      ensures FirstRefused(0, |frames|, accepts, replayCount)
      ensures connection.OnWire() == ReplayStep(old(connection.OnWire()), frames[..replayCount], replayCount < |frames|)
      ensures batches == Batches(|frames|, maxReplayBatchSize)
      ensures Sum(batchSizes) == replayCount && |batchSizes| <= batches
      ensures replayCount == |frames| ==> |batchSizes| == batches
      ensures forall k :: 0 <= k < |batchSizes| - 1 ==> batchSizes[k] == maxReplayBatchSize
    {
      hide ReplayStep, Batches, Sum, AllFull, FirstRefused;
      ghost var before := connection.OnWire();
      batches := (|frames| + maxReplayBatchSize - 1) / maxReplayBatchSize;
      BatchesIsCeiling(|frames|, maxReplayBatchSize);
      replayCount, batchSizes := 0, [];
      var i: nat := 0;
      NothingHanded(before, frames, accepts);
      NothingSized(maxReplayBatchSize);
      while i < |frames|
        invariant replayCount == Min(i, |frames|)
        invariant connection.OnWire() == ReplayStep(before, frames[..replayCount], false)
        invariant FirstRefused(0, replayCount, accepts, replayCount)
        invariant |batchSizes| + Batches(|frames| - replayCount, maxReplayBatchSize) == batches
        invariant Sum(batchSizes) == replayCount && (i < |frames| ==> AllFull(batchSizes, maxReplayBatchSize))
        invariant forall k :: 0 <= k < |batchSizes| - 1 ==> batchSizes[k] == maxReplayBatchSize
        decreases |frames| - i
      {
        var batch := frames[i..Min(i + maxReplayBatchSize, |frames|)];
        var sentCount := ReplayBatch(connection, batch, i, accepts);
        BatchAfter(before, frames, i, batch, sentCount);
        BatchLess(|frames| - i, maxReplayBatchSize);
        FirstRefusedOn(i, |batch|, |frames|, accepts, sentCount);
        replayCount := replayCount + sentCount;
        OneMoreSize(batchSizes, sentCount, maxReplayBatchSize);
        if sentCount > 0 {
          batchSizes := batchSizes + [sentCount];
        }
        if sentCount < |batch| {
          break;
        }
        i := i + maxReplayBatchSize;
      }
    }

    /**
     handleResume, from the checked request to the last snapshot.  A socket that is overloaded when the acknowledgement
     is sent is closed, and the replay is tried all the same.
     */
    method HandleResume(connection: HubConnection, token: string, lastClientSeq: int, stored: Option<Snapshot>,
                        now: int, newToken: string, newExpiry: int, render: Ack -> string, overloaded: bool,
                        accepts: nat -> bool)
      returns (replayCount: nat, batches: nat, drops: bool)
      requires maxReplayBatchSize >= 1
      modifies connection
      ensures match ResumeStep(old(connection.Value()), token, lastClientSeq, stored, now, newToken, newExpiry)
              case Refused(code, why, d) =>
                && replayCount == batches == 0 && drops == d
                && connection.OnWire() == old(connection.OnWire()).(closed := old(connection.closed) + [code])
              case Resumed(link, ack, frames, d) =>
                && FirstRefused(0, |frames|, accepts, replayCount) && drops == d
                && batches == Batches(|frames|, maxReplayBatchSize)
                && connection.OnWire() ==
                   PersistStep(ReplayStep(SendStep(old(connection.OnWire()).(link := link), render(ack), overloaded),
                                          frames[..replayCount], replayCount < |frames|))
    {
      hide ResumeStep, FirstRefused, PersistStep, ReplayStep, SendStep;
      var ok, replay, dropped :=
        connection.Resume(token, lastClientSeq, stored, now, newToken, newExpiry, render, overloaded);
      drops := dropped;
      if !ok {
        return 0, 0, drops;
      }
      var sizes;
      replayCount, batches, sizes := Replay(connection, replay, accepts);
      connection.PersistSnapshot();
    }
  }

  /** Of `size` hand-overs from `first` on, this many went through before one was refused. */
  ghost predicate FirstRefused(first: nat, size: nat, accepts: nat -> bool, count: nat) {
    && count <= size && (forall k: nat :: first <= k < first + count ==> accepts(k))
    && (count < size ==> !accepts(first + count))
  }

  lemma FirstRefusedOn(first: nat, size: nat, total: nat, accepts: nat -> bool, count: nat)
    requires first + size <= total && FirstRefused(first, size, accepts, count)
    requires FirstRefused(0, first, accepts, first)
    ensures FirstRefused(0, first + count, accepts, first + count)
    ensures count < size || first + count == total ==> FirstRefused(0, total, accepts, first + count)
  {
  }

  ghost predicate AllFull(sizes: seq<nat>, size: nat) {
    forall k :: 0 <= k < |sizes| ==> sizes[k] == size
  }

  lemma OneMoreSize(sizes: seq<nat>, n: nat, size: nat)
    requires AllFull(sizes, size)
    ensures Sum(sizes + [n]) == Sum(sizes) + n
    ensures n == size ==> AllFull(sizes + [n], size)
    ensures forall k :: 0 <= k < |sizes| ==> sizes[k] == size
  {
    SumAppend(sizes, n);
    hide Sum;
  }

  lemma NothingSized(size: int)
    requires size >= 1
    ensures Sum([]) == 0 && AllFull([], size) && Batches(0, size) == 0
  {
  }

  lemma OneMore(w: Wire, batch: seq<Frame>, n: nat)
    requires n < |batch|
    ensures SendStep(ReplayStep(w, batch[..n], false), batch[n].payload, false) == ReplayStep(w, batch[..n + 1], false)
    ensures SendStep(ReplayStep(w, batch[..n], false), batch[n].payload, true) == ReplayStep(w, batch[..n], true)
  {
    assert Payloads(batch[..n + 1]) == Payloads(batch[..n]) + [batch[n].payload];
  }

  lemma NothingHanded(w: Wire, frames: seq<Frame>, accepts: nat -> bool)
    ensures ReplayStep(w, frames[..0], false) == w && FirstRefused(0, 0, accepts, 0)
  {
    assert Payloads(frames[..0]) == [];
  }

  lemma BatchAfter(w: Wire, frames: seq<Frame>, i: nat, batch: seq<Frame>, n: nat)
    requires i < |frames| && batch <= frames[i..] && n <= |batch|
    ensures i + n <= |frames|
    ensures ReplayStep(ReplayStep(w, frames[..i], false), batch[..n], n < |batch|) ==
            ReplayStep(w, frames[..i + n], n < |batch|)
  {
    assert Payloads(frames[..i + n]) == Payloads(frames[..i]) + Payloads(batch[..n]);
  }

  lemma BatchLess(n: nat, size: int)
    requires n > 0 && size >= 1
    ensures Batches(n, size) == 1 + Batches(Max(0, n - size), size)
  {
  }

  /** How many batches of `size` it takes to hold n frames. */
  function Batches(n: nat, size: int): nat
    requires size >= 1
  {
    if n == 0 then 0 else if n <= size then 1 else 1 + Batches(n - size, size)
  }

  lemma {:induction false} BatchesFit(n: nat, size: int)
    requires size >= 1
    ensures Batches(n, size) * size - size < n <= Batches(n, size) * size || n == Batches(n, size) == 0
  {
    if n > size {
      BatchesFit(n - size, size);
      MulSuccessor(Batches(n - size, size), size);
    }
  }

  /** That is the quotient rounded up. */
  lemma {:induction false} BatchesIsCeiling(n: nat, size: int)
    requires size >= 1
    ensures Batches(n, size) == (n + size - 1) / size
  {
    BatchesFit(n, size);
    hide Batches;
    QuotientUnique(n + size - 1, size, Batches(n, size));
  }

  function Sum(s: seq<nat>): nat {
    if s == [] then 0 else Sum(s[..|s| - 1]) + s[|s| - 1]
  }

  lemma SumAppend(s: seq<nat>, n: nat)
    ensures Sum(s + [n]) == Sum(s) + n
  {
    assert (s + [n])[..|s|] == s;
  }

  // ----- the hub as a machine --------------------------------------------------------------------------------------

  /**
   Every connection object ever made, the ones registered now, snapshots on their way to the store (a write may be late
   or out of order), the store, and snapshots that a resume has read and not yet used.
   */
  datatype State = State(links: seq<Link>, live: map<string, nat>, writing: set<Snapshot>, store: map<string, Snapshot>,
                         read: set<Snapshot>)

  datatype Event =
    | Register(clientId: string, accountId: string, deviceId: string, token: string, expiresAt: int)
    | Broadcast(raw: string)
    | Close(clientId: string)
    | Persist(link: nat)
    | Written(snapshot: Snapshot)
    | Dropped(token: string)
    | Load(token: string)
    | Resume(link: nat, token: string, lastClientSeq: int, stored: Option<Snapshot>, now: int, newToken: string,
             newExpiry: int)

  function Start(): State {
    State([], map[], {}, map[], {})
  }

  function Step(limit: nat, s: State, ev: Event): State {
    match ev
    case Register(c, a, d, t, e) =>
      s.(links := s.links + [Link(a, d, t, e, 0, [], [])], live := s.live[c := |s.links|])
    case Broadcast(raw) =>
      s.(links := seq(|s.links|, i requires 0 <= i < |s.links| =>
                        if i in s.live.Values then LogStep(s.links[i], raw, limit) else s.links[i]))
    case Close(c) => s.(live := s.live - {c})
    case Persist(l) => if l < |s.links| then s.(writing := s.writing + {Snap(s.links[l])}) else s
    case Written(n) => if n in s.writing then s.(store := s.store[n.resumeToken := n]) else s
    case Dropped(t) => s.(store := s.store - {t})
    case Load(t) => if t in s.store then s.(read := s.read + {s.store[t]}) else s
    case Resume(l, t, last, stored, now, newToken, newExpiry) =>
      if l < |s.links| && (stored.Some? ==> stored.value in s.read && stored.value.resumeToken == t) then
        match ResumeStep(s.links[l], t, last, stored, now, newToken, newExpiry)
        case Refused(_, _, drops) => if drops then s.(store := s.store - {t}) else s
        case Resumed(link, _, _, drops) =>
          s.(links := s.links[l := link], store := if drops then s.store - {t} else s.store)
      else s
  }

  function Run(limit: nat, evs: seq<Event>): State {
    if evs == [] then Start() else Step(limit, Run(limit, evs[..|evs| - 1]), evs[|evs| - 1])
  }

  // ----- what every run keeps --------------------------------------------------------------------------------------

  ghost predicate LogHolds(limit: nat, serverSequence: int, log: seq<Frame>, history: seq<string>) {
    serverSequence == |history| && log == Logged(history, limit)
  }

  ghost predicate LinkHolds(limit: nat, l: Link) {
    LogHolds(limit, l.serverSequence, l.log, l.history)
  }

  ghost predicate SnapshotHolds(limit: nat, n: Snapshot) {
    LogHolds(limit, n.lastServerSeq, n.frames, n.history)
  }

  ghost predicate Inv(limit: nat, s: State) {
    && (forall i :: 0 <= i < |s.links| ==> LinkHolds(limit, s.links[i]))
    && (forall n :: n in s.writing ==> SnapshotHolds(limit, n))
    && (forall t :: t in s.store ==> SnapshotHolds(limit, s.store[t]))
    && (forall n :: n in s.read ==> SnapshotHolds(limit, n))
  }

  lemma LogStepHolds(limit: nat, l: Link, raw: string)
    requires LinkHolds(limit, l)
    ensures LinkHolds(limit, LogStep(l, raw, limit))
  {
    var m := LogStep(l, raw, limit);
    assert m.log == Logged(m.history, limit);
  }

  lemma BroadcastKeepsInv(limit: nat, s: State, raw: string)
    requires Inv(limit, s)
    ensures Inv(limit, Step(limit, s, Broadcast(raw)))
  {
    hide LogStep, LinkHolds, SnapshotHolds;
    forall i | 0 <= i < |s.links| ensures LinkHolds(limit, LogStep(s.links[i], raw, limit)) {
      LogStepHolds(limit, s.links[i], raw);
    }
  }

  lemma ResumedLinkHolds(limit: nat, l: Link, ev: Event)
    requires ev.Resume? && LinkHolds(limit, l) && (ev.stored.Some? ==> SnapshotHolds(limit, ev.stored.value))
    ensures var r := ResumeStep(l, ev.token, ev.lastClientSeq, ev.stored, ev.now, ev.newToken, ev.newExpiry);
            r.Resumed? ==> LinkHolds(limit, r.link) && r.replay == FramesFrom(r.link.log, ev.lastClientSeq + 1)
  {
    hide Logged, FramesFrom;
  }

  lemma InvOf(limit: nat, s: State, link: nat, stored: Option<Snapshot>)
    requires Inv(limit, s) && link < |s.links| && (stored.Some? ==> stored.value in s.read)
    ensures LinkHolds(limit, s.links[link]) && (stored.Some? ==> SnapshotHolds(limit, stored.value))
  {
  }

  lemma ResumeKeepsInv(limit: nat, s: State, ev: Event)
    requires Inv(limit, s) && ev.Resume?
    ensures Inv(limit, Step(limit, s, ev))
  {
    hide LinkHolds, SnapshotHolds, ResumeStep;
    if ev.link < |s.links| && (ev.stored.Some? ==> ev.stored.value in s.read) {
      InvOf(limit, s, ev.link, ev.stored);
      ResumedLinkHolds(limit, s.links[ev.link], ev);
    }
  }

  lemma SnapHolds(limit: nat, l: Link)
    requires LinkHolds(limit, l)
    ensures SnapshotHolds(limit, Snap(l))
  {
  }

  lemma NewLinkHolds(limit: nat, accountId: string, deviceId: string, token: string, expiresAt: int)
    ensures LinkHolds(limit, Link(accountId, deviceId, token, expiresAt, 0, [], []))
  {
    assert [] == Logged([], limit);
  }

  lemma {:induction false} StepKeepsInv(limit: nat, s: State, ev: Event)
    requires Inv(limit, s)
    ensures Inv(limit, Step(limit, s, ev))
  {
    hide LinkHolds, SnapshotHolds, ResumeStep, LogStep, Snap;
    match ev
    case Register(_, a, d, t, e) => NewLinkHolds(limit, a, d, t, e);
    case Broadcast(raw) => BroadcastKeepsInv(limit, s, raw);
    case Persist(l) =>
      if l < |s.links| {
        SnapHolds(limit, s.links[l]);
      }
    case Resume(_, _, _, _, _, _, _) => ResumeKeepsInv(limit, s, ev);
    case _ =>
  }

  lemma {:induction false} RunKeepsInv(limit: nat, evs: seq<Event>)
    ensures Inv(limit, Run(limit, evs))
  {
    if evs != [] {
      RunKeepsInv(limit, evs[..|evs| - 1]);
      StepKeepsInv(limit, Run(limit, evs[..|evs| - 1]), evs[|evs| - 1]);
      hide Step, Inv;
    }
  }

  /**
   In every run, each connection's log and each stored snapshot's is the numbered tail of what its line has logged.
   */
  lemma LogsAreTails(limit: nat, evs: seq<Event>)
    ensures var s := Run(limit, evs);
            && (forall i :: 0 <= i < |s.links| ==> LinkHolds(limit, s.links[i]))
            && (forall t :: t in s.store ==> SnapshotHolds(limit, s.store[t]))
  {
    RunKeepsInv(limit, evs);
  }

  /** Everything a line has logged, numbered from 1. */
  function Numbered(history: seq<string>): seq<Frame> {
    Logged(history, |history|)
  }

  lemma {:induction false} FramesFromConsecutive(log: seq<Frame>, first: int, fromSeq: int)
    requires forall i :: 0 <= i < |log| ==> log[i].seq_ == first + i
    ensures FramesFrom(log, fromSeq) ==
            if fromSeq <= first then log else if fromSeq - first <= |log| then log[fromSeq - first..] else []
  {
    if log != [] {
      FramesFromConsecutive(log[1..], first + 1, fromSeq);
    }
  }

  /** What the client last saw is still covered by the log. */
  predicate Covered(l: Link, lastClientSeq: int) {
    l.serverSequence - |l.log| <= lastClientSeq
  }

  lemma NumberedIs(limit: nat, m: Link, lastClientSeq: nat)
    requires LinkHolds(limit, m) && lastClientSeq <= |m.history|
    ensures var cut, all := m.serverSequence - |m.log|, Numbered(m.history);
            && 0 <= cut && |all| == m.serverSequence == |m.history| && m.log == all[cut..]
  {
    var cut, all := m.serverSequence - |m.log|, Numbered(m.history);
    assert m.log == all[cut..];
  }

  lemma SuffixesDiffer(s: seq<Frame>, i: nat, j: nat)
    requires i <= |s| && j <= |s|
    ensures s[i..] == s[j..] <==> i == j
  {
    assert |s[i..]| == |s| - i && |s[j..]| == |s| - j;
  }

  lemma LogNumbers(limit: nat, m: Link)
    requires LinkHolds(limit, m)
    ensures forall i :: 0 <= i < |m.log| ==> m.log[i].seq_ == m.serverSequence - |m.log| + 1 + i
  {
  }

  /** The frames after the client's last one are all there exactly when the log still reaches back that far. */
  lemma ReplayFillsGap(limit: nat, m: Link, lastClientSeq: nat)
    requires LinkHolds(limit, m) && lastClientSeq <= |m.history|
    ensures var replay := FramesFrom(m.log, lastClientSeq + 1);
            && (replay == Numbered(m.history)[lastClientSeq..] <==> Covered(m, lastClientSeq))
            && (!Covered(m, lastClientSeq) ==> replay == m.log)
  {
    hide FramesFrom, LinkHolds, Numbered;
    var cut, all := m.serverSequence - |m.log|, Numbered(m.history);
    NumberedIs(limit, m, lastClientSeq);
    LogNumbers(limit, m);
    FramesFromConsecutive(m.log, cut + 1, lastClientSeq + 1);
    if Covered(m, lastClientSeq) {
      assert all[cut..][lastClientSeq - cut..] == all[lastClientSeq..];
    } else {
      SuffixesDiffer(all, cut, lastClientSeq);
    }
  }

  ghost predicate Fills(r: Resumption, lastClientSeq: int) {
    r.Resumed? && 0 <= lastClientSeq <= |r.link.history| ==>
      && (r.replay == Numbered(r.link.history)[lastClientSeq..] <==> Covered(r.link, lastClientSeq))
      && (!Covered(r.link, lastClientSeq) ==> r.replay == r.link.log)
  }

  /**
   A resume that goes through, anywhere in any run, replays every frame after the client's last one, in order, exactly
   when the log still reaches back that far; otherwise it replays the whole log.
   */
  lemma ResumeReplaysTheGap(limit: nat, evs: seq<Event>, ev: Event)
    requires ev.Resume? && ev.link < |Run(limit, evs).links|
    requires ev.stored.Some? ==> ev.stored.value in Run(limit, evs).read
    ensures Fills(ResumeStep(Run(limit, evs).links[ev.link], ev.token, ev.lastClientSeq, ev.stored, ev.now, ev.newToken,
                             ev.newExpiry), ev.lastClientSeq)
  {
    hide ResumeStep, FramesFrom, Run, LinkHolds, SnapshotHolds, Inv, Numbered, Covered;
    RunKeepsInv(limit, evs);
    InvOf(limit, Run(limit, evs), ev.link, ev.stored);
    var l := Run(limit, evs).links[ev.link];
    var r := ResumeStep(l, ev.token, ev.lastClientSeq, ev.stored, ev.now, ev.newToken, ev.newExpiry);
    ResumedLinkHolds(limit, l, ev);
    if r.Resumed? && 0 <= ev.lastClientSeq <= |r.link.history| {
      ReplayFillsGap(limit, r.link, ev.lastClientSeq);
    }
  }

  // ----- which resumes go through, and to what ---------------------------------------------------------------------

  /**
   A resume goes through exactly with the connection's own token, expired or not, or with a stored, unexpired token of
   the same account and device.  Every other one closes the connection with 1008, and only an expired token is dropped.
   */
  lemma ResumeGoesThroughIff(l: Link, token: string, lastClientSeq: int, stored: Option<Snapshot>, now: int,
                             newToken: string, newExpiry: int)
    ensures var r := ResumeStep(l, token, lastClientSeq, stored, now, newToken, newExpiry);
            && (r.Resumed? <==>
                  || token == l.resumeToken
                  || (stored.Some? && stored.value.accountId == l.accountId && stored.value.deviceId == l.deviceId
                      && now <= stored.value.expiresAt))
            && (r.Refused? ==> r.code == 1008 && (r.drops <==> stored.Some? && stored.value.expiresAt < now)
                               && (r.reason == "invalid_token" <==> stored.None?)
                               && (r.reason == "expired_token" <==> stored.Some? && stored.value.expiresAt < now)
                               && (r.reason == "token_conflict" <==> stored.Some? && stored.value.expiresAt >= now))
            && (r.Resumed? ==>
                  && r.link.accountId == l.accountId && r.link.deviceId == l.deviceId
                  && r.link.resumeToken == newToken && r.link.expiresAt == newExpiry
                  && r.ack == Ack(lastClientSeq + 1, newExpiry - now, newToken)
                  && (r.drops <==> token != l.resumeToken || now > l.expiresAt)
                  && (token == l.resumeToken ==> r.link.log == l.log && r.link.history == l.history))
  {
    assert "invalid_token"[0] == 'i' && "expired_token"[0] == 'e' && "token_conflict"[0] == 't';
    hide FramesFrom;
  }

  /** This snapshot was taken of one of the connection objects, at some moment of the run. */
  ghost predicate Taken(limit: nat, evs: seq<Event>, n: Snapshot) {
    exists m: nat, k: nat :: m <= |evs| && k < |Run(limit, evs[..m]).links| && n == Snap(Run(limit, evs[..m]).links[k])
  }

  ghost predicate AllTaken(limit: nat, evs: seq<Event>, s: State) {
    && (forall n :: n in s.writing ==> Taken(limit, evs, n))
    && (forall t :: t in s.store ==> Taken(limit, evs, s.store[t]) && s.store[t].resumeToken == t)
    && (forall n :: n in s.read ==> Taken(limit, evs, n))
  }

  lemma StaysTaken(limit: nat, evs: seq<Event>, ev: Event, n: Snapshot)
    requires Taken(limit, evs, n)
    ensures Taken(limit, evs + [ev], n)
  {
    hide Run;
    var m: nat, k: nat :|
      m <= |evs| && k < |Run(limit, evs[..m]).links| && n == Snap(Run(limit, evs[..m]).links[k]);
    assert (evs + [ev])[..m] == evs[..m];
  }

  lemma TakenNow(limit: nat, evs: seq<Event>, ev: Event, k: nat)
    requires k < |Run(limit, evs).links|
    ensures Taken(limit, evs + [ev], Snap(Run(limit, evs).links[k]))
  {
    hide Run;
    assert evs[..|evs|] == evs;
    assert Taken(limit, evs, Snap(Run(limit, evs).links[k]));
    StaysTaken(limit, evs, ev, Snap(Run(limit, evs).links[k]));
  }

  lemma AllStayTaken(limit: nat, evs: seq<Event>, ev: Event, s: State)
    requires AllTaken(limit, evs, s)
    ensures AllTaken(limit, evs + [ev], s)
  {
    hide Taken;
    forall n | Taken(limit, evs, n) ensures Taken(limit, evs + [ev], n) {
      StaysTaken(limit, evs, ev, n);
    }
  }

  lemma StepTakes(limit: nat, evs: seq<Event>, s: State, ev: Event)
    requires AllTaken(limit, evs, s)
    requires forall k :: 0 <= k < |s.links| ==> Taken(limit, evs, Snap(s.links[k]))
    ensures AllTaken(limit, evs, Step(limit, s, ev))
  {
    hide Taken, LogStep, ResumeStep, Snap;
    match ev
    case Resume(l, t, last, stored, now, newToken, newExpiry) =>
      assert Step(limit, s, ev).store == s.store || Step(limit, s, ev).store == s.store - {t};
    case _ =>
  }

  lemma {:induction false} SnapshotsAreTaken(limit: nat, evs: seq<Event>)
    ensures AllTaken(limit, evs, Run(limit, evs))
  {
    if evs != [] {
      var front, ev := evs[..|evs| - 1], evs[|evs| - 1];
      var s := Run(limit, front);
      assert evs == front + [ev] && Run(limit, evs) == Step(limit, s, ev);
      hide Run, Taken, Step, Snap, AllTaken;
      SnapshotsAreTaken(limit, front);
      AllStayTaken(limit, front, ev, s);
      forall k | 0 <= k < |s.links| ensures Taken(limit, evs, Snap(s.links[k])) {
        TakenNow(limit, front, ev, k);
      }
      StepTakes(limit, evs, s, ev);
    }
  }

  /** A connection object stays with its account and device. */
  lemma {:induction false} OwnersStay(limit: nat, evs: seq<Event>, m: nat, i: nat)
    requires m <= |evs| && i < |Run(limit, evs[..m]).links|
    ensures var l := Run(limit, evs[..m]).links[i];
            && i < |Run(limit, evs).links|
            && Run(limit, evs).links[i].accountId == l.accountId && Run(limit, evs).links[i].deviceId == l.deviceId
  {
    if m == |evs| {
      assert evs[..m] == evs;
    } else {
      var front := evs[..|evs| - 1];
      assert front[..m] == evs[..m];
      OwnersStay(limit, front, m, i);
      StepKeepsOwner(limit, Run(limit, front), evs[|evs| - 1], i);
    }
  }

  lemma StepKeepsOwner(limit: nat, s: State, ev: Event, i: nat)
    requires i < |s.links|
    ensures var t := Step(limit, s, ev);
            && i < |t.links| && t.links[i].accountId == s.links[i].accountId
            && t.links[i].deviceId == s.links[i].deviceId
  {
    hide FramesFrom;
  }

  /**
   In any run, what a resume with another connection's token takes over is what a connection object of the same account
   and device, holding that very token, had logged at some earlier moment of the run.
   */
  lemma ResumeStaysWithItsOwner(limit: nat, evs: seq<Event>, ev: Event) returns (m: nat, k: nat)
    requires ev.Resume? && ev.link < |Run(limit, evs).links| && ev.token != Run(limit, evs).links[ev.link].resumeToken
    requires ev.stored.Some? ==> ev.stored.value in Run(limit, evs).read && ev.stored.value.resumeToken == ev.token
    requires Step(limit, Run(limit, evs), ev).links != Run(limit, evs).links
    ensures m <= |evs| && k < |Run(limit, evs[..m]).links| && ev.link < |Step(limit, Run(limit, evs), ev).links|
    ensures var from, to := Run(limit, evs[..m]).links[k], Step(limit, Run(limit, evs), ev).links[ev.link];
            && from.accountId == to.accountId == Run(limit, evs).links[ev.link].accountId
            && from.deviceId == to.deviceId == Run(limit, evs).links[ev.link].deviceId
            && from.resumeToken == ev.token && to.log == from.log && to.history == from.history
            && to.serverSequence == from.serverSequence
  {
    hide Run, FramesFrom;
    SnapshotsAreTaken(limit, evs);
    assert ev.stored.Some? && Taken(limit, evs, ev.stored.value);
    m, k :| m <= |evs| && k < |Run(limit, evs[..m]).links| &&
            ev.stored.value == Snap(Run(limit, evs[..m]).links[k]);
  }

  /** This payload was broadcast while a connection of this account and device was registered. */
  ghost predicate BroadcastTo(limit: nat, evs: seq<Event>, accountId: string, deviceId: string, raw: string) {
    exists m: nat, k: nat ::
      m < |evs| && evs[m] == Broadcast(raw) && Reaches(Run(limit, evs[..m]), k, accountId, deviceId)
  }

  predicate Reaches(s: State, k: nat, accountId: string, deviceId: string) {
    k < |s.links| && k in s.live.Values && s.links[k].accountId == accountId && s.links[k].deviceId == deviceId
  }

  lemma BroadcastEarlier(limit: nat, evs: seq<Event>, n: nat, accountId: string, deviceId: string, raw: string)
    requires n <= |evs| && BroadcastTo(limit, evs[..n], accountId, deviceId, raw)
    ensures BroadcastTo(limit, evs, accountId, deviceId, raw)
  {
    hide Run, Reaches;
    var m: nat, k: nat :|
      m < n && evs[..n][m] == Broadcast(raw) && Reaches(Run(limit, evs[..n][..m]), k, accountId, deviceId);
    assert evs[..n][..m] == evs[..m] && evs[m] == Broadcast(raw);
  }

  /**
   In any run, whatever a connection's line has logged was broadcast to a connection of the same account and device; so
   no log, and no replay from it, ever holds a frame that went to others only.
   */
  lemma {:induction false} OnlyOwnFrames(limit: nat, evs: seq<Event>, i: nat, raw: string)
    requires i < |Run(limit, evs).links| && raw in Run(limit, evs).links[i].history
    ensures var l := Run(limit, evs).links[i]; BroadcastTo(limit, evs, l.accountId, l.deviceId, raw)
    decreases |evs|
  {
    hide BroadcastTo;
    var n := |evs| - 1;
    var s, ev := Run(limit, evs[..n]), evs[n];
    assert Run(limit, evs) == Step(limit, s, ev);
    var l := Run(limit, evs).links[i];
    hide Run, FramesFrom;
    if i >= |s.links| {
      NewLinkIsEmpty(limit, s, ev, i);
    } else {
      StepKeepsOwner(limit, s, ev, i);
      if raw in s.links[i].history {
        OnlyOwnFrames(limit, evs[..n], i, raw);
        BroadcastEarlier(limit, evs, n, l.accountId, l.deviceId, raw);
      } else if ev.Broadcast? {
        NewlyLogged(limit, evs, i, raw);
      } else {
        ForeignHistory(limit, s, ev, i);
        var m, k := ResumeStaysWithItsOwner(limit, evs[..n], ev);
        assert evs[..n][..m] == evs[..m];
        OnlyOwnFrames(limit, evs[..m], k, raw);
        BroadcastEarlier(limit, evs, m, l.accountId, l.deviceId, raw);
      }
    }
  }

  lemma NewLinkIsEmpty(limit: nat, s: State, ev: Event, i: nat)
    requires |s.links| <= i < |Step(limit, s, ev).links|
    ensures Step(limit, s, ev).links[i].history == []
  {
    hide ResumeStep;
  }

  lemma NewlyLogged(limit: nat, evs: seq<Event>, i: nat, raw: string)
    requires evs != [] && evs[|evs| - 1].Broadcast? && i < |Run(limit, evs[..|evs| - 1]).links|
    requires i < |Run(limit, evs).links|
    requires raw in Run(limit, evs).links[i].history && raw !in Run(limit, evs[..|evs| - 1]).links[i].history
    ensures var l := Run(limit, evs[..|evs| - 1]).links[i]; BroadcastTo(limit, evs, l.accountId, l.deviceId, raw)
  {
    var s, l := Run(limit, evs[..|evs| - 1]), Run(limit, evs[..|evs| - 1]).links[i];
    assert Run(limit, evs) == Step(limit, s, evs[|evs| - 1]);
    hide Run;
    assert evs[|evs| - 1] == Broadcast(raw) && Reaches(s, i, l.accountId, l.deviceId);
  }

  lemma ForeignHistory(limit: nat, s: State, ev: Event, i: nat)
    requires i < |s.links| && !ev.Broadcast? && Step(limit, s, ev).links[i].history != s.links[i].history
    ensures ev.Resume? && ev.link == i && ev.token != s.links[i].resumeToken
    ensures ev.stored.Some? && ev.stored.value in s.read && ev.stored.value.resumeToken == ev.token
    ensures Step(limit, s, ev).links != s.links
  {
    hide FramesFrom;
  }

  /**
   A client that comes back to a stored line of its own: reading the token and resuming with it in time moves the line
   to its new connection under a new token, and the old token is then found no more.
   */
  lemma ReconnectTakesOver(limit: nat, evs: seq<Event>, t: string, link: nat, lastClientSeq: int, now: int,
                           newToken: string, newExpiry: int)
    requires t in Run(limit, evs).store && link < |Run(limit, evs).links|
    requires var n, l := Run(limit, evs).store[t], Run(limit, evs).links[link];
             n.accountId == l.accountId && n.deviceId == l.deviceId && now <= n.expiresAt && t != l.resumeToken
    ensures var n, l := Run(limit, evs).store[t], Run(limit, evs).links[link];
            var s := Run(limit, evs + [Load(t)] + [Resume(link, t, lastClientSeq, Some(n), now, newToken, newExpiry)]);
            && s.links == Run(limit, evs).links[
                 link := Link(l.accountId, l.deviceId, newToken, newExpiry, |n.history|, n.frames, n.history)]
            && s.store == Run(limit, evs).store - {t}
  {
    RunKeepsInv(limit, evs);
    SnapshotsAreTaken(limit, evs);
    var s, n := Run(limit, evs), Run(limit, evs).store[t];
    SequenceIsLength(limit, n);
    var loaded, resume := evs + [Load(t)], Resume(link, t, lastClientSeq, Some(n), now, newToken, newExpiry);
    assert loaded[..|evs|] == evs && (loaded + [resume])[..|loaded|] == loaded;
    assert Run(limit, loaded) == Step(limit, s, Load(t));
    assert Run(limit, loaded + [resume]) == Step(limit, Run(limit, loaded), resume);
    hide Run, Step, Inv, AllTaken;
    LoadAndResume(limit, s, t, link, lastClientSeq, now, newToken, newExpiry);
  }

  lemma LoadAndResume(limit: nat, s: State, t: string, link: nat, lastClientSeq: int, now: int, newToken: string,
                      newExpiry: int)
    requires t in s.store && link < |s.links| && s.store[t].resumeToken == t
    requires var n, l := s.store[t], s.links[link];
             n.accountId == l.accountId && n.deviceId == l.deviceId && now <= n.expiresAt && t != l.resumeToken
    ensures var n, l := s.store[t], s.links[link];
            var r := Step(limit, Step(limit, s, Load(t)),
                          Resume(link, t, lastClientSeq, Some(n), now, newToken, newExpiry));
            && r.links == s.links[
                 link := Link(l.accountId, l.deviceId, newToken, newExpiry, n.lastServerSeq, n.frames, n.history)]
            && r.store == s.store - {t}
  {
    hide FramesFrom;
  }

  function Registrations(evs: seq<Event>): nat {
    if evs == [] then 0 else Registrations(evs[..|evs| - 1]) + if evs[|evs| - 1].Register? then 1 else 0
  }

  /** The connection object that a client registered last, unless it has closed since; they are numbered as made. */
  function LastRegistered(evs: seq<Event>, clientId: string): Option<nat> {
    if evs == [] then None
    else
      match evs[|evs| - 1]
      case Register(c, _, _, _, _) =>
        if c == clientId then Some(Registrations(evs[..|evs| - 1])) else LastRegistered(evs[..|evs| - 1], clientId)
      case Close(c) => if c == clientId then None else LastRegistered(evs[..|evs| - 1], clientId)
      case _ => LastRegistered(evs[..|evs| - 1], clientId)
  }

  lemma {:induction false} LiveAreRegistered(limit: nat, evs: seq<Event>, clientId: string)
    ensures var s := Run(limit, evs);
            && |s.links| == Registrations(evs)
            && LastRegistered(evs, clientId) == if clientId in s.live then Some(s.live[clientId]) else None
  {
    if evs != [] {
      LiveAreRegistered(limit, evs[..|evs| - 1], clientId);
      hide ResumeStep, LogStep;
    }
  }

  /** In any run a broadcast is logged by what each client registered last and has not closed, and by nothing else. */
  lemma BroadcastReachesRegistered(limit: nat, evs: seq<Event>, raw: string, i: nat)
    requires i < |Run(limit, evs).links|
    ensures i < |Run(limit, evs + [Broadcast(raw)]).links|
    ensures var before, after := Run(limit, evs).links[i], Run(limit, evs + [Broadcast(raw)]).links[i];
            after.history == before.history +
                             if exists c :: LastRegistered(evs, c) == Some(i) then [raw] else []
  {
    assert (evs + [Broadcast(raw)])[..|evs|] == evs;
    var s := Run(limit, evs);
    assert Run(limit, evs + [Broadcast(raw)]) == Step(limit, s, Broadcast(raw));
    hide Run, LastRegistered;
    if i in s.live.Values {
      var c :| c in s.live && s.live[c] == i;
      LiveAreRegistered(limit, evs, c);
    }
    if exists c :: LastRegistered(evs, c) == Some(i) {
      var c :| LastRegistered(evs, c) == Some(i);
      LiveAreRegistered(limit, evs, c);
    }
  }

  // ----- what broadcasts bring -------------------------------------------------------------------------------------

  /** broadcastTo, once for each payload; overloaded(k) says how the socket stands at the k-th. */
  function BroadcastAll(w: Wire, raws: seq<string>, limit: nat, overloaded: nat -> bool): Wire {
    if raws == [] then w
    else
      var n := |raws| - 1;
      BroadcastStep(BroadcastAll(w, raws[..n], limit, overloaded), raws[n], limit, overloaded(n))
  }

  /** The payloads that meet a socket which is not overloaded. */
  function Unhindered(raws: seq<string>, overloaded: nat -> bool): seq<string> {
    if raws == [] then []
    else
      var n := |raws| - 1;
      Unhindered(raws[..n], overloaded) + if overloaded(n) then [] else [raws[n]]
  }

  /** The payloads that meet no overload are sent, in order, and every other one closes the connection with 1013. */
  lemma {:induction false} BroadcastsReach(w: Wire, raws: seq<string>, limit: nat, overloaded: nat -> bool)
    ensures var z, sent := BroadcastAll(w, raws, limit, overloaded), Unhindered(raws, overloaded);
            && |sent| <= |raws| && z.queued == w.queued + sent
            && z.closed == w.closed + seq(|raws| - |sent|, _ => 1013)
  {
    if raws != [] {
      var n := |raws| - 1;
      var y, sent := BroadcastAll(w, raws[..n], limit, overloaded), Unhindered(raws[..n], overloaded);
      BroadcastsReach(w, raws[..n], limit, overloaded);
      OneBroadcast(y, raws[n], limit, overloaded(n));
      assert BroadcastAll(w, raws, limit, overloaded) == BroadcastStep(y, raws[n], limit, overloaded(n));
      assert Unhindered(raws, overloaded) == sent + if overloaded(n) then [] else [raws[n]];
      hide *;
      if overloaded(n) {
        MoreClosed(w.closed, n - |sent|);
      }
    }
  }

  lemma MoreClosed(closed: seq<int>, k: nat)
    ensures closed + seq(k, _ => 1013) + [1013] == closed + seq(k + 1, _ => 1013)
  {
  }

  /** Sent or not, every payload is logged, under the next number. */
  lemma {:induction false} BroadcastsAreLogged(w: Wire, raws: seq<string>, limit: nat, overloaded: nat -> bool)
    ensures var l := BroadcastAll(w, raws, limit, overloaded).link;
            l.history == w.link.history + raws && l.serverSequence == w.link.serverSequence + |raws|
  {
    if raws != [] {
      var n := |raws| - 1;
      var y := BroadcastAll(w, raws[..n], limit, overloaded);
      BroadcastsAreLogged(w, raws[..n], limit, overloaded);
      OneBroadcast(y, raws[n], limit, overloaded(n));
      assert BroadcastAll(w, raws, limit, overloaded) == BroadcastStep(y, raws[n], limit, overloaded(n));
      hide *;
      assert w.link.history + raws[..n] + [raws[n]] == w.link.history + raws;
    }
  }

  /** What the line is after each payload. */
  function SnapshotsAfter(w: Wire, raws: seq<string>, limit: nat, overloaded: nat -> bool): seq<Snapshot> {
    if raws == [] then []
    else
      SnapshotsAfter(w, raws[..|raws| - 1], limit, overloaded) + [Snap(BroadcastAll(w, raws, limit, overloaded).link)]
  }

  /** And after each of them the line is persisted, sent or not. */
  lemma {:induction false} EveryBroadcastIsPersisted(w: Wire, raws: seq<string>, limit: nat, overloaded: nat -> bool)
    ensures BroadcastAll(w, raws, limit, overloaded).persisted ==
            w.persisted + SnapshotsAfter(w, raws, limit, overloaded)
  {
    if raws != [] {
      var n := |raws| - 1;
      EveryBroadcastIsPersisted(w, raws[..n], limit, overloaded);
      OneBroadcast(BroadcastAll(w, raws[..n], limit, overloaded), raws[n], limit, overloaded(n));
      hide BroadcastStep;
    }
  }

  lemma OneBroadcast(y: Wire, raw: string, limit: nat, overloaded: bool)
    ensures var z := BroadcastStep(y, raw, limit, overloaded);
            && z.queued == y.queued + (if overloaded then [] else [raw])
            && z.closed == y.closed + (if overloaded then [1013] else [])
            && z.link.history == y.link.history + [raw] && z.link.serverSequence == y.link.serverSequence + 1
            && z.persisted == y.persisted + [Snap(z.link)]
  {
  }

  // ----- what a resume forgets -------------------------------------------------------------------------------------

  ghost predicate NumberUsed(history: seq<string>, n: int) {
    exists i :: 0 <= i < |Numbered(history)| && Numbered(history)[i].seq_ == n
  }

  /**
   A resume with another connection's token replaces what this connection has logged since it was registered by the
   stored log.  Its next frame gets a number that this connection has already given to another one exactly when the
   stored line was behind its own.
   */
  lemma ForeignResumeRenumbers(limit: nat, evs: seq<Event>, ev: Event, raw: string)
    requires ev.Resume? && ev.link < |Run(limit, evs).links|
    requires ev.stored.Some? && ev.stored.value in Run(limit, evs).read
    ensures var l := Run(limit, evs).links[ev.link];
            var r := ResumeStep(l, ev.token, ev.lastClientSeq, ev.stored, ev.now, ev.newToken, ev.newExpiry);
            ev.token != l.resumeToken && r.Resumed? ==>
              && r.link.log == ev.stored.value.frames && r.link.history == ev.stored.value.history
              && (NumberUsed(l.history, LogStep(r.link, raw, limit).serverSequence) <==>
                    |ev.stored.value.history| < |l.history|)
  {
    hide Run, LinkHolds, SnapshotHolds, FramesFrom, Inv;
    RunKeepsInv(limit, evs);
    var s := Run(limit, evs);
    var l := s.links[ev.link];
    InvOf(limit, s, ev.link, ev.stored);
    SequenceIsLength(limit, ev.stored.value);
    NumbersUsed(l.history, |ev.stored.value.history| + 1);
  }

  lemma SequenceIsLength(limit: nat, n: Snapshot)
    requires SnapshotHolds(limit, n)
    ensures n.lastServerSeq == |n.history|
  {
  }

  lemma NumbersUsed(history: seq<string>, n: nat)
    requires n >= 1
    ensures NumberUsed(history, n) <==> n <= |history|
  {
    var all := Numbered(history);
    assert |all| == |history| && forall i :: 0 <= i < |all| ==> all[i].seq_ == i + 1;
    if n <= |history| {
      assert all[n - 1].seq_ == n;
    }
  }

  lemma GoesOn(limit: nat, evs: seq<Event>, s: State, ev: Event) returns (more: seq<Event>)
    requires Run(limit, evs) == s
    ensures Run(limit, more) == Step(limit, s, ev)
  {
    more := evs + [ev];
    assert more[..|evs|] == evs;
  }

  predicate Second(s: State, l: Link) {
    |s.links| == 2 && s.links[1] == l
  }

  /**
   A run in which a frame that was logged before the resume is afterwards in no log, and its number is given again.
   */
  lemma {:induction false} FrameForgotten(limit: nat, x: string, y: string)
    returns (evs: seq<Event>, resumed: seq<Event>, on: seq<Event>)
    requires limit >= 1
    ensures var before, after, later := Run(limit, evs), Run(limit, resumed), Run(limit, on);
            && Second(before, Link("a", "d", "t1", 10, 1, [Frame(1, x)], [x]))
            && Second(after, Link("a", "d", "t2", 20, 0, [], []))
            && Second(later, Link("a", "d", "t2", 20, 1, [Frame(1, y)], [y]))
  {
    hide Run, LogStep, ResumeStep;
    var first := Link("a", "d", "t0", 10, 0, [], []);
    var fresh0, fresh1 := Link("a", "d", "t1", 10, 0, [], []), Link("a", "d", "t1", 10, 1, [Frame(1, x)], [x]);
    var moved0, moved1 := Link("a", "d", "t2", 20, 0, [], []), Link("a", "d", "t2", 20, 1, [Frame(1, y)], [y]);
    var n := Snap(first);
    EmptyRun(limit);
    evs := GoesOn(limit, [], Start(), Register("c", "a", "d", "t0", 10));
    evs := GoesOn(limit, evs, State([first], map["c" := 0], {}, map[], {}), Persist(0));
    evs := GoesOn(limit, evs, State([first], map["c" := 0], {n}, map[], {}), Written(n));
    evs := GoesOn(limit, evs, State([first], map["c" := 0], {n}, map["t0" := n], {}),
                  Register("c", "a", "d", "t1", 10));
    evs := GoesOn(limit, evs, State([first, fresh0], map["c" := 1], {n}, map["t0" := n], {}), Load("t0"));
    var s := State([first, fresh0], map["c" := 1], {n}, map["t0" := n], {n});
    FirstFrame(limit, fresh0, x);
    OnlySecond(limit, s, x, fresh1);
    evs := GoesOn(limit, evs, s, Broadcast(x));
    var t := s.(links := [first, fresh1]);
    ResumeOfNone(limit, t, n, moved0);
    resumed := GoesOn(limit, evs, t, Resume(1, "t0", 0, Some(n), 0, "t2", 20));
    var u := t.(links := [first, moved0], store := t.store - {"t0"});
    FirstFrame(limit, moved0, y);
    OnlySecond(limit, u, y, moved1);
    on := GoesOn(limit, resumed, u, Broadcast(y));
  }

  lemma EmptyRun(limit: nat)
    ensures Run(limit, []) == Start()
  {
  }

  /** The second connection resumes with the first one's token, whose stored log is empty. */
  lemma ResumeOfNone(limit: nat, s: State, n: Snapshot, moved: Link)
    requires |s.links| == 2 && n in s.read && n == Snapshot("t0", "a", "d", 0, 10, [], [])
    requires s.links[1].resumeToken == "t1" && s.links[1].accountId == "a" && s.links[1].deviceId == "d"
    requires moved == Link("a", "d", "t2", 20, 0, [], [])
    ensures Step(limit, s, Resume(1, "t0", 0, Some(n), 0, "t2", 20)) ==
            s.(links := [s.links[0], moved], store := s.store - {"t0"})
  {
    assert "t0"[1] != "t1"[1];
    assert ResumeStep(s.links[1], "t0", 0, Some(n), 0, "t2", 20) == Resumed(moved, Ack(1, 20, "t2"), [], true);
    assert s.links[1 := moved] == [s.links[0], moved];
  }

  lemma FirstFrame(limit: nat, l: Link, raw: string)
    requires limit >= 1 && l.serverSequence == 0 && l.log == [] && l.history == []
    ensures LogStep(l, raw, limit) == l.(serverSequence := 1, log := [Frame(1, raw)], history := [raw])
  {
  }

  lemma OnlySecond(limit: nat, s: State, raw: string, after: Link)
    requires |s.links| == 2 && s.live == map["c" := 1] && LogStep(s.links[1], raw, limit) == after
    ensures Step(limit, s, Broadcast(raw)) == s.(links := [s.links[0], after])
  {
    hide LogStep;
    assert s.live["c"] == 1;
    assert Step(limit, s, Broadcast(raw)).links == [s.links[0], after];
  }
}
