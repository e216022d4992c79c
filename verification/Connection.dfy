/**
 The outbound queue of one WebSocket connection, packages/transport/src/connection.ts.

 `flush` is a loop that may stop at an `await`; `enqueue`, the socket's error callbacks and further `flush` calls run in
 between.  The machine below lets them run between any two iterations, which allows every order the event loop can
 produce.
 */
module Connection {
  import opened Common

  /** How a call of the socket's send function ends before it gives control back. */
  datatype Send = Returned | CalledBackWithError | Threw | Promised

  datatype Next = Again | Ended | Suspended

  /** The three fields, what the send function has been handed, and the codes the socket was closed with. */
  datatype Core = Core(queue: seq<string>, sending: bool, fatal: bool, handed: seq<string>, closed: seq<int>)

  const OVERLOADED := 1013
  const SEND_FAILURE := 1011

  function Fail(c: Core): Core {
    if c.fatal then c else c.(fatal := true, queue := [], closed := c.closed + [SEND_FAILURE])
  }

  function AfterSend(c: Core): (Core, Next) {
    if c.fatal then (c.(sending := false), Ended) else (c, Again)
  }

  /** One turn of the loop; an empty payload is falsy and ends it. */
  function Iterate(c: Core, send: Send): (Core, Next) {
    if c.queue == [] then (c.(sending := false), Ended)
    else if c.queue[0] == "" then (c.(queue := c.queue[1..], sending := false), Ended)
    else
      var d := c.(queue := c.queue[1..], handed := c.handed + [c.queue[0]]);
      match send
      case Returned => AfterSend(d)
      case CalledBackWithError => AfterSend(Fail(d))
      case Threw => (Fail(d).(sending := false), Ended)
      case Promised => (d, Suspended)
  }

  /** The continuation of a turn that was suspended on a promise. */
  function Settle(c: Core, rejected: bool): (Core, Next) {
    if rejected then (Fail(c).(sending := false), Ended) else AfterSend(c)
  }

  predicate Accepts(c: Core, maxQueueLength: nat) {
    |c.queue| < maxQueueLength && !c.fatal
  }

  /** The part of `enqueue` before it looks at the loop. */
  function Offer(c: Core, maxQueueLength: nat, payload: string): Core {
    if |c.queue| >= maxQueueLength then c.(closed := c.closed + [OVERLOADED])
    else if c.fatal then c
    else c.(queue := c.queue + [payload])
  }

  /** Turns from the loop's top until it ends or is suspended, where sends[k] is how the k-th send goes. */
  function Loop(c: Core, sends: seq<Send>): (Core, Next)
    requires |c.queue| < |sends|
    decreases |c.queue|
  {
    var (d, next) := Iterate(c, sends[0]);
    if next == Again then Loop(d, sends[1..]) else (d, next)
  }

  class Connection {
    const maxQueueLength: nat
    var sendQueue: seq<string>
    var sending: bool
    var hadFatalSendError: bool
    var handed: seq<string>
    var closed: seq<int>

    constructor (maxQueueLength: nat)
      ensures this.maxQueueLength == maxQueueLength && Value() == Core([], false, false, [], [])
    {
      this.maxQueueLength := maxQueueLength;
      sendQueue, sending, hadFatalSendError, handed, closed := [], false, false, [], [];
    }

    function Value(): Core
      reads this
    {
      Core(sendQueue, sending, hadFatalSendError, handed, closed)
    }

    method HandleSendFailure()
      modifies this
      ensures Value() == Fail(old(Value()))
    {
      if hadFatalSendError {
        return;
      }
      hadFatalSendError := true;
      sendQueue := [];
      closed := closed + [SEND_FAILURE];
    }

    /** The loop of `flush` from its top; it reports whether it ended or waits for a promise. */
    method RunLoop(sends: seq<Send>) returns (next: Next)
      requires |sendQueue| < |sends|
      modifies this
      ensures (Value(), next) == Loop(old(Value()), sends) && next != Again
    {
      var turn: nat := 0;
      while sendQueue != []
        invariant |sendQueue| < |sends| - turn
        invariant Loop(Value(), sends[turn..]) == Loop(old(Value()), sends)
        decreases |sendQueue|
      {
        ghost var before := Value();
        var payload := sendQueue[0];
        sendQueue := sendQueue[1..];
        if payload == "" {
          break;
        }
        handed := handed + [payload];
        match sends[turn] {
          case Promised =>
            return Suspended;
          case Threw =>
            HandleSendFailure();
            break;
          case CalledBackWithError =>
            HandleSendFailure();
          case Returned =>
        }
        if hadFatalSendError {
          break;
        }
        assert Iterate(before, sends[turn]) == (Value(), Again);
        turn := turn + 1;
      }
      sending := false;
      return Ended;
    }

    method Flush(sends: seq<Send>) returns (next: Next)
      requires |sendQueue| < |sends|
      modifies this
      ensures (Value(), next) ==
              if old(sending || hadFatalSendError) then (old(Value()), Ended)
              else Loop(old(Value()).(sending := true), sends)
    {
      if sending || hadFatalSendError {
        return Ended;
      }
      sending := true;
      next := RunLoop(sends);
    }

    /** What follows the `await` of a suspended turn, up to the loop's end or its next suspension. */
    method Resume(rejected: bool, sends: seq<Send>) returns (next: Next)
      requires |sendQueue| < |sends|
      modifies this
      ensures var (c, n) := Settle(old(Value()), rejected);
              (Value(), next) == if n == Again then Loop(c, sends) else (c, n)
    {
      if rejected {
        HandleSendFailure();
      }
      if rejected || hadFatalSendError {
        sending := false;
        return Ended;
      }
      next := RunLoop(sends);
    }

    method Enqueue(payload: string, sends: seq<Send>) returns (accepted: bool, next: Next)
      requires |sendQueue| + 1 < |sends|
      modifies this
      ensures accepted == Accepts(old(Value()), maxQueueLength)
      ensures var c := Offer(old(Value()), maxQueueLength, payload);
              (Value(), next) == if accepted && !c.sending then Loop(c.(sending := true), sends) else (c, Ended)
    {
      if |sendQueue| >= maxQueueLength {
        closed := closed + [OVERLOADED];
        return false, Ended;
      }
      if hadFatalSendError {
        return false, Ended;
      }
      sendQueue := sendQueue + [payload];
      accepted, next := true, Ended;
      if !sending {
        next := Flush(sends);
      }
    }
  }

  // ----- the machine -----------------------------------------------------------------------------------------------

  /** Where one call of `flush` stands. */
  datatype Pc = AtTop | Awaiting | Over

  datatype State = State(core: Core, accepted: seq<string>, loops: seq<Pc>)

  datatype Event =
    | Enqueue(payload: string)
    | Flush
    | Turn(loop: nat, send: Send)
    | Settled(loop: nat, rejected: bool)
    | ErrorCallback

  function PcAfter(next: Next): Pc {
    match next
    case Again => AtTop
    case Suspended => Awaiting
    case Ended => Over
  }

  function StartLoop(s: State): State {
    if s.core.sending || s.core.fatal then s
    else s.(core := s.core.(sending := true), loops := s.loops + [AtTop])
  }

  function Step(maxQueueLength: nat, s: State, ev: Event): State {
    match ev
    case Enqueue(p) =>
      var t := s.(core := Offer(s.core, maxQueueLength, p));
      if Accepts(s.core, maxQueueLength) then StartLoop(t.(accepted := s.accepted + [p])) else t
    case Flush => StartLoop(s)
    case Turn(l, send) =>
      if l < |s.loops| && s.loops[l] == AtTop then
        var (c, next) := Iterate(s.core, send);
        s.(core := c, loops := s.loops[l := PcAfter(next)])
      else s
    case Settled(l, rejected) =>
      if l < |s.loops| && s.loops[l] == Awaiting then
        var (c, next) := Settle(s.core, rejected);
        s.(core := c, loops := s.loops[l := PcAfter(next)])
      else s
    case ErrorCallback => s.(core := Fail(s.core))
  }

  function Start(): State {
    State(Core([], false, false, [], []), [], [])
  }

  function Run(maxQueueLength: nat, s: State, evs: seq<Event>): State {
    if evs == [] then s else Step(maxQueueLength, Run(maxQueueLength, s, evs[..|evs| - 1]), evs[|evs| - 1])
  }

  lemma IterateTakes(c: Core, send: Send)
    ensures Iterate(c, send).1 == Again ==> |Iterate(c, send).0.queue| < |c.queue|
  {
  }

  /** A run of the code's loop is a run of the machine: one `Turn` for each send it makes, and a last one to stop. */
  lemma {:induction false} LoopIsTurns(maxQueueLength: nat, s: State, l: nat, sends: seq<Send>)
    returns (evs: seq<Event>)
    requires l < |s.loops| && s.loops[l] == AtTop && |s.core.queue| < |sends|
    ensures var (c, next) := Loop(s.core, sends);
            Run(maxQueueLength, s, evs) == s.(core := c, loops := s.loops[l := PcAfter(next)])
    ensures |evs| <= |s.core.queue| + 1 && forall i :: 0 <= i < |evs| ==> evs[i] == Turn(l, sends[i])
    decreases |s.core.queue|
  {
    IterateTakes(s.core, sends[0]);
    hide Iterate, Accepts, Offer, Settle;
    var (d, next) := Iterate(s.core, sends[0]);
    var first := Turn(l, sends[0]);
    var t := s.(core := d, loops := s.loops[l := PcAfter(next)]);
    assert [first][..0] == [] && Run(maxQueueLength, s, [first]) == t;
    if next == Again {
      var rest := LoopIsTurns(maxQueueLength, t, l, sends[1..]);
      evs := [first] + rest;
      RunFrom(maxQueueLength, s, [first], rest);
      assert t.loops[l := AtTop] == t.loops;
    } else {
      evs := [first];
    }
  }

  lemma {:induction false} RunFrom(maxQueueLength: nat, s: State, a: seq<Event>, b: seq<Event>)
    ensures Run(maxQueueLength, s, a + b) == Run(maxQueueLength, Run(maxQueueLength, s, a), b)
  {
    if b == [] {
      assert a + b == a;
    } else {
      assert (a + b)[..|a + b| - 1] == a + b[..|b| - 1];
      RunFrom(maxQueueLength, s, a, b[..|b| - 1]);
    }
  }

  // ----- what every run keeps --------------------------------------------------------------------------------------

  function NonEmpty(ps: seq<string>): seq<string> {
    if ps == [] then []
    else NonEmpty(ps[..|ps| - 1]) + if ps[|ps| - 1] == "" then [] else [ps[|ps| - 1]]
  }

  lemma {:induction false} NonEmptyAppends(a: seq<string>, b: seq<string>)
    ensures NonEmpty(a + b) == NonEmpty(a) + NonEmpty(b)
  {
    if b == [] {
      assert a + b == a;
    } else {
      assert (a + b)[..|a + b| - 1] == a + b[..|b| - 1];
      NonEmptyAppends(a, b[..|b| - 1]);
    }
  }

  ghost predicate OneLoop(s: State) {
    && (forall i, j :: 0 <= i < j < |s.loops| ==> s.loops[i] == Over || s.loops[j] == Over)
    && (s.core.sending <==> exists i :: 0 <= i < |s.loops| && s.loops[i] != Over)
  }

  ghost predicate InOrder(s: State) {
    if s.core.fatal then s.core.queue == [] && s.core.handed <= NonEmpty(s.accepted)
    else s.core.handed + NonEmpty(s.core.queue) == NonEmpty(s.accepted)
  }

  /** Nothing lies in the queue with no loop to take it, unless an empty payload has stopped a loop. */
  ghost predicate NothingStranded(s: State) {
    !s.core.sending && "" !in s.accepted ==> s.core.queue == []
  }

  ghost predicate Inv(maxQueueLength: nat, s: State) {
    OneLoop(s) && InOrder(s) && NothingStranded(s) && |s.core.queue| <= maxQueueLength &&
    (forall p :: p in s.core.queue ==> p in s.accepted)
  }

  lemma StartLoopKeepsInv(maxQueueLength: nat, s: State)
    requires OneLoop(s) && InOrder(s) && |s.core.queue| <= maxQueueLength
    requires forall p :: p in s.core.queue ==> p in s.accepted
    ensures Inv(maxQueueLength, StartLoop(s))
  {
    var t := StartLoop(s);
    if t != s {
      assert t.loops[|s.loops|] == AtTop;
    }
  }

  lemma FailKeepsInv(maxQueueLength: nat, s: State)
    requires Inv(maxQueueLength, s)
    ensures Inv(maxQueueLength, s.(core := Fail(s.core)))
  {
    assert s.core.handed <= s.core.handed + NonEmpty(s.core.queue);
  }

  /** Ending or continuing the one loop. */
  lemma LoopMoves(s: State, l: nat, c: Core, next: Next)
    requires OneLoop(s) && l < |s.loops| && s.loops[l] != Over && c.sending == (next != Ended)
    ensures OneLoop(s.(core := c, loops := s.loops[l := PcAfter(next)]))
  {
    var t := s.(core := c, loops := s.loops[l := PcAfter(next)]);
    assert forall i :: 0 <= i < |s.loops| && i != l ==> t.loops[i] == Over;
    assert next != Ended ==> t.loops[l] != Over;
  }

  lemma TakeHead(s: State, c: Core)
    requires InOrder(s) && s.core.queue != [] && !c.fatal && c.queue == s.core.queue[1..]
    requires c.handed == s.core.handed + if s.core.queue[0] == "" then [] else [s.core.queue[0]]
    ensures InOrder(s.(core := c))
  {
    assert s.core.queue == [s.core.queue[0]] + c.queue;
    NonEmptyAppends([s.core.queue[0]], c.queue);
    assert NonEmpty([s.core.queue[0]]) == if s.core.queue[0] == "" then [] else [s.core.queue[0]];
  }

  lemma EnqueueKeepsInv(maxQueueLength: nat, s: State, p: string)
    requires Inv(maxQueueLength, s)
    ensures Inv(maxQueueLength, Step(maxQueueLength, s, Enqueue(p)))
  {
    if Accepts(s.core, maxQueueLength) {
      NonEmptyAppends(s.core.queue, [p]);
      NonEmptyAppends(s.accepted, [p]);
      StartLoopKeepsInv(maxQueueLength, s.(core := Offer(s.core, maxQueueLength, p), accepted := s.accepted + [p]));
    }
  }

  lemma SettledKeepsInv(maxQueueLength: nat, s: State, l: nat, rejected: bool)
    requires Inv(maxQueueLength, s) && l < |s.loops| && s.loops[l] == Awaiting
    ensures Inv(maxQueueLength, Step(maxQueueLength, s, Settled(l, rejected)))
  {
    var (c, next) := Settle(s.core, rejected);
    FailKeepsInv(maxQueueLength, s);
    LoopMoves(s, l, c, next);
    hide OneLoop;
  }

  lemma StepKeepsInv(maxQueueLength: nat, s: State, ev: Event)
    requires Inv(maxQueueLength, s)
    ensures Inv(maxQueueLength, Step(maxQueueLength, s, ev))
  {
    match ev
    case Enqueue(p) => EnqueueKeepsInv(maxQueueLength, s, p);
    case Flush => StartLoopKeepsInv(maxQueueLength, s);
    case Turn(l, send) =>
      if l < |s.loops| && s.loops[l] == AtTop {
        TurnKeepsInv(maxQueueLength, s, l, send);
      }
    case Settled(l, rejected) =>
      if l < |s.loops| && s.loops[l] == Awaiting {
        SettledKeepsInv(maxQueueLength, s, l, rejected);
      }
    case ErrorCallback => FailKeepsInv(maxQueueLength, s);
    hide OneLoop, InOrder, NothingStranded, Iterate, Settle, StartLoop;
  }

  lemma TurnKeepsInv(maxQueueLength: nat, s: State, l: nat, send: Send)
    requires Inv(maxQueueLength, s) && l < |s.loops| && s.loops[l] == AtTop
    ensures Inv(maxQueueLength, Step(maxQueueLength, s, Turn(l, send)))
  {
    var (c, next) := Iterate(s.core, send);
    LoopMoves(s, l, c, next);
    if s.core.queue != [] {
      var taken := s.core.queue[0];
      var d := s.core.(queue := s.core.queue[1..], handed := s.core.handed + if taken == "" then [] else [taken]);
      TakeHead(s, d);
      assert d.handed <= d.handed + NonEmpty(d.queue);
    }
  }

  lemma {:induction false} RunKeepsInv(maxQueueLength: nat, evs: seq<Event>)
    ensures Inv(maxQueueLength, Run(maxQueueLength, Start(), evs))
  {
    if evs != [] {
      RunKeepsInv(maxQueueLength, evs[..|evs| - 1]);
      StepKeepsInv(maxQueueLength, Run(maxQueueLength, Start(), evs[..|evs| - 1]), evs[|evs| - 1]);
    }
  }

  /**
   What the send function has been handed, in order, is what was accepted: a prefix, with nothing skipped or repeated.
   */
  lemma HandedInAcceptanceOrder(maxQueueLength: nat, evs: seq<Event>)
    ensures var s := Run(maxQueueLength, Start(), evs);
            && s.core.handed <= NonEmpty(s.accepted)
            && |s.core.queue| <= maxQueueLength
            && (!s.core.fatal && !s.core.sending && "" !in s.accepted ==> s.core.handed == s.accepted)
  {
    RunKeepsInv(maxQueueLength, evs);
    var s := Run(maxQueueLength, Start(), evs);
    if "" !in s.accepted {
      AllNonEmpty(s.accepted);
    }
  }

  lemma {:induction false} AllNonEmpty(ps: seq<string>)
    requires "" !in ps
    ensures NonEmpty(ps) == ps
  {
    if ps != [] {
      AllNonEmpty(ps[..|ps| - 1]);
    }
  }

  /** At most one loop is ever under way, and `sending` says whether one is. */
  lemma OneLoopAtATime(maxQueueLength: nat, evs: seq<Event>)
    ensures OneLoop(Run(maxQueueLength, Start(), evs))
  {
    RunKeepsInv(maxQueueLength, evs);
  }

  lemma FailedStepIsSilent(maxQueueLength: nat, s: State, ev: Event)
    requires s.core.fatal && s.core.queue == []
    ensures var t := Step(maxQueueLength, s, ev);
            t.core.fatal && t.core.handed == s.core.handed && t.accepted == s.accepted && |t.loops| == |s.loops|
  {
  }

  lemma {:induction false} FailureLasts(maxQueueLength: nat, evs: seq<Event>, more: seq<Event>)
    requires Run(maxQueueLength, Start(), evs).core.fatal
    ensures var s := Run(maxQueueLength, Start(), evs); var t := Run(maxQueueLength, Start(), evs + more);
            t.core.fatal && t.core.handed == s.core.handed && t.accepted == s.accepted && |t.loops| == |s.loops|
  {
    if more == [] {
      assert evs + more == evs;
    } else {
      var front := evs + more[..|more| - 1];
      assert (evs + more)[..|evs + more| - 1] == front;
      FailureLasts(maxQueueLength, evs, more[..|more| - 1]);
      RunKeepsInv(maxQueueLength, front);
      hide OneLoop, NothingStranded, NonEmpty, Step;
      FailedStepIsSilent(maxQueueLength, Run(maxQueueLength, Start(), front), more[|more| - 1]);
    }
  }

  /**
   Once a failure is recorded nothing more is handed over and nothing more is accepted, whatever happens next; no loop
   begins, and the one under way ends as soon as it goes on.
   */
  lemma SilentAfterFailure(maxQueueLength: nat, evs: seq<Event>, more: seq<Event>, l: nat, ev: Event)
    requires Run(maxQueueLength, Start(), evs).core.fatal
    ensures var s := Run(maxQueueLength, Start(), evs); var t := Run(maxQueueLength, Start(), evs + more);
            && t.core.fatal && t.core.handed == s.core.handed && t.accepted == s.accepted && |t.loops| == |s.loops|
            && (l < |t.loops| && ((ev.Turn? && ev.loop == l && t.loops[l] == AtTop) ||
                                  (ev.Settled? && ev.loop == l && t.loops[l] == Awaiting)) ==>
                  Step(maxQueueLength, t, ev).loops == t.loops[l := Over])
  {
    FailureLasts(maxQueueLength, evs, more);
    RunKeepsInv(maxQueueLength, evs + more);
    hide Run, OneLoop, NothingStranded, NonEmpty;
  }

  // ----- successful sends drain the queue --------------------------------------------------------------------------

  /** The events of one send that succeeds, at once or after an await. */
  function Succeeds(l: nat, awaited: bool): seq<Event> {
    if awaited then [Turn(l, Promised), Settled(l, false)] else [Turn(l, Returned)]
  }

  function AllSucceed(l: nat, awaited: seq<bool>): seq<Event> {
    if awaited == [] then [] else Succeeds(l, awaited[0]) + AllSucceed(l, awaited[1..])
  }

  lemma OneSucceeds(maxQueueLength: nat, s: State, l: nat, awaited: bool)
    requires l < |s.loops| && s.loops[l] == AtTop && !s.core.fatal && s.core.queue != [] && s.core.queue[0] != ""
    ensures Run(maxQueueLength, s, Succeeds(l, awaited)) ==
            s.(core := s.core.(queue := s.core.queue[1..], handed := s.core.handed + [s.core.queue[0]]))
  {
    assert s.loops[l := AtTop] == s.loops && s.loops[l := Awaiting][l := AtTop] == s.loops;
    if awaited {
      TwoSteps(maxQueueLength, s, Turn(l, Promised), Settled(l, false));
    } else {
      OneStep(maxQueueLength, s, Turn(l, Returned));
    }
  }

  lemma OneStep(maxQueueLength: nat, s: State, a: Event)
    ensures Run(maxQueueLength, s, [a]) == Step(maxQueueLength, s, a)
  {
    assert [a][..0] == [];
  }

  lemma TwoSteps(maxQueueLength: nat, s: State, a: Event, b: Event)
    ensures Run(maxQueueLength, s, [a, b]) == Step(maxQueueLength, Step(maxQueueLength, s, a), b)
  {
    assert [a, b][..1] == [a];
    OneStep(maxQueueLength, s, a);
  }

  lemma {:induction false} SuccessesHandOver(maxQueueLength: nat, s: State, l: nat, awaited: seq<bool>)
    requires l < |s.loops| && s.loops[l] == AtTop && !s.core.fatal && "" !in s.core.queue
    requires |awaited| <= |s.core.queue|
    ensures Run(maxQueueLength, s, AllSucceed(l, awaited)) ==
            s.(core := s.core.(queue := s.core.queue[|awaited|..],
                               handed := s.core.handed + s.core.queue[..|awaited|]))
    decreases |awaited|
  {
    var q := s.core.queue;
    if awaited == [] {
      assert s.core.handed + q[..0] == s.core.handed;
    } else {
      hide Step, Run, Succeeds;
      assert q[0] in q;
      OneSucceeds(maxQueueLength, s, l, awaited[0]);
      var t := s.(core := s.core.(queue := q[1..], handed := s.core.handed + [q[0]]));
      RunFrom(maxQueueLength, s, Succeeds(l, awaited[0]), AllSucceed(l, awaited[1..]));
      SuccessesHandOver(maxQueueLength, t, l, awaited[1..]);
      RestOf(s.core.handed, q, |awaited|);
    }
  }

  lemma RestOf(handed: seq<string>, q: seq<string>, n: nat)
    requires 1 <= n <= |q|
    ensures q[1..][n - 1..] == q[n..] && handed + [q[0]] + q[1..][..n - 1] == handed + q[..n]
  {
  }

  /**
   A loop goes on after every send that succeeds, awaited or not: it hands the whole queue over, in order, and ends, and
   the next `enqueue` starts another.
   */
  lemma SuccessfulSendsDrain(maxQueueLength: nat, s: State, l: nat, awaited: seq<bool>, last: Send)
    requires l < |s.loops| && s.loops[l] == AtTop && !s.core.fatal && "" !in s.core.queue
    requires |awaited| == |s.core.queue|
    ensures Run(maxQueueLength, s, AllSucceed(l, awaited) + [Turn(l, last)]) ==
            State(Core([], false, false, s.core.handed + s.core.queue, s.core.closed), s.accepted, s.loops[l := Over])
  {
    var evs := AllSucceed(l, awaited);
    SuccessesHandOver(maxQueueLength, s, l, awaited);
    assert s.core.queue[..|awaited|] == s.core.queue;
    assert (evs + [Turn(l, last)])[..|evs|] == evs;
  }

  /** In the code's own terms: with sends that return, the loop of `flush` hands the whole queue over and ends. */
  lemma {:induction false} LoopDrains(c: Core, sends: seq<Send>)
    requires !c.fatal && "" !in c.queue && |c.queue| < |sends|
    requires forall k :: 0 <= k < |c.queue| ==> sends[k] == Returned
    ensures Loop(c, sends) == (Core([], false, false, c.handed + c.queue, c.closed), Ended)
    decreases |c.queue|
  {
    if c.queue != [] {
      assert c.queue[0] in c.queue;
      var d := c.(queue := c.queue[1..], handed := c.handed + [c.queue[0]]);
      LoopDrains(d, sends[1..]);
      assert d.handed + d.queue == c.handed + c.queue;
    } else {
      assert c.handed + c.queue == c.handed;
    }
  }

  // ----- one send at a time ----------------------------------------------------------------------------------------

  /** Loop l waits for a promise, and no other is under way. */
  ghost predicate Awaits(s: State, l: nat) {
    && l < |s.loops| && s.loops[l] == Awaiting && s.core.sending
    && forall i :: 0 <= i < |s.loops| && i != l ==> s.loops[i] == Over
  }

  lemma AwaitingStep(maxQueueLength: nat, s: State, l: nat, ev: Event)
    requires Awaits(s, l) && (ev.Settled? ==> ev.loop != l)
    ensures var t := Step(maxQueueLength, s, ev); Awaits(t, l) && t.core.handed == s.core.handed
  {
  }

  /**
   While a send is awaited nothing else is handed to the socket, whatever is enqueued, flushed or reported meanwhile.
   */
  lemma {:induction false} OneSendAtATime(maxQueueLength: nat, evs: seq<Event>, l: nat, more: seq<Event>)
    requires var s := Run(maxQueueLength, Start(), evs); l < |s.loops| && s.loops[l] == AtTop && s.core.queue != []
    requires Run(maxQueueLength, Start(), evs).core.queue[0] != ""
    requires forall i :: 0 <= i < |more| && more[i].Settled? ==> more[i].loop != l
    ensures var s := Run(maxQueueLength, Start(), evs);
            var t := Run(maxQueueLength, Start(), evs + [Turn(l, Promised)] + more);
            t.core.handed == s.core.handed + [s.core.queue[0]] && Awaits(t, l)
    decreases |more|
  {
    var first := evs + [Turn(l, Promised)];
    hide Step, Awaits;
    if more == [] {
      assert first + more == first && first[..|evs|] == evs;
      RunKeepsInv(maxQueueLength, evs);
      hide Run, InOrder, NothingStranded;
      AwaitingStarts(maxQueueLength, Run(maxQueueLength, Start(), evs), l);
    } else {
      var n := |more| - 1;
      OneSendAtATime(maxQueueLength, evs, l, more[..n]);
      assert (first + more)[..|first| + n] == first + more[..n];
      AwaitingStep(maxQueueLength, Run(maxQueueLength, Start(), first + more[..n]), l, more[n]);
    }
  }

  lemma AwaitingStarts(maxQueueLength: nat, s: State, l: nat)
    requires OneLoop(s) && l < |s.loops| && s.loops[l] == AtTop && s.core.queue != [] && s.core.queue[0] != ""
    ensures var t := Step(maxQueueLength, s, Turn(l, Promised));
            Awaits(t, l) && t.core.handed == s.core.handed + [s.core.queue[0]]
  {
  }

  // ----- what a connection is closed with --------------------------------------------------------------------------

  /** This event reports a failed send: of the payload a turn takes, of the send awaited, or of any sent before. */
  predicate ReportsFailure(s: State, ev: Event) {
    match ev
    case Turn(l, send) =>
      && l < |s.loops| && s.loops[l] == AtTop && s.core.queue != [] && s.core.queue[0] != ""
      && (send == CalledBackWithError || send == Threw)
    case Settled(l, rejected) => rejected && l < |s.loops| && s.loops[l] == Awaiting
    case ErrorCallback => true
    case _ => false
  }

  /** How many of the run's payloads found the queue full. */
  function FoundFull(maxQueueLength: nat, evs: seq<Event>): nat {
    if evs == [] then 0
    else
      var front, last := evs[..|evs| - 1], evs[|evs| - 1];
      FoundFull(maxQueueLength, front) +
      if last.Enqueue? && |Run(maxQueueLength, Start(), front).core.queue| >= maxQueueLength then 1 else 0
  }

  ghost predicate SomeSendFailed(maxQueueLength: nat, evs: seq<Event>) {
    exists n :: 0 <= n < |evs| && ReportsFailure(Run(maxQueueLength, Start(), evs[..n]), evs[n])
  }

  function Count(codes: seq<int>, code: int): nat {
    if codes == [] then 0 else Count(codes[..|codes| - 1], code) + if codes[|codes| - 1] == code then 1 else 0
  }

  lemma StepCloses(maxQueueLength: nat, s: State, ev: Event)
    ensures var t := Step(maxQueueLength, s, ev);
            && (t.core.fatal <==> s.core.fatal || ReportsFailure(s, ev))
            && t.core.closed == s.core.closed + if ev.Enqueue? && |s.core.queue| >= maxQueueLength then [1013]
                                                else if t.core.fatal && !s.core.fatal then [1011] else []
  {
  }

  lemma SomeSendFailedStep(maxQueueLength: nat, evs: seq<Event>)
    requires evs != []
    ensures var n := |evs| - 1;
            SomeSendFailed(maxQueueLength, evs) <==>
            SomeSendFailed(maxQueueLength, evs[..n]) || ReportsFailure(Run(maxQueueLength, Start(), evs[..n]), evs[n])
  {
    hide Run, ReportsFailure;
    var n := |evs| - 1;
    forall k | 0 <= k < n ensures evs[..n][..k] == evs[..k] && evs[..n][k] == evs[k] {
    }
    if SomeSendFailed(maxQueueLength, evs) {
      var k :| 0 <= k < |evs| && ReportsFailure(Run(maxQueueLength, Start(), evs[..k]), evs[k]);
      assert k < n ==> ReportsFailure(Run(maxQueueLength, Start(), evs[..n][..k]), evs[..n][k]);
    }
    if SomeSendFailed(maxQueueLength, evs[..n]) {
      var k :| 0 <= k < n && ReportsFailure(Run(maxQueueLength, Start(), evs[..n][..k]), evs[..n][k]);
      assert ReportsFailure(Run(maxQueueLength, Start(), evs[..k]), evs[k]);
    }
  }

  /**
   In every run the connection is failed exactly when some send was reported to have failed.  It is closed with 1011
   once if so and never otherwise, with 1013 once for each payload that found the queue full, and with nothing else.
   */
  lemma {:induction false} ClosedWith(maxQueueLength: nat, evs: seq<Event>)
    ensures var c := Run(maxQueueLength, Start(), evs).core;
            && (c.fatal <==> SomeSendFailed(maxQueueLength, evs))
            && Count(c.closed, 1011) == (if c.fatal then 1 else 0)
            && Count(c.closed, 1013) == FoundFull(maxQueueLength, evs)
            && |c.closed| == Count(c.closed, 1011) + Count(c.closed, 1013)
  {
    if evs != [] {
      var n := |evs| - 1;
      var s, ev := Run(maxQueueLength, Start(), evs[..n]), evs[n];
      ClosedWith(maxQueueLength, evs[..n]);
      StepCloses(maxQueueLength, s, ev);
      SomeSendFailedStep(maxQueueLength, evs);
      assert Run(maxQueueLength, Start(), evs) == Step(maxQueueLength, s, ev);
      hide Run, Step, SomeSendFailed, ReportsFailure, Count;
      CountsOfMore(s.core.closed);
    }
  }

  lemma CountsOfMore(codes: seq<int>)
    ensures codes + [] == codes
    ensures Count(codes + [1011], 1011) == Count(codes, 1011) + 1 && Count(codes + [1011], 1013) == Count(codes, 1013)
    ensures Count(codes + [1013], 1013) == Count(codes, 1013) + 1 && Count(codes + [1013], 1011) == Count(codes, 1011)
  {
    assert (codes + [1011])[..|codes|] == codes == (codes + [1013])[..|codes|];
  }
}
