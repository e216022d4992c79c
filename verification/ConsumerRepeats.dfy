/**
 When the stream consumer broadcasts a message more than once: services/messaging/src/app/stream/consumer.ts:172-352,
 over whole runs and whatever the hub does.
 */
module ConsumerRepeats {
  import opened Common
  import opened Consumer

  // ----- what one attempt does -------------------------------------------------------------------------------------

  /** An attempt on an unseen event leaves its conversation's queue empty exactly when it succeeds. */
  lemma AttemptEmptiesIff(s: State, e: Event, script: Script)
    requires e.messageId !in s.seen
    ensures QueueOf(BroadcastEvent(s, e, script).0, e.conversationId) == [] <==> BroadcastEvent(s, e, script).1.Fine?
  {
    hide Drained, Pushed, Copies;
    DrainSends(PushedTo(s, e), e, s.sent, script);
  }

  lemma OthersKeepQueues(s: State, e: Event, script: Script, conversation: string)
    requires e.messageId in s.seen || e.conversationId != conversation
    ensures QueueOf(BroadcastEvent(s, e, script).0, conversation) == QueueOf(s, conversation)
  {
    hide Drained, Pushed;
  }

  /**
   How many copies go: the first if the next call succeeds, a second if the queue was filled and so does the next but
   one.
   */
  lemma DrainCounts(q: seq<Event>, envelope: Event, sent: Sent, script: Script)
    requires q != []
    ensures var n := |q| - |Drained(q, envelope, sent, script).0|;
            && (n >= 1 <==> script(sent.calls).Fine?)
            && (n >= 2 <==> script(sent.calls).Fine? && |q| >= 2 && script(sent.calls + 1).Fine?)
  {
    if script(sent.calls).Fine? {
      var one := Sent(sent.log + [envelope], sent.calls + 1);
      DrainSends(q[1..], envelope, one, script);
      if |q| >= 2 && script(one.calls).Fine? {
        DrainSends(q[2..], envelope, Sent(one.log + [envelope], one.calls + 1), script);
        assert q[1..][1..] == q[2..];
      }
    }
  }

  ghost predicate OnceEach(log: seq<Event>) {
    forall i, j :: 0 <= i < j < |log| ==> log[i].messageId != log[j].messageId
  }

  /**
   The attempt broadcasts a message again: the next call of the hub succeeds, and either the message is in the log
   already, from an attempt that failed later on, or its queue is filled and the call after that succeeds as well.
   */
  predicate AttemptRepeats(s: State, e: Event, script: Script) {
    && e.messageId !in s.seen && script(s.sent.calls).Fine?
    && (Logged(s.sent.log, e.messageId) || (QueueOf(s, e.conversationId) != [] && script(s.sent.calls + 1).Fine?))
  }

  lemma CopiesRepeatIff(log: seq<Event>, e: Event, n: nat)
    requires OnceEach(log)
    ensures OnceEach(log + Copies(e, n)) <==> n == 0 || (n == 1 && !Logged(log, e.messageId))
  {
    CopiesAre(e, n);
    var after := log + Copies(e, n);
    assert forall i :: 0 <= i < |log| ==> after[i] == log[i];
    assert forall i :: |log| <= i < |after| ==> after[i] == e;
    if n >= 2 {
      assert after[|log|].messageId == after[|log| + 1].messageId;
    }
    if n >= 1 && Logged(log, e.messageId) {
      var i :| 0 <= i < |log| && log[i].messageId == e.messageId;
      assert after[i].messageId == after[|log|].messageId;
    }
  }

  /** What an attempt adds to the log. */
  lemma AttemptAdds(s: State, e: Event, script: Script) returns (n: nat)
    ensures BroadcastEvent(s, e, script).0.sent.log == s.sent.log + Copies(e, n)
    ensures e.messageId in s.seen ==> n == 0
    ensures e.messageId !in s.seen ==>
      && (n >= 1 <==> script(s.sent.calls).Fine?)
      && (n >= 2 <==>
          script(s.sent.calls).Fine? && QueueOf(s, e.conversationId) != [] && script(s.sent.calls + 1).Fine?)
  {
    n := 0;
    if e.messageId !in s.seen {
      hide Drained, Pushed;
      var q := PushedTo(s, e);
      PushedHolds(QueueOf(s, e.conversationId), e);
      DrainSends(q, e, s.sent, script);
      DrainCounts(q, e, s.sent, script);
      n := |q| - |Drained(q, e, s.sent, script).0|;
    }
  }

  lemma AttemptRepeatsIff(s: State, e: Event, script: Script)
    requires OnceEach(s.sent.log)
    ensures OnceEach(BroadcastEvent(s, e, script).0.sent.log) <==> !AttemptRepeats(s, e, script)
  {
    hide BroadcastEvent, Copies, Logged, OnceEach, QueueOf;
    var n := AttemptAdds(s, e, script);
    CopiesRepeatIff(s.sent.log, e, n);
  }

  lemma OncePrefix(log: seq<Event>, more: seq<Event>)
    requires OnceEach(log + more)
    ensures OnceEach(log)
  {
    assert forall i :: 0 <= i < |log| ==> (log + more)[i] == log[i];
  }

  // ----- passes and runs -------------------------------------------------------------------------------------------

  /** Some attempt of the pass broadcasts a message again. */
  predicate PassRepeats(s: State, sorted: seq<Pending>, script: Script) {
    sorted != [] &&
    var front, pass := sorted[..|sorted| - 1], PassOver(s, sorted[..|sorted| - 1], script);
    PassRepeats(s, front, script) || (!pass.ended && AttemptRepeats(pass.state, sorted[|sorted| - 1].event, script))
  }

  /** Some attempt of the run does. */
  predicate RunRepeats(actions: seq<Action>, script: Script) {
    actions != [] &&
    var front, last := actions[..|actions| - 1], actions[|actions| - 1];
    RunRepeats(front, script) ||
    (last.Process? && PassRepeats(Run(front, script), Sort(BufferOf(Run(front, script), last.conversation)), script))
  }

  lemma {:induction false} PassRepeatsIff(s: State, sorted: seq<Pending>, script: Script)
    ensures OnceEach(PassOver(s, sorted, script).state.sent.log) ==> OnceEach(s.sent.log)
    ensures OnceEach(s.sent.log) ==>
            (OnceEach(PassOver(s, sorted, script).state.sent.log) <==> !PassRepeats(s, sorted, script))
  {
    if sorted != [] {
      hide BroadcastEvent, AttemptRepeats, OnceEach;
      var front, e := sorted[..|sorted| - 1], sorted[|sorted| - 1].event;
      var pass := PassOver(s, front, script);
      PassRepeatsIff(s, front, script);
      if !pass.ended {
        var n := AttemptAdds(pass.state, e, script);
        var log := pass.state.sent.log;
        if OnceEach(log + Copies(e, n)) {
          OncePrefix(log, Copies(e, n));
        }
        if OnceEach(log) {
          AttemptRepeatsIff(pass.state, e, script);
        }
      }
    }
  }

  /**
   Whatever arrives and whatever the hub does: each message is broadcast at most once exactly when no attempt repeats.
   */
  lemma {:induction false} RunRepeatsIff(actions: seq<Action>, script: Script)
    ensures OnceEach(Run(actions, script).sent.log) <==> !RunRepeats(actions, script)
  {
    if actions != [] {
      hide OnceEach, PassOver, PassRepeats, Sort, Unacked, Run;
      var front, last := actions[..|actions| - 1], actions[|actions| - 1];
      RunRepeatsIff(front, script);
      RunLast(actions, script);
      var s := Run(front, script);
      if last.Process? {
        var sorted := Sort(BufferOf(s, last.conversation));
        PassRepeatsIff(s, sorted, script);
        if BufferOf(s, last.conversation) == [] {
          NothingToSend(s, script);
        }
      }
    } else {
      NothingSent(script);
    }
  }

  lemma NothingToSend(s: State, script: Script)
    ensures Sort([]) == [] && PassOver(s, [], script).state == s && !PassRepeats(s, [], script)
  {
  }

  lemma NothingSent(script: Script)
    ensures OnceEach(Run([], script).sent.log) && !RunRepeats([], script)
  {
  }

  // ----- when a queue is left filled -------------------------------------------------------------------------------

  /** How the last attempt on an unseen event of the conversation ended, given how it stood before this pass. */
  function PassAttempt(s: State, sorted: seq<Pending>, conversation: string, script: Script, before: Option<Outcome>)
    : Option<Outcome>
  {
    if sorted == [] then before
    else
      var front, e := sorted[..|sorted| - 1], sorted[|sorted| - 1].event;
      var pass := PassOver(s, front, script);
      if pass.ended || e.conversationId != conversation || e.messageId in pass.state.seen
      then PassAttempt(s, front, conversation, script, before)
      else Some(BroadcastEvent(pass.state, e, script).1)
  }

  function LastAttempt(actions: seq<Action>, conversation: string, script: Script): Option<Outcome> {
    if actions == [] then None
    else
      var front, last := actions[..|actions| - 1], actions[|actions| - 1];
      var before, s := LastAttempt(front, conversation, script), Run(front, script);
      if last.Arrive? then before
      else PassAttempt(s, Sort(BufferOf(s, last.conversation)), conversation, script, before)
  }

  predicate Failed(attempt: Option<Outcome>) {
    attempt.Some? && !attempt.value.Fine?
  }

  lemma {:induction false} PassFillsIff(s: State, sorted: seq<Pending>, conversation: string, script: Script,
                                        before: Option<Outcome>)
    requires QueueOf(s, conversation) != [] <==> Failed(before)
    ensures QueueOf(PassOver(s, sorted, script).state, conversation) != [] <==>
            Failed(PassAttempt(s, sorted, conversation, script, before))
  {
    if sorted != [] {
      hide BroadcastEvent, QueueOf;
      var front, e := sorted[..|sorted| - 1], sorted[|sorted| - 1].event;
      PassFillsIff(s, front, conversation, script, before);
      var pass := PassOver(s, front, script);
      if !pass.ended {
        if e.conversationId != conversation || e.messageId in pass.state.seen {
          OthersKeepQueues(pass.state, e, script, conversation);
        } else {
          AttemptEmptiesIff(pass.state, e, script);
        }
      }
    }
  }

  /**
   After any run a conversation's queue is filled exactly when the last attempt on an unseen event of it failed; so
   exactly then may the next event be broadcast more than once.
   */
  lemma {:induction false} QueueFilledIffFailed(actions: seq<Action>, conversation: string, script: Script)
    ensures QueueOf(Run(actions, script), conversation) != [] <==> Failed(LastAttempt(actions, conversation, script))
  {
    if actions != [] {
      hide PassOver, PassAttempt, Sort, Unacked, Run, Failed;
      var front, last := actions[..|actions| - 1], actions[|actions| - 1];
      QueueFilledIffFailed(front, conversation, script);
      RunLast(actions, script);
      var s := Run(front, script);
      if last.Process? {
        PassFillsIff(s, Sort(BufferOf(s, last.conversation)), conversation, script,
                     LastAttempt(front, conversation, script));
        if BufferOf(s, last.conversation) == [] {
          NothingToSend(s, script);
        }
      }
    } else {
      NothingTried(conversation, script);
    }
  }

  lemma NothingTried(conversation: string, script: Script)
    ensures QueueOf(Run([], script), conversation) == [] && !Failed(LastAttempt([], conversation, script))
  {
  }
}
