/**
 The outbox: services/messaging/src/repositories/outboxRepository.ts and one dispatcher's tick of
 services/messaging/src/app/stream/dispatcher.ts.  A row's id is its place in the order (occurred_at, id).
 */
module Outbox {
  import opened Common

  datatype Status = Pending | Picked | Sent | Dead
  datatype Row = Row(messageId: string, status: Status, attempts: nat)

  /** A fetched row, as the dispatcher knows it. */
  datatype Held = Held(id: nat, attempts: nat)

  datatype Update = MarkSent(ids: seq<nat>) | MarkFailed(ids: seq<nat>) | Bury(ids: seq<nat>)

  type Table = seq<Row>

  // ----- the statements of the repository --------------------------------------------------------------------------

  /** The ids of the first pending rows, no more than limit of them. */
  function PendingFrom(rows: Table, i: nat, limit: nat): (ids: seq<nat>)
    requires i <= |rows|
    ensures |ids| <= limit && forall k :: 0 <= k < |ids| ==> i <= ids[k] < |rows| && rows[ids[k]].status == Pending
    ensures forall k, l :: 0 <= k < l < |ids| ==> ids[k] < ids[l]
    ensures |ids| < limit ==> forall j :: i <= j < |rows| && rows[j].status == Pending ==> j in ids
    decreases |rows| - i
  {
    if limit == 0 || i == |rows| then []
    else if rows[i].status == Pending then [i] + PendingFrom(rows, i + 1, limit - 1)
    else PendingFrom(rows, i + 1, limit)
  }

  function PickOne(rows: Table, id: nat): Table {
    if id < |rows| then rows[id := Row(rows[id].messageId, Picked, rows[id].attempts + 1)] else rows
  }

  function Pick(rows: Table, ids: seq<nat>): (picked: Table)
    ensures |picked| == |rows|
  {
    if ids == [] then rows else PickOne(Pick(rows, ids[..|ids| - 1]), ids[|ids| - 1])
  }

  function Batch(rows: Table, ids: seq<nat>): (batch: seq<Held>)
    requires forall k :: 0 <= k < |ids| ==> ids[k] < |rows|
    ensures |batch| == |ids| && forall k :: 0 <= k < |ids| ==> batch[k] == Held(ids[k], rows[ids[k]].attempts)
  {
    if ids == [] then []
    else Batch(rows, ids[..|ids| - 1]) + [Held(ids[|ids| - 1], rows[ids[|ids| - 1]].attempts)]
  }

  /** An unconditional update by id. */
  function SetStatus(rows: Table, ids: seq<nat>, status: Status): (after: Table)
    ensures |after| == |rows|
    ensures forall i :: 0 <= i < |rows| ==> after[i] == if i in ids then rows[i].(status := status) else rows[i]
  {
    if ids == [] then rows
    else
      var before := SetStatus(rows, ids[..|ids| - 1], status);
      var id := ids[|ids| - 1];
      assert ids == ids[..|ids| - 1] + [id];
      if id < |rows| then before[id := before[id].(status := status)] else before
  }

  function Updated(rows: Table, u: Update): Table {
    match u
    case MarkSent(ids) => SetStatus(rows, ids, Sent)
    case MarkFailed(ids) => SetStatus(rows, ids, Pending)
    case Bury(ids) => SetStatus(rows, ids, Dead)
  }

  function UpdatedAll(rows: Table, us: seq<Update>): Table {
    if us == [] then rows else Updated(UpdatedAll(rows, us[..|us| - 1]), us[|us| - 1])
  }

  // ----- what a tick decides ---------------------------------------------------------------------------------------

  /** Whether the publish of the k-th row of a batch succeeded. */
  predicate Published(outcomes: seq<bool>, k: nat) {
    k < |outcomes| && outcomes[k]
  }

  function Successes(batch: seq<Held>, outcomes: seq<bool>): seq<nat> {
    if batch == [] then []
    else
      Successes(batch[..|batch| - 1], outcomes) +
      if Published(outcomes, |batch| - 1) then [batch[|batch| - 1].id] else []
  }

  function SoftFails(batch: seq<Held>, outcomes: seq<bool>): seq<Held> {
    if batch == [] then []
    else
      SoftFails(batch[..|batch| - 1], outcomes) +
      if Published(outcomes, |batch| - 1) then [] else [batch[|batch| - 1]]
  }

  /** filter, then map to ids */
  function WithAttempts(fails: seq<Held>, maxAttempts: nat, exhausted: bool): seq<nat> {
    if fails == [] then []
    else
      WithAttempts(fails[..|fails| - 1], maxAttempts, exhausted) +
      if (fails[|fails| - 1].attempts >= maxAttempts) == exhausted then [fails[|fails| - 1].id] else []
  }

  /** The updates of a tick, in order. */
  function Updates(successes: seq<nat>, fails: seq<Held>, maxAttempts: nat): seq<Update> {
    var toRetry, toBury := WithAttempts(fails, maxAttempts, false), WithAttempts(fails, maxAttempts, true);
    (if successes != [] then [MarkSent(successes)] else []) +
    (if toRetry != [] then [MarkFailed(toRetry)] else []) +
    (if toBury != [] then [Bury(toBury)] else [])
  }

  function Plan(batch: seq<Held>, outcomes: seq<bool>, maxAttempts: nat): seq<Update> {
    Updates(Successes(batch, outcomes), SoftFails(batch, outcomes), maxAttempts)
  }

  /** A whole tick; of its updates only the first so many go through, and the next one throws. */
  function TickRows(rows: Table, limit: nat, maxAttempts: nat, outcomes: seq<bool>, through: nat): Table {
    var ids := PendingFrom(rows, 0, limit);
    var picked := Pick(rows, ids);
    var plan := Plan(Batch(picked, ids), outcomes, maxAttempts);
    UpdatedAll(picked, plan[..Min(through, |plan|)])
  }

  class OutboxTable {
    var rows: Table

    constructor (rows: Table)
      ensures this.rows == rows
    {
      this.rows := rows;
    }

    method FetchBatch(limit: nat) returns (batch: seq<Held>)
      modifies this
      ensures var ids := PendingFrom(old(rows), 0, limit);
              rows == Pick(old(rows), ids) && batch == Batch(rows, ids)
    {
      var ids := PendingFrom(rows, 0, limit);
      rows := Pick(rows, ids);
      batch := Batch(rows, ids);
    }

    method Apply(u: Update)
      modifies this
      ensures rows == Updated(old(rows), u)
    {
      rows := match u
        case MarkSent(ids) => SetStatus(rows, ids, Sent)
        case MarkFailed(ids) => SetStatus(rows, ids, Pending)
        case Bury(ids) => SetStatus(rows, ids, Dead);
    }
  }

  class Dispatcher {
    const outbox: OutboxTable
    const batchSize: nat
    const maxAttempts: nat
    var stream: seq<string>

    constructor (outbox: OutboxTable, batchSize: nat, maxAttempts: nat)
      ensures this.outbox == outbox && this.batchSize == batchSize && this.maxAttempts == maxAttempts && stream == []
    {
      this.outbox, this.batchSize, this.maxAttempts, stream := outbox, batchSize, maxAttempts, [];
    }

    /** `outcomes` says which publishes succeed, `through` how many table updates do before one throws. */
    method Tick(outcomes: seq<bool>, through: nat) returns (ok: bool)
      modifies this, outbox
      ensures outbox.rows == TickRows(old(outbox.rows), batchSize, maxAttempts, outcomes, through)
      ensures var ids := PendingFrom(old(outbox.rows), 0, batchSize);
              var batch := Batch(Pick(old(outbox.rows), ids), ids);
              && (ok <==> |Plan(batch, outcomes, maxAttempts)| <= through)
              && stream == old(stream) + Messages(outbox.rows, Successes(batch, outcomes))
    {
      hide Updates, Successes, SoftFails, Pick, Batch, PendingFrom, UpdatedAll;
      var batch := outbox.FetchBatch(batchSize);
      if batch == [] {
        EmptyPlan(outbox.rows, outcomes, maxAttempts);
        return true;
      }
      var successes, softFails := PublishBatch(batch, outcomes);
      ok := Settle(successes, softFails, through);
      UpdatesKeepMessages(Pick(old(outbox.rows), PendingFrom(old(outbox.rows), 0, batchSize)),
                          Plan(batch, outcomes, maxAttempts)[..Min(through, |Plan(batch, outcomes, maxAttempts)|)],
                          successes);
    }

    method PublishBatch(batch: seq<Held>, outcomes: seq<bool>) returns (successes: seq<nat>, softFails: seq<Held>)
      requires forall k :: 0 <= k < |batch| ==> batch[k].id < |outbox.rows|
      modifies this
      ensures successes == Successes(batch, outcomes) && softFails == SoftFails(batch, outcomes)
      ensures stream == old(stream) + Messages(outbox.rows, successes)
    {
      hide Successes, SoftFails, Messages;
      successes, softFails := [], [];
      NothingPublished(outbox.rows, batch, outcomes);
      for k := 0 to |batch|
        invariant successes == Successes(batch[..k], outcomes) && softFails == SoftFails(batch[..k], outcomes)
        invariant stream == old(stream) + Messages(outbox.rows, successes)
      {
        PublishStep(batch, k, outcomes);
        if Published(outcomes, k) {
          MessagesAppend(outbox.rows, successes, batch[k].id);
          stream := stream + [outbox.rows[batch[k].id].messageId];
          successes := successes + [batch[k].id];
        } else {
          softFails := softFails + [batch[k]];
        }
      }
      assert batch[..|batch|] == batch;
    }

    method Settle(successes: seq<nat>, softFails: seq<Held>, through: nat) returns (ok: bool)
      modifies outbox
      ensures var plan := Updates(successes, softFails, maxAttempts);
              && (ok <==> |plan| <= through)
              && outbox.rows == UpdatedAll(old(outbox.rows), plan[..Min(through, |plan|)])
    {
      hide UpdatedAll, Updated, WithAttempts, SetStatus;
      var toRetry, toBury := WithAttempts(softFails, maxAttempts, false), WithAttempts(softFails, maxAttempts, true);
      ghost var plan, picked := Updates(successes, softFails, maxAttempts), outbox.rows;
      var left := through;
      ghost var done := 0;
      NothingUpdated(picked, plan);
      if successes != [] {
        ok, left, done := IssueUpdate(MarkSent(successes), left, plan, picked, done);
        if !ok {
          return;
        }
      }
      if toRetry != [] {
        ok, left, done := IssueUpdate(MarkFailed(toRetry), left, plan, picked, done);
        if !ok {
          return;
        }
      }
      if toBury != [] {
        ok, left, done := IssueUpdate(Bury(toBury), left, plan, picked, done);
        if !ok {
          return;
        }
      }
      ok := true;
    }

    /** One awaited update: it goes through, or it throws and ends the tick. */
    method IssueUpdate(u: Update, left: nat, ghost plan: seq<Update>, ghost picked: Table, ghost done: nat)
      returns (ok: bool, left': nat, ghost done': nat)
      requires done < |plan| && plan[done] == u && outbox.rows == UpdatedAll(picked, plan[..done])
      modifies outbox
      ensures ok <==> left > 0
      ensures ok ==> left' == left - 1 && done' == done + 1
      ensures !ok ==> left' == left && done' == done
      ensures outbox.rows == UpdatedAll(picked, plan[..done'])
    {
      left', done' := left, done;
      if left == 0 {
        return false, left, done;
      }
      assert plan[..done + 1][..done] == plan[..done];
      outbox.Apply(u);
      return true, left - 1, done + 1;
    }
  }

  function Messages(rows: Table, ids: seq<nat>): seq<string> {
    if ids == [] then []
    else Messages(rows, ids[..|ids| - 1]) + if ids[|ids| - 1] < |rows| then [rows[ids[|ids| - 1]].messageId] else []
  }

  lemma MessagesAppend(rows: Table, ids: seq<nat>, id: nat)
    requires id < |rows|
    ensures Messages(rows, ids + [id]) == Messages(rows, ids) + [rows[id].messageId]
  {
    assert (ids + [id])[..|ids|] == ids;
  }

  lemma NothingPublished(rows: Table, batch: seq<Held>, outcomes: seq<bool>)
    ensures Successes(batch[..0], outcomes) == [] && SoftFails(batch[..0], outcomes) == [] && Messages(rows, []) == []
  {
  }

  lemma PublishStep(batch: seq<Held>, k: nat, outcomes: seq<bool>)
    requires k < |batch|
    ensures Successes(batch[..k + 1], outcomes)
         == Successes(batch[..k], outcomes) + if Published(outcomes, k) then [batch[k].id] else []
    ensures SoftFails(batch[..k + 1], outcomes)
         == SoftFails(batch[..k], outcomes) + if Published(outcomes, k) then [] else [batch[k]]
  {
    assert batch[..k + 1][..k] == batch[..k];
  }

  lemma NothingUpdated(rows: Table, plan: seq<Update>)
    ensures UpdatedAll(rows, plan[..0]) == rows
  {
  }

  lemma EmptyPlan(rows: Table, outcomes: seq<bool>, maxAttempts: nat)
    ensures Plan([], outcomes, maxAttempts) == [] && Successes([], outcomes) == []
    ensures UpdatedAll(rows, []) == rows && Messages(rows, []) == []
  {
  }

  lemma {:induction false} UpdatesKeepMessages(rows: Table, us: seq<Update>, ids: seq<nat>)
    ensures |UpdatedAll(rows, us)| == |rows| && Messages(UpdatedAll(rows, us), ids) == Messages(rows, ids)
    ensures forall i :: 0 <= i < |rows| ==> UpdatedAll(rows, us)[i].messageId == rows[i].messageId
  {
    if us != [] {
      UpdatesKeepMessages(rows, us[..|us| - 1], ids);
    }
    SameMessages(rows, UpdatedAll(rows, us), ids);
  }

  lemma {:induction false} SameMessages(rows: Table, after: Table, ids: seq<nat>)
    requires |after| == |rows| && forall i :: 0 <= i < |rows| ==> after[i].messageId == rows[i].messageId
    ensures Messages(after, ids) == Messages(rows, ids)
  {
    if ids != [] {
      SameMessages(rows, after, ids[..|ids| - 1]);
    }
  }
}
