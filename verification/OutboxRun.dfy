/**
 Any number of dispatchers over one outbox.  They crash; publishes fail, time out, or reach the stream late; table
 updates fail, time out, or land late.  services/messaging/src/app/stream/dispatcher.ts:29-180 at each await.
 */
module OutboxRun {
  import opened Common
  import opened Outbox

  /** A dispatcher between two awaits.  Late: its update timed out, so the tick threw, but the update may still land. */
  datatype Tick =
    | Publishing(batch: seq<Held>, outcomes: seq<bool>)
    | Updating(updates: seq<Update>)
    | Late(update: Update)
    | Over

  /** The stream lists every message id ever added; picks counts rows picked so far. */
  datatype State = State(rows: Table, stream: seq<string>, ticks: seq<Tick>, picks: nat)

  datatype Event =
    | Insert(messageId: string)
    | Fetch(ids: seq<nat>)
    | Publish(tick: nat, ok: bool)
    | StreamAdd(messageId: string)
    | UpdateDone(tick: nat)
    | UpdateLate(tick: nat)
    | Land(tick: nat)
    | Crash(tick: nat)

  ghost predicate Distinct(ids: seq<nat>) {
    forall k, l :: 0 <= k < l < |ids| ==> ids[k] != ids[l]
  }

  /** SKIP LOCKED: a fetch may pass over rows that others are updating, but what it picks is pending. */
  ghost predicate Fetchable(rows: Table, ids: seq<nat>, limit: nat) {
    |ids| <= limit && Distinct(ids) && forall k :: 0 <= k < |ids| ==> ids[k] < |rows| && rows[ids[k]].status == Pending
  }

  ghost function FetchStep(s: State, ids: seq<nat>, limit: nat): State {
    if !Fetchable(s.rows, ids, limit) then s
    else
      var picked := Pick(s.rows, ids);
      var tick := if ids == [] then Over else Publishing(Batch(picked, ids), []);
      s.(rows := picked, ticks := s.ticks + [tick], picks := s.picks + |ids|)
  }

  /** After the last publish the tick knows which updates to make. */
  function PublishStep(s: State, t: nat, ok: bool, maxAttempts: nat): State {
    if t < |s.ticks| && s.ticks[t].Publishing? && |s.ticks[t].outcomes| < |s.ticks[t].batch| then
      var batch, outcomes := s.ticks[t].batch, s.ticks[t].outcomes + [ok];
      var id := batch[|outcomes| - 1].id;
      var stream := if ok && id < |s.rows| then s.stream + [s.rows[id].messageId] else s.stream;
      var tick := if |outcomes| < |batch| then Publishing(batch, outcomes)
                  else Updating(Plan(batch, outcomes, maxAttempts));
      s.(stream := stream, ticks := s.ticks[t := tick])
    else s
  }

  function UpdateStep(s: State, t: nat): State {
    if t < |s.ticks| && s.ticks[t].Updating? && s.ticks[t].updates != [] then
      var us := s.ticks[t].updates;
      s.(rows := Updated(s.rows, us[0]), ticks := s.ticks[t := if |us| == 1 then Over else Updating(us[1..])])
    else s
  }

  ghost function Step(s: State, ev: Event, limit: nat, maxAttempts: nat): State {
    match ev
    case Insert(m) => s.(rows := s.rows + [Row(m, Pending, 0)])
    case Fetch(ids) => FetchStep(s, ids, limit)
    case Publish(t, ok) => PublishStep(s, t, ok, maxAttempts)
    case StreamAdd(m) => s.(stream := s.stream + [m])
    case UpdateDone(t) => UpdateStep(s, t)
    case UpdateLate(t) =>
      if t < |s.ticks| && s.ticks[t].Updating? && s.ticks[t].updates != []
      then s.(ticks := s.ticks[t := Late(s.ticks[t].updates[0])]) else s
    case Land(t) =>
      if t < |s.ticks| && s.ticks[t].Late?
      then s.(rows := Updated(s.rows, s.ticks[t].update), ticks := s.ticks[t := Over]) else s
    case Crash(t) => if t < |s.ticks| then s.(ticks := s.ticks[t := Over]) else s
  }

  ghost function Run(evs: seq<Event>, limit: nat, maxAttempts: nat): State {
    if evs == [] then State([], [], [], 0)
    else Step(Run(evs[..|evs| - 1], limit, maxAttempts), evs[|evs| - 1], limit, maxAttempts)
  }

  // ----- what a plan does with a batch -----------------------------------------------------------------------------

  predicate InBatch(batch: seq<Held>, id: nat) {
    exists k :: 0 <= k < |batch| && batch[k].id == id
  }

  lemma {:induction false} SuccessIsPublished(batch: seq<Held>, outcomes: seq<bool>, id: nat) returns (k: nat)
    requires id in Successes(batch, outcomes)
    ensures k < |batch| && batch[k].id == id && Published(outcomes, k)
  {
    k := |batch| - 1;
    if !(Published(outcomes, k) && batch[k].id == id) {
      k := SuccessIsPublished(batch[..|batch| - 1], outcomes, id);
    }
  }

  lemma {:induction false} SoftFailIsNot(batch: seq<Held>, outcomes: seq<bool>, h: Held) returns (k: nat)
    requires h in SoftFails(batch, outcomes)
    ensures k < |batch| && batch[k] == h && !Published(outcomes, k)
  {
    k := |batch| - 1;
    if !(!Published(outcomes, k) && batch[k] == h) {
      k := SoftFailIsNot(batch[..|batch| - 1], outcomes, h);
    }
  }

  lemma {:induction false} AttemptsSplit(fails: seq<Held>, maxAttempts: nat, exhausted: bool, id: nat) returns (h: Held)
    requires id in WithAttempts(fails, maxAttempts, exhausted)
    ensures h in fails && h.id == id && (h.attempts >= maxAttempts) == exhausted
  {
    h := fails[|fails| - 1];
    if !(h.id == id && (h.attempts >= maxAttempts) == exhausted) {
      h := AttemptsSplit(fails[..|fails| - 1], maxAttempts, exhausted, id);
    }
  }

  /** Which row of the batch an update of the plan is about, and why. */
  predicate Why(u: Update, outcomes: seq<bool>, k: nat, attempts: nat, maxAttempts: nat) {
    match u
    case MarkSent(_) => Published(outcomes, k)
    case MarkFailed(_) => !Published(outcomes, k) && attempts < maxAttempts
    case Bury(_) => !Published(outcomes, k) && attempts >= maxAttempts
  }

  lemma PlannedUpdate(batch: seq<Held>, outcomes: seq<bool>, maxAttempts: nat, j: nat, id: nat) returns (k: nat)
    requires j < |Plan(batch, outcomes, maxAttempts)| && id in Plan(batch, outcomes, maxAttempts)[j].ids
    ensures k < |batch| && batch[k].id == id
    ensures Why(Plan(batch, outcomes, maxAttempts)[j], outcomes, k, batch[k].attempts, maxAttempts)
  {
    hide Successes, SoftFails, WithAttempts;
    var u := Plan(batch, outcomes, maxAttempts)[j];
    if u.MarkSent? {
      k := SuccessIsPublished(batch, outcomes, id);
    } else {
      var h := AttemptsSplit(SoftFails(batch, outcomes), maxAttempts, u.Bury?, id);
      k := SoftFailIsNot(batch, outcomes, h);
    }
  }

  lemma PlanKinds(batch: seq<Held>, outcomes: seq<bool>, maxAttempts: nat, i: nat, j: nat)
    requires i < j < |Plan(batch, outcomes, maxAttempts)|
    ensures var plan := Plan(batch, outcomes, maxAttempts);
            (plan[i].MarkSent? && !plan[j].MarkSent?) || (plan[i].MarkFailed? && plan[j].Bury?)
  {
    hide Successes, SoftFails, WithAttempts;
  }

  // ----- what every run keeps --------------------------------------------------------------------------------------

  predicate RowHolds(row: Row, stream: seq<string>, maxAttempts: nat) {
    match row.status
    case Pending => row.attempts < maxAttempts
    case Picked => 1 <= row.attempts <= maxAttempts
    case Sent => row.messageId in stream
    case Dead => row.attempts == maxAttempts
  }

  ghost predicate RowsHold(rows: Table, stream: seq<string>, maxAttempts: nat) {
    forall i :: 0 <= i < |rows| ==> RowHolds(rows[i], stream, maxAttempts)
  }

  /** A dispatcher holds the rows that it, or its update under way, may still change. */
  ghost predicate HeldBy(tick: Tick, id: nat) {
    match tick
    case Publishing(batch, _) => InBatch(batch, id)
    case Updating(us) => exists j :: 0 <= j < |us| && id in us[j].ids
    case Late(u) => id in u.ids
    case Over => false
  }

  predicate HeldRow(rows: Table, id: nat) {
    id < |rows| && rows[id].status == Picked
  }

  /** What the update will make of the row is right. */
  predicate Fitting(u: Update, row: Row, stream: seq<string>, maxAttempts: nat) {
    match u
    case MarkSent(_) => row.messageId in stream
    case MarkFailed(_) => row.attempts < maxAttempts
    case Bury(_) => row.attempts == maxAttempts
  }

  ghost predicate UpdateHolds(u: Update, rows: Table, stream: seq<string>, maxAttempts: nat) {
    forall id :: id in u.ids ==> HeldRow(rows, id) && Fitting(u, rows[id], stream, maxAttempts)
  }

  ghost predicate Apart(us: seq<Update>) {
    forall i, j, id :: 0 <= i < j < |us| && id in us[i].ids ==> id !in us[j].ids
  }

  ghost predicate BatchHolds(batch: seq<Held>, outcomes: seq<bool>, rows: Table, stream: seq<string>,
                             maxAttempts: nat)
  {
    && (forall k, l :: 0 <= k < l < |batch| ==> batch[k].id != batch[l].id)
    && (forall k :: 0 <= k < |batch| ==>
          HeldRow(rows, batch[k].id) && batch[k].attempts == rows[batch[k].id].attempts <= maxAttempts)
    && (forall k :: 0 <= k < |batch| && Published(outcomes, k) ==> rows[batch[k].id].messageId in stream)
  }

  ghost predicate TickHolds(tick: Tick, rows: Table, stream: seq<string>, maxAttempts: nat) {
    match tick
    case Publishing(batch, outcomes) => BatchHolds(batch, outcomes, rows, stream, maxAttempts)
    case Updating(us) => Apart(us) && forall j :: 0 <= j < |us| ==> UpdateHolds(us[j], rows, stream, maxAttempts)
    case Late(u) => UpdateHolds(u, rows, stream, maxAttempts)
    case Over => true
  }

  /** No row is held by two dispatchers. */
  ghost predicate OneHolder(ticks: seq<Tick>) {
    forall t, u, id :: 0 <= t < u < |ticks| && HeldBy(ticks[t], id) ==> !HeldBy(ticks[u], id)
  }

  ghost predicate TicksHold(ticks: seq<Tick>, rows: Table, stream: seq<string>, maxAttempts: nat) {
    && (forall t :: 0 <= t < |ticks| ==> TickHolds(ticks[t], rows, stream, maxAttempts))
    && OneHolder(ticks)
  }

  function Weight(row: Row, maxAttempts: nat): nat {
    if (row.status == Pending || row.status == Picked) && row.attempts < maxAttempts then maxAttempts - row.attempts
    else 0
  }

  /** The attempts that are left to the rows neither sent nor dead. */
  function Potential(rows: Table, maxAttempts: nat): nat {
    if rows == [] then 0 else Potential(rows[..|rows| - 1], maxAttempts) + Weight(rows[|rows| - 1], maxAttempts)
  }

  ghost predicate Inv(s: State, maxAttempts: nat) {
    && RowsHold(s.rows, s.stream, maxAttempts)
    && TicksHold(s.ticks, s.rows, s.stream, maxAttempts)
    && s.picks + Potential(s.rows, maxAttempts) <= |s.rows| * maxAttempts
  }

  // ----- frames ----------------------------------------------------------------------------------------------------

  ghost predicate Grown(stream: seq<string>, stream': seq<string>) {
    forall m :: m in stream ==> m in stream'
  }

  lemma HeldRowsAreHeld(tick: Tick, rows: Table, stream: seq<string>, maxAttempts: nat, id: nat)
    requires TickHolds(tick, rows, stream, maxAttempts) && HeldBy(tick, id)
    ensures HeldRow(rows, id)
  {
  }

  lemma TickFrame(tick: Tick, rows: Table, stream: seq<string>, rows': Table, stream': seq<string>, maxAttempts: nat)
    requires TickHolds(tick, rows, stream, maxAttempts) && Grown(stream, stream')
    requires forall id: nat :: HeldBy(tick, id) ==> id < |rows| && id < |rows'| && rows'[id] == rows[id]
    ensures TickHolds(tick, rows', stream', maxAttempts)
  {
    match tick
    case Publishing(batch, outcomes) =>
      forall k | 0 <= k < |batch| ensures rows'[batch[k].id] == rows[batch[k].id] && batch[k].id < |rows'| {
        assert HeldBy(tick, batch[k].id);
      }
    case Updating(us) =>
      forall j | 0 <= j < |us| ensures UpdateHolds(us[j], rows', stream', maxAttempts) {
        assert UpdateHolds(us[j], rows, stream, maxAttempts);
        assert forall id :: id in us[j].ids ==> HeldBy(tick, id);
      }
    case Late(u) =>
      assert forall id :: id in u.ids ==> HeldBy(tick, id);
    case Over =>
  }

  /** One dispatcher goes on: it changes rows that it holds, and lets go of some of them. */
  lemma OneGoesOn(ticks: seq<Tick>, t: nat, tick: Tick, rows: Table, stream: seq<string>, rows': Table,
                  stream': seq<string>, maxAttempts: nat)
    requires TicksHold(ticks, rows, stream, maxAttempts) && t < |ticks| && Grown(stream, stream')
    requires |rows'| == |rows| && forall id :: 0 <= id < |rows| && !HeldBy(ticks[t], id) ==> rows'[id] == rows[id]
    requires TickHolds(tick, rows', stream', maxAttempts) && forall id: nat :: HeldBy(tick, id) ==> HeldBy(ticks[t], id)
    ensures TicksHold(ticks[t := tick], rows', stream', maxAttempts)
  {
    hide HeldBy, TickHolds, Grown;
    var ticks' := ticks[t := tick];
    forall u | 0 <= u < |ticks| ensures TickHolds(ticks'[u], rows', stream', maxAttempts) {
      if u != t {
        forall id: nat | HeldBy(ticks[u], id) ensures id < |rows| && rows'[id] == rows[id] {
          HeldRowsAreHeld(ticks[u], rows, stream, maxAttempts, id);
        }
        TickFrame(ticks[u], rows, stream, rows', stream', maxAttempts);
      }
    }
  }

  /** Rows and stream entries that nobody holds come and go. */
  lemma NobodyGoesOn(ticks: seq<Tick>, rows: Table, stream: seq<string>, rows': Table, stream': seq<string>,
                     maxAttempts: nat)
    requires TicksHold(ticks, rows, stream, maxAttempts) && Grown(stream, stream')
    requires forall id :: 0 <= id < |rows| && rows[id].status == Picked ==> id < |rows'| && rows'[id] == rows[id]
    ensures TicksHold(ticks, rows', stream', maxAttempts)
  {
    hide HeldBy, TickHolds, Grown;
    forall u | 0 <= u < |ticks| ensures TickHolds(ticks[u], rows', stream', maxAttempts) {
      forall id: nat | HeldBy(ticks[u], id) ensures id < |rows| && id < |rows'| && rows'[id] == rows[id] {
        HeldRowsAreHeld(ticks[u], rows, stream, maxAttempts, id);
      }
      TickFrame(ticks[u], rows, stream, rows', stream', maxAttempts);
    }
  }

  // ----- the potential ---------------------------------------------------------------------------------------------

  lemma {:induction false} PotentialFalls(rows: Table, rows': Table, maxAttempts: nat)
    requires |rows'| == |rows|
    requires forall i :: 0 <= i < |rows| ==> Weight(rows'[i], maxAttempts) <= Weight(rows[i], maxAttempts)
    ensures Potential(rows', maxAttempts) <= Potential(rows, maxAttempts)
  {
    if rows != [] {
      PotentialFalls(rows[..|rows| - 1], rows'[..|rows| - 1], maxAttempts);
    }
  }

  lemma {:induction false} PotentialOfOne(rows: Table, i: nat, row: Row, maxAttempts: nat)
    requires i < |rows|
    ensures Potential(rows[i := row], maxAttempts) + Weight(rows[i], maxAttempts)
         == Potential(rows, maxAttempts) + Weight(row, maxAttempts)
  {
    var front := rows[..|rows| - 1];
    if i < |front| {
      PotentialOfOne(front, i, row, maxAttempts);
      assert rows[i := row][..|front|] == front[i := row];
    } else {
      assert rows[i := row][..|front|] == front;
    }
  }

  lemma PotentialOfNew(rows: Table, row: Row, maxAttempts: nat)
    ensures Potential(rows + [row], maxAttempts) == Potential(rows, maxAttempts) + Weight(row, maxAttempts)
  {
    assert (rows + [row])[..|rows|] == rows;
  }

  /** What a fetch does to each row. */
  lemma {:induction false} PickedRows(rows: Table, ids: seq<nat>)
    requires Distinct(ids) && forall k :: 0 <= k < |ids| ==> ids[k] < |rows|
    ensures forall i :: 0 <= i < |rows| ==>
      Pick(rows, ids)[i] == if i in ids then Row(rows[i].messageId, Picked, rows[i].attempts + 1) else rows[i]
  {
    if ids != [] {
      PickedRows(rows, ids[..|ids| - 1]);
      assert ids == ids[..|ids| - 1] + [ids[|ids| - 1]];
    }
  }

  lemma PickLast(rows: Table, ids: seq<nat>)
    requires ids != []
    ensures Pick(rows, ids) == PickOne(Pick(rows, ids[..|ids| - 1]), ids[|ids| - 1])
  {
  }

  lemma PickNone(rows: Table)
    ensures Pick(rows, []) == rows
  {
  }

  /** A fetch takes one attempt from each row it picks. */
  lemma {:induction false} FetchSpends(rows: Table, ids: seq<nat>, maxAttempts: nat)
    requires Distinct(ids) && forall k :: 0 <= k < |ids| ==> ids[k] < |rows| && rows[ids[k]].status == Pending
    requires forall k :: 0 <= k < |ids| ==> rows[ids[k]].attempts < maxAttempts
    ensures Potential(Pick(rows, ids), maxAttempts) + |ids| == Potential(rows, maxAttempts)
  {
    hide Pick, Potential;
    if ids == [] {
      PickNone(rows);
    } else {
      var front, id := ids[..|ids| - 1], ids[|ids| - 1];
      FetchSpends(rows, front, maxAttempts);
      PickedRows(rows, front);
      assert id !in front;
      var before := Pick(rows, front);
      assert before[id] == rows[id];
      PickLast(rows, ids);
      PotentialOfOne(before, id, Row(before[id].messageId, Picked, before[id].attempts + 1), maxAttempts);
    }
  }

  // ----- each step -------------------------------------------------------------------------------------------------

  lemma FetchKeepsInv(s: State, ids: seq<nat>, limit: nat, maxAttempts: nat)
    requires Inv(s, maxAttempts)
    ensures Inv(FetchStep(s, ids, limit), maxAttempts)
  {
    if Fetchable(s.rows, ids, limit) {
      FetchKeepsRows(s.rows, ids, s.stream, maxAttempts);
      hide TicksHold, RowsHold, Pick, Potential;
      var picked := Pick(s.rows, ids);
      NobodyGoesOn(s.ticks, s.rows, s.stream, picked, s.stream, maxAttempts);
      FreshTick(s, ids, maxAttempts);
    }
  }

  lemma FetchKeepsRows(rows: Table, ids: seq<nat>, stream: seq<string>, maxAttempts: nat)
    requires RowsHold(rows, stream, maxAttempts)
    requires Distinct(ids) && forall k :: 0 <= k < |ids| ==> ids[k] < |rows| && rows[ids[k]].status == Pending
    ensures RowsHold(Pick(rows, ids), stream, maxAttempts)
    ensures Potential(Pick(rows, ids), maxAttempts) + |ids| == Potential(rows, maxAttempts)
    ensures forall id :: 0 <= id < |rows| && rows[id].status == Picked ==> Pick(rows, ids)[id] == rows[id]
  {
    hide Pick, Potential;
    PickedRows(rows, ids);
    forall k | 0 <= k < |ids| ensures rows[ids[k]].attempts < maxAttempts {
      assert RowHolds(rows[ids[k]], stream, maxAttempts);
    }
    FetchSpends(rows, ids, maxAttempts);
    forall i | 0 <= i < |rows| ensures RowHolds(Pick(rows, ids)[i], stream, maxAttempts) {
      assert RowHolds(rows[i], stream, maxAttempts);
    }
  }

  /** The rows that a fetch has picked are nobody else's. */
  lemma FreshTick(s: State, ids: seq<nat>, maxAttempts: nat)
    requires Distinct(ids) && forall k :: 0 <= k < |ids| ==> ids[k] < |s.rows| && s.rows[ids[k]].status == Pending
    requires RowsHold(s.rows, s.stream, maxAttempts)
    requires TicksHold(s.ticks, s.rows, s.stream, maxAttempts)
    requires TicksHold(s.ticks, Pick(s.rows, ids), s.stream, maxAttempts)
    ensures var picked := Pick(s.rows, ids);
            var tick := if ids == [] then Over else Publishing(Batch(picked, ids), []);
            TicksHold(s.ticks + [tick], picked, s.stream, maxAttempts)
  {
    hide Pick, TicksHold, BatchHolds, Batch, RowsHold;
    var picked := Pick(s.rows, ids);
    var tick := if ids == [] then Over else Publishing(Batch(picked, ids), []);
    FreshBatch(s.rows, ids, s.stream, maxAttempts);
    AppendTick(s, tick, picked, maxAttempts);
  }

  lemma FreshBatch(rows: Table, ids: seq<nat>, stream: seq<string>, maxAttempts: nat)
    requires Distinct(ids) && forall k :: 0 <= k < |ids| ==> ids[k] < |rows| && rows[ids[k]].status == Pending
    requires RowsHold(rows, stream, maxAttempts)
    ensures var picked := Pick(rows, ids);
            && BatchHolds(Batch(picked, ids), [], picked, stream, maxAttempts)
            && (forall id: nat :: InBatch(Batch(picked, ids), id) ==> id < |rows| && rows[id].status == Pending)
  {
    hide Pick, RowsHold, Batch;
    PickedRows(rows, ids);
    var picked := Pick(rows, ids);
    var batch := Batch(picked, ids);
    forall k | 0 <= k < |batch|
      ensures HeldRow(picked, batch[k].id) && batch[k].attempts == picked[batch[k].id].attempts <= maxAttempts
    {
      RowHoldsAt(rows, stream, maxAttempts, ids[k]);
      assert ids[k] in ids;
    }
  }

  lemma RowHoldsAt(rows: Table, stream: seq<string>, maxAttempts: nat, i: nat)
    requires RowsHold(rows, stream, maxAttempts) && i < |rows|
    ensures RowHolds(rows[i], stream, maxAttempts)
  {
  }

  lemma AppendTick(s: State, tick: Tick, picked: Table, maxAttempts: nat)
    requires TicksHold(s.ticks, s.rows, s.stream, maxAttempts) && TicksHold(s.ticks, picked, s.stream, maxAttempts)
    requires TickHolds(tick, picked, s.stream, maxAttempts)
    requires forall id: nat :: HeldBy(tick, id) ==> id < |s.rows| && s.rows[id].status == Pending
    ensures TicksHold(s.ticks + [tick], picked, s.stream, maxAttempts)
  {
    hide HeldBy, TickHolds;
    forall u, id: nat | 0 <= u < |s.ticks| && HeldBy(s.ticks[u], id) ensures !HeldBy(tick, id) {
      HeldRowsAreHeld(s.ticks[u], s.rows, s.stream, maxAttempts, id);
    }
  }

  lemma SameRow(batch: seq<Held>, k: nat, l: nat)
    requires forall k, l :: 0 <= k < l < |batch| ==> batch[k].id != batch[l].id
    requires k < |batch| && l < |batch| && batch[k].id == batch[l].id
    ensures k == l
  {
  }

  lemma SettledTick(batch: seq<Held>, outcomes: seq<bool>, rows: Table, stream: seq<string>, maxAttempts: nat)
    requires BatchHolds(batch, outcomes, rows, stream, maxAttempts)
    ensures var tick := Updating(Plan(batch, outcomes, maxAttempts));
            TickHolds(tick, rows, stream, maxAttempts) && forall id: nat :: HeldBy(tick, id) ==> InBatch(batch, id)
  {
    hide Plan;
    var plan := Plan(batch, outcomes, maxAttempts);
    forall j, id: nat | 0 <= j < |plan| && id in plan[j].ids
      ensures HeldRow(rows, id) && Fitting(plan[j], rows[id], stream, maxAttempts) && InBatch(batch, id)
    {
      var k := PlannedUpdate(batch, outcomes, maxAttempts, j, id);
      assert batch[k].id == id;
    }
    forall i, j, id: nat | 0 <= i < j < |plan| && id in plan[i].ids ensures id !in plan[j].ids {
      if id in plan[j].ids {
        var k := PlannedUpdate(batch, outcomes, maxAttempts, i, id);
        var l := PlannedUpdate(batch, outcomes, maxAttempts, j, id);
        SameRow(batch, k, l);
        PlanKinds(batch, outcomes, maxAttempts, i, j);
      }
    }
  }

  lemma PublishKeepsInv(s: State, t: nat, ok: bool, maxAttempts: nat)
    requires Inv(s, maxAttempts)
    ensures Inv(PublishStep(s, t, ok, maxAttempts), maxAttempts)
  {
    if t < |s.ticks| && s.ticks[t].Publishing? && |s.ticks[t].outcomes| < |s.ticks[t].batch| {
      var batch, outcomes := s.ticks[t].batch, s.ticks[t].outcomes + [ok];
      var id := batch[|outcomes| - 1].id;
      var stream := if ok && id < |s.rows| then s.stream + [s.rows[id].messageId] else s.stream;
      var tick := if |outcomes| < |batch| then Publishing(batch, outcomes)
                  else Updating(Plan(batch, outcomes, maxAttempts));
      assert TickHolds(s.ticks[t], s.rows, s.stream, maxAttempts);
      PublishedBatch(batch, s.ticks[t].outcomes, ok, s.rows, s.stream, stream, maxAttempts);
      SettledTick(batch, outcomes, s.rows, stream, maxAttempts);
      RowsOutlive(s.rows, s.stream, stream, maxAttempts);
      hide Plan, TicksHold, BatchHolds, RowsHold;
      OneGoesOn(s.ticks, t, tick, s.rows, s.stream, s.rows, stream, maxAttempts);
    }
  }

  lemma PublishedBatch(batch: seq<Held>, outcomes: seq<bool>, ok: bool, rows: Table, stream: seq<string>,
                       stream': seq<string>, maxAttempts: nat)
    requires BatchHolds(batch, outcomes, rows, stream, maxAttempts) && |outcomes| < |batch| && Grown(stream, stream')
    requires ok && batch[|outcomes|].id < |rows| ==> rows[batch[|outcomes|].id].messageId in stream'
    ensures BatchHolds(batch, outcomes + [ok], rows, stream', maxAttempts)
  {
    forall k | 0 <= k < |batch| && Published(outcomes + [ok], k) ensures rows[batch[k].id].messageId in stream' {
      if k < |outcomes| {
        assert Published(outcomes, k);
      }
    }
  }

  lemma RowsOutlive(rows: Table, stream: seq<string>, stream': seq<string>, maxAttempts: nat)
    requires RowsHold(rows, stream, maxAttempts) && Grown(stream, stream')
    ensures RowsHold(rows, stream', maxAttempts)
  {
    assert forall i :: 0 <= i < |rows| ==> RowHolds(rows[i], stream, maxAttempts);
  }

  /** An update of rows that are held, to what fits them. */
  lemma UpdateKeepsRows(rows: Table, u: Update, stream: seq<string>, maxAttempts: nat)
    requires RowsHold(rows, stream, maxAttempts) && UpdateHolds(u, rows, stream, maxAttempts)
    ensures RowsHold(Updated(rows, u), stream, maxAttempts)
    ensures Potential(Updated(rows, u), maxAttempts) <= Potential(rows, maxAttempts)
  {
    hide SetStatus;
    var after := Updated(rows, u);
    forall i | 0 <= i < |rows|
      ensures RowHolds(after[i], stream, maxAttempts) && Weight(after[i], maxAttempts) <= Weight(rows[i], maxAttempts)
    {
      assert RowHolds(rows[i], stream, maxAttempts);
    }
    PotentialFalls(rows, after, maxAttempts);
  }

  /** The update of one dispatcher lands; what it holds afterwards is apart from that. */
  lemma UpdateKeepsInv(s: State, t: nat, u: Update, tick: Tick, maxAttempts: nat)
    requires Inv(s, maxAttempts) && t < |s.ticks|
    requires UpdateHolds(u, s.rows, s.stream, maxAttempts)
    requires forall id :: id in u.ids ==> HeldBy(s.ticks[t], id) && !HeldBy(tick, id)
    requires TickHolds(tick, s.rows, s.stream, maxAttempts)
    requires forall id: nat :: HeldBy(tick, id) ==> HeldBy(s.ticks[t], id)
    ensures Inv(s.(rows := Updated(s.rows, u), ticks := s.ticks[t := tick]), maxAttempts)
  {
    hide HeldBy, SetStatus, RowsHold, TicksHold;
    var after := Updated(s.rows, u);
    UpdateKeepsRows(s.rows, u, s.stream, maxAttempts);
    forall id: nat | HeldBy(tick, id) ensures id < |s.rows| && after[id] == s.rows[id] {
      HeldRowsAreHeld(tick, s.rows, s.stream, maxAttempts, id);
    }
    TickFrame(tick, s.rows, s.stream, after, s.stream, maxAttempts);
    OneGoesOn(s.ticks, t, tick, s.rows, s.stream, after, s.stream, maxAttempts);
  }

  lemma UpdateStepKeepsInv(s: State, t: nat, maxAttempts: nat)
    requires Inv(s, maxAttempts)
    ensures Inv(UpdateStep(s, t), maxAttempts)
  {
    if t < |s.ticks| && s.ticks[t].Updating? && s.ticks[t].updates != [] {
      var us := s.ticks[t].updates;
      var tick := if |us| == 1 then Over else Updating(us[1..]);
      assert TickHolds(s.ticks[t], s.rows, s.stream, maxAttempts);
      RestIsApart(us, s.rows, s.stream, maxAttempts);
      UpdateKeepsInv(s, t, us[0], tick, maxAttempts);
    }
  }

  lemma RestIsApart(us: seq<Update>, rows: Table, stream: seq<string>, maxAttempts: nat)
    requires us != [] && TickHolds(Updating(us), rows, stream, maxAttempts)
    ensures TickHolds(Updating(us[1..]), rows, stream, maxAttempts) && UpdateHolds(us[0], rows, stream, maxAttempts)
    ensures forall id :: id in us[0].ids ==> HeldBy(Updating(us), id) && !HeldBy(Updating(us[1..]), id)
    ensures forall id: nat :: HeldBy(Updating(us[1..]), id) ==> HeldBy(Updating(us), id)
  {
    var rest := us[1..];
    assert forall j :: 0 <= j < |rest| ==> rest[j] == us[j + 1];
  }

  /** A dispatcher stops, or is left with the first of its updates under way. */
  lemma LettingGoKeepsInv(s: State, t: nat, tick: Tick, maxAttempts: nat)
    requires Inv(s, maxAttempts) && t < |s.ticks|
    requires tick == Over || (s.ticks[t].Updating? && s.ticks[t].updates != [] && tick == Late(s.ticks[t].updates[0]))
    ensures Inv(s.(ticks := s.ticks[t := tick]), maxAttempts)
  {
    assert TickHolds(s.ticks[t], s.rows, s.stream, maxAttempts);
    hide RowsHold, TicksHold;
    OneGoesOn(s.ticks, t, tick, s.rows, s.stream, s.rows, s.stream, maxAttempts);
  }

  lemma InsertKeepsInv(s: State, m: string, maxAttempts: nat)
    requires Inv(s, maxAttempts) && maxAttempts >= 1
    ensures Inv(s.(rows := s.rows + [Row(m, Pending, 0)]), maxAttempts)
  {
    hide TicksHold;
    PotentialOfNew(s.rows, Row(m, Pending, 0), maxAttempts);
    MulSuccessor(|s.rows|, maxAttempts);
    NobodyGoesOn(s.ticks, s.rows, s.stream, s.rows + [Row(m, Pending, 0)], s.stream, maxAttempts);
  }

  lemma {:induction false} StepKeepsInv(s: State, ev: Event, limit: nat, maxAttempts: nat)
    requires Inv(s, maxAttempts) && maxAttempts >= 1
    ensures Inv(Step(s, ev, limit, maxAttempts), maxAttempts)
  {
    hide FetchStep, PublishStep, UpdateStep, TicksHold, RowsHold;
    match ev
    case Insert(m) => InsertKeepsInv(s, m, maxAttempts);
    case Fetch(ids) => FetchKeepsInv(s, ids, limit, maxAttempts);
    case Publish(t, ok) => PublishKeepsInv(s, t, ok, maxAttempts);
    case StreamAdd(m) =>
      RowsOutlive(s.rows, s.stream, s.stream + [m], maxAttempts);
      NobodyGoesOn(s.ticks, s.rows, s.stream, s.rows, s.stream + [m], maxAttempts);
    case UpdateDone(t) => UpdateStepKeepsInv(s, t, maxAttempts);
    case UpdateLate(t) =>
      if t < |s.ticks| && s.ticks[t].Updating? && s.ticks[t].updates != [] {
        LettingGoKeepsInv(s, t, Late(s.ticks[t].updates[0]), maxAttempts);
      }
    case Land(t) =>
      if t < |s.ticks| && s.ticks[t].Late? {
        LandKeepsInv(s, t, maxAttempts);
      }
    case Crash(t) =>
      if t < |s.ticks| {
        LettingGoKeepsInv(s, t, Over, maxAttempts);
      }
  }

  lemma LandKeepsInv(s: State, t: nat, maxAttempts: nat)
    requires Inv(s, maxAttempts) && t < |s.ticks| && s.ticks[t].Late?
    ensures Inv(s.(rows := Updated(s.rows, s.ticks[t].update), ticks := s.ticks[t := Over]), maxAttempts)
  {
    assert TickHolds(s.ticks[t], s.rows, s.stream, maxAttempts);
    UpdateKeepsInv(s, t, s.ticks[t].update, Over, maxAttempts);
  }

  /** Main invariant of the outbox, over every run. */
  lemma {:induction false} RunKeepsInv(evs: seq<Event>, limit: nat, maxAttempts: nat)
    requires maxAttempts >= 1
    ensures Inv(Run(evs, limit, maxAttempts), maxAttempts)
  {
    hide Step;
    if evs != [] {
      RunKeepsInv(evs[..|evs| - 1], limit, maxAttempts);
      hide Inv;
      StepKeepsInv(Run(evs[..|evs| - 1], limit, maxAttempts), evs[|evs| - 1], limit, maxAttempts);
    }
  }

  // ----- what holds in every run -----------------------------------------------------------------------------------

  /** Sent rows are in the stream; pending ones have attempts left; dead ones have used them all. */
  lemma EveryRow(evs: seq<Event>, limit: nat, maxAttempts: nat, i: nat)
    requires maxAttempts >= 1 && i < |Run(evs, limit, maxAttempts).rows|
    ensures var s := Run(evs, limit, maxAttempts);
            && (s.rows[i].status == Sent ==> s.rows[i].messageId in s.stream)
            && (s.rows[i].status == Pending ==> s.rows[i].attempts < maxAttempts)
            && (s.rows[i].status == Dead ==> s.rows[i].attempts == maxAttempts)
            && (s.rows[i].status == Picked ==> 1 <= s.rows[i].attempts <= maxAttempts)
  {
    hide Run;
    RunKeepsInv(evs, limit, maxAttempts);
    RowHoldsAt(Run(evs, limit, maxAttempts).rows, Run(evs, limit, maxAttempts).stream, maxAttempts, i);
  }

  /** What a dispatcher, or an update of its that is under way, may still change is picked, and no one else's. */
  lemma NoRowHeldTwice(evs: seq<Event>, limit: nat, maxAttempts: nat, t: nat, id: nat)
    requires maxAttempts >= 1 && t < |Run(evs, limit, maxAttempts).ticks|
    requires HeldBy(Run(evs, limit, maxAttempts).ticks[t], id)
    ensures var s := Run(evs, limit, maxAttempts);
            && HeldRow(s.rows, id)
            && forall u :: 0 <= u < |s.ticks| && u != t ==> !HeldBy(s.ticks[u], id)
  {
    hide Run, HeldBy, TickHolds;
    RunKeepsInv(evs, limit, maxAttempts);
    var s := Run(evs, limit, maxAttempts);
    HeldRowsAreHeld(s.ticks[t], s.rows, s.stream, maxAttempts, id);
  }

  /**
   Only so many rows are ever picked, whatever goes wrong: each fetch takes its batch from the attempts that are left.
   */
  lemma PicksAreBounded(evs: seq<Event>, limit: nat, maxAttempts: nat)
    requires maxAttempts >= 1
    ensures var s := Run(evs, limit, maxAttempts);
            s.picks + Potential(s.rows, maxAttempts) <= |s.rows| * maxAttempts
  {
    hide Run;
    RunKeepsInv(evs, limit, maxAttempts);
  }

  // ----- one dispatcher whose table updates succeed ----------------------------------------------------------------

  function Ticks(rows: Table, limit: nat, maxAttempts: nat, oracles: seq<seq<bool>>): Table {
    if oracles == [] then rows
    else
      TickRows(Ticks(rows, limit, maxAttempts, oracles[..|oracles| - 1]), limit, maxAttempts, oracles[|oracles| - 1], 3)
  }

  function AllMessages(rows: Table): seq<string> {
    if rows == [] then [] else AllMessages(rows[..|rows| - 1]) + [rows[|rows| - 1].messageId]
  }

  lemma {:induction false} MessageListed(rows: Table, i: nat)
    requires i < |rows|
    ensures rows[i].messageId in AllMessages(rows)
  {
    if i < |rows| - 1 {
      MessageListed(rows[..|rows| - 1], i);
    }
  }

  lemma {:induction false} PublishedSucceeds(batch: seq<Held>, outcomes: seq<bool>, k: nat)
    requires k < |batch|
    ensures Published(outcomes, k) ==> batch[k].id in Successes(batch, outcomes)
    ensures !Published(outcomes, k) ==> batch[k] in SoftFails(batch, outcomes)
  {
    if k < |batch| - 1 {
      PublishedSucceeds(batch[..|batch| - 1], outcomes, k);
    }
  }

  lemma {:induction false} FailIsListed(fails: seq<Held>, maxAttempts: nat, h: Held)
    requires h in fails
    ensures h.id in WithAttempts(fails, maxAttempts, h.attempts >= maxAttempts)
  {
    if h != fails[|fails| - 1] {
      assert fails == fails[..|fails| - 1] + [fails[|fails| - 1]];
      FailIsListed(fails[..|fails| - 1], maxAttempts, h);
    }
  }

  /** A plan leaves no row of its batch out. */
  lemma PlanCovers(batch: seq<Held>, outcomes: seq<bool>, maxAttempts: nat, k: nat) returns (j: nat)
    requires k < |batch|
    ensures j < |Plan(batch, outcomes, maxAttempts)| && batch[k].id in Plan(batch, outcomes, maxAttempts)[j].ids
  {
    hide Successes, SoftFails, WithAttempts;
    PublishedSucceeds(batch, outcomes, k);
    var plan, fails := Plan(batch, outcomes, maxAttempts), SoftFails(batch, outcomes);
    var exhausted := batch[k].attempts >= maxAttempts;
    if Published(outcomes, k) {
      j := 0;
    } else {
      FailIsListed(fails, maxAttempts, batch[k]);
      j := if exhausted then |plan| - 1
           else if Successes(batch, outcomes) != [] then 1 else 0;
    }
  }

  lemma {:induction false} UpdatedRows(rows: Table, us: seq<Update>, i: nat)
    requires i < |rows|
    ensures |UpdatedAll(rows, us)| == |rows|
    ensures (exists j :: 0 <= j < |us| && i in us[j].ids) ==> UpdatedAll(rows, us)[i].status != Picked
    ensures rows[i].status != Picked ==> UpdatedAll(rows, us)[i].status != Picked
  {
    if us != [] {
      UpdatedRows(rows, us[..|us| - 1], i);
      var before := UpdatedAll(rows, us[..|us| - 1]);
      assert Updated(before, us[|us| - 1])[i].status != Picked ||
             (i !in us[|us| - 1].ids && before[i].status == Picked);
    }
  }

  lemma {:induction false} UpdatesKeepRows(rows: Table, us: seq<Update>, stream: seq<string>, maxAttempts: nat)
    requires RowsHold(rows, stream, maxAttempts) && TickHolds(Updating(us), rows, stream, maxAttempts)
    ensures RowsHold(UpdatedAll(rows, us), stream, maxAttempts)
    ensures Potential(UpdatedAll(rows, us), maxAttempts) <= Potential(rows, maxAttempts)
    ensures forall id :: 0 <= id < |rows| && !HeldBy(Updating(us), id) ==>
              id < |UpdatedAll(rows, us)| && UpdatedAll(rows, us)[id] == rows[id]
  {
    if us != [] {
      var front, last := us[..|us| - 1], us[|us| - 1];
      FrontIsApart(us, rows, stream, maxAttempts);
      UpdatesKeepRows(rows, front, stream, maxAttempts);
      UpdatesKeepMessages(rows, front, []);
      hide UpdatedAll, RowsHold, HeldBy, SetStatus, Potential;
      var before := UpdatedAll(rows, front);
      forall id | id in last.ids ensures HeldRow(before, id) && Fitting(last, before[id], stream, maxAttempts) {
        assert HeldRow(rows, id) && Fitting(last, rows[id], stream, maxAttempts);
      }
      UpdateKeepsRows(before, last, stream, maxAttempts);
      LastUpdate(rows, us);
    }
  }

  lemma LastUpdate(rows: Table, us: seq<Update>)
    requires us != []
    ensures UpdatedAll(rows, us) == Updated(UpdatedAll(rows, us[..|us| - 1]), us[|us| - 1])
  {
  }

  lemma FrontIsApart(us: seq<Update>, rows: Table, stream: seq<string>, maxAttempts: nat)
    requires us != [] && TickHolds(Updating(us), rows, stream, maxAttempts)
    ensures var front, last := us[..|us| - 1], us[|us| - 1];
            && TickHolds(Updating(front), rows, stream, maxAttempts) && UpdateHolds(last, rows, stream, maxAttempts)
            && (forall id :: id in last.ids ==> !HeldBy(Updating(front), id) && HeldBy(Updating(us), id))
            && (forall id: nat :: HeldBy(Updating(front), id) ==> HeldBy(Updating(us), id))
  {
    var front := us[..|us| - 1];
    assert forall j :: 0 <= j < |front| ==> front[j] == us[j];
  }

  ghost predicate Quiet(rows: Table, stream: seq<string>, maxAttempts: nat) {
    && RowsHold(rows, stream, maxAttempts)
    && forall i :: 0 <= i < |rows| ==> rows[i].status != Picked && rows[i].messageId in stream
  }

  lemma PickKeepsMessages(rows: Table, ids: seq<nat>, stream: seq<string>)
    requires Distinct(ids) && forall k :: 0 <= k < |ids| ==> ids[k] < |rows|
    requires forall i :: 0 <= i < |rows| ==> rows[i].messageId in stream
    ensures forall i :: 0 <= i < |rows| ==> Pick(rows, ids)[i].messageId in stream
  {
    PickedRows(rows, ids);
  }

  lemma FetchedPlan(rows: Table, ids: seq<nat>, maxAttempts: nat, outcomes: seq<bool>, stream: seq<string>)
    requires Quiet(rows, stream, maxAttempts)
    requires Distinct(ids) && forall k :: 0 <= k < |ids| ==> ids[k] < |rows| && rows[ids[k]].status == Pending
    ensures var picked := Pick(rows, ids);
            var plan := Plan(Batch(picked, ids), outcomes, maxAttempts);
            && RowsHold(picked, stream, maxAttempts) && TickHolds(Updating(plan), picked, stream, maxAttempts)
            && (forall i :: 0 <= i < |rows| ==> picked[i].messageId in stream)
            && Potential(picked, maxAttempts) + |ids| == Potential(rows, maxAttempts)
  {
    hide Pick, Potential, RowsHold, BatchHolds, TickHolds, Plan, Batch;
    FetchKeepsRows(rows, ids, stream, maxAttempts);
    PickKeepsMessages(rows, ids, stream);
    FreshBatch(rows, ids, stream, maxAttempts);
    var picked := Pick(rows, ids);
    PublishedAll(Batch(picked, ids), outcomes, picked, stream, maxAttempts);
    SettledTick(Batch(picked, ids), outcomes, picked, stream, maxAttempts);
  }

  lemma NothingStaysPicked(rows: Table, ids: seq<nat>, maxAttempts: nat, outcomes: seq<bool>)
    requires Distinct(ids) && forall k :: 0 <= k < |ids| ==> ids[k] < |rows|
    requires forall i :: 0 <= i < |rows| ==> rows[i].status != Picked
    ensures var picked := Pick(rows, ids);
            var after := UpdatedAll(picked, Plan(Batch(picked, ids), outcomes, maxAttempts));
            |after| == |rows| && forall i :: 0 <= i < |rows| ==> after[i].status != Picked
  {
    hide Pick, UpdatedAll, Plan;
    var picked := Pick(rows, ids);
    var batch := Batch(picked, ids);
    var plan := Plan(batch, outcomes, maxAttempts);
    PickedRows(rows, ids);
    UpdatesKeepMessages(picked, plan, []);
    forall i | 0 <= i < |rows| ensures UpdatedAll(picked, plan)[i].status != Picked {
      UpdatedRows(picked, plan, i);
      if i in ids {
        var k :| 0 <= k < |ids| && ids[k] == i;
        var j := PlanCovers(batch, outcomes, maxAttempts, k);
        assert i in plan[j].ids;
      }
    }
  }

  lemma WholePlan(rows: Table, limit: nat, maxAttempts: nat, outcomes: seq<bool>)
    ensures var ids := PendingFrom(rows, 0, limit);
            var picked := Pick(rows, ids);
            TickRows(rows, limit, maxAttempts, outcomes, 3) ==
            UpdatedAll(picked, Plan(Batch(picked, ids), outcomes, maxAttempts))
  {
    hide PendingFrom, Pick, Batch, UpdatedAll, Plan;
    var ids := PendingFrom(rows, 0, limit);
    var plan := Plan(Batch(Pick(rows, ids), ids), outcomes, maxAttempts);
    PlanIsShort(Batch(Pick(rows, ids), ids), outcomes, maxAttempts);
    assert plan[..|plan|] == plan;
  }

  lemma {:induction false} SettledRows(picked: Table, plan: seq<Update>, stream: seq<string>, maxAttempts: nat)
    requires RowsHold(picked, stream, maxAttempts) && TickHolds(Updating(plan), picked, stream, maxAttempts)
    requires forall i :: 0 <= i < |picked| ==> picked[i].messageId in stream
    requires var after := UpdatedAll(picked, plan);
             |after| == |picked| && forall i :: 0 <= i < |picked| ==> after[i].status != Picked
    ensures Quiet(UpdatedAll(picked, plan), stream, maxAttempts)
    ensures Potential(UpdatedAll(picked, plan), maxAttempts) <= Potential(picked, maxAttempts)
  {
    hide UpdatedAll, RowsHold, TickHolds, HeldBy, Potential;
    UpdatesKeepRows(picked, plan, stream, maxAttempts);
    UpdatesKeepMessages(picked, plan, []);
  }

  /**
   Whatever the publishes do, a tick whose updates succeed leaves nothing picked and spends an attempt on each row.
   */
  lemma TickDrains(rows: Table, limit: nat, maxAttempts: nat, outcomes: seq<bool>, stream: seq<string>)
    requires Quiet(rows, stream, maxAttempts)
    ensures var after := TickRows(rows, limit, maxAttempts, outcomes, 3);
            && |after| == |rows| && Quiet(after, stream, maxAttempts)
            && Potential(after, maxAttempts) + |PendingFrom(rows, 0, limit)| <= Potential(rows, maxAttempts)
  {
    var ids := PendingFrom(rows, 0, limit);
    FetchedPlan(rows, ids, maxAttempts, outcomes, stream);
    NothingStaysPicked(rows, ids, maxAttempts, outcomes);
    hide *;
    var picked := Pick(rows, ids);
    WholePlan(rows, limit, maxAttempts, outcomes);
    SettledRows(picked, Plan(Batch(picked, ids), outcomes, maxAttempts), stream, maxAttempts);
  }

  lemma PlanIsShort(batch: seq<Held>, outcomes: seq<bool>, maxAttempts: nat)
    ensures |Plan(batch, outcomes, maxAttempts)| <= 3
  {
    hide Successes, SoftFails, WithAttempts;
  }

  lemma PublishedAll(batch: seq<Held>, outcomes: seq<bool>, rows: Table, stream: seq<string>, maxAttempts: nat)
    requires BatchHolds(batch, [], rows, stream, maxAttempts)
    requires forall i :: 0 <= i < |rows| ==> rows[i].messageId in stream
    ensures BatchHolds(batch, outcomes, rows, stream, maxAttempts)
  {
  }

  lemma {:induction false} TicksDrain(rows: Table, limit: nat, maxAttempts: nat, oracles: seq<seq<bool>>,
                                      stream: seq<string>)
    requires Quiet(rows, stream, maxAttempts) && limit >= 1
    ensures var after := Ticks(rows, limit, maxAttempts, oracles);
            && |after| == |rows| && Quiet(after, stream, maxAttempts)
            && (Potential(after, maxAttempts) + |oracles| <= Potential(rows, maxAttempts) ||
                forall i :: 0 <= i < |after| ==> after[i].status != Pending)
  {
    if oracles != [] {
      var before, last := Ticks(rows, limit, maxAttempts, oracles[..|oracles| - 1]), oracles[|oracles| - 1];
      TicksDrain(rows, limit, maxAttempts, oracles[..|oracles| - 1], stream);
      hide Quiet, TickRows, Potential;
      TickDrains(before, limit, maxAttempts, last, stream);
      if |PendingFrom(before, 0, limit)| == 0 {
        EmptyTick(before, limit, maxAttempts, last);
      }
    }
  }

  lemma EmptyTick(rows: Table, limit: nat, maxAttempts: nat, outcomes: seq<bool>)
    requires |PendingFrom(rows, 0, limit)| == 0
    ensures TickRows(rows, limit, maxAttempts, outcomes, 3) == rows
  {
  }

  /**
   A dispatcher whose table updates succeed settles every row: after as many ticks as there are attempts left, each row
   is sent or dead, whatever Redis does.
   */
  lemma {:induction false} EveryRowSettles(rows: Table, limit: nat, maxAttempts: nat, oracles: seq<seq<bool>>, i: nat)
    requires limit >= 1 && i < |rows| && |oracles| >= Potential(rows, maxAttempts)
    requires RowsHold(rows, AllMessages(rows), maxAttempts) && forall j :: 0 <= j < |rows| ==> rows[j].status != Picked
    ensures var after := Ticks(rows, limit, maxAttempts, oracles);
            |after| == |rows| && (after[i].status == Sent || after[i].status == Dead)
  {
    forall j | 0 <= j < |rows| ensures rows[j].messageId in AllMessages(rows) {
      MessageListed(rows, j);
    }
    TicksDrain(rows, limit, maxAttempts, oracles, AllMessages(rows));
    var after := Ticks(rows, limit, maxAttempts, oracles);
    RowHoldsAt(after, AllMessages(rows), maxAttempts, i);
    if after[i].status == Pending {
      PendingHasWeight(after, maxAttempts, i);
    }
  }

  lemma {:induction false} PendingHasWeight(rows: Table, maxAttempts: nat, i: nat)
    requires i < |rows| && rows[i].status == Pending && rows[i].attempts < maxAttempts
    ensures Potential(rows, maxAttempts) >= 1
  {
    if i < |rows| - 1 {
      PendingHasWeight(rows[..|rows| - 1], maxAttempts, i);
    }
  }

  // ----- when an update is lost ------------------------------------------------------------------------------------

  /** A row picked by a dispatcher that is gone. */
  ghost predicate Stranded(s: State, i: nat) {
    HeldRow(s.rows, i) && forall t :: 0 <= t < |s.ticks| ==> !HeldBy(s.ticks[t], i)
  }

  lemma UpdateSpares(rows: Table, u: Update, i: nat)
    requires i < |rows| && i !in u.ids
    ensures |Updated(rows, u)| == |rows| && Updated(rows, u)[i] == rows[i]
  {
  }

  lemma FetchSpares(s: State, ids: seq<nat>, limit: nat, i: nat)
    requires Stranded(s, i)
    ensures Stranded(FetchStep(s, ids, limit), i)
  {
    if Fetchable(s.rows, ids, limit) {
      hide Pick;
      PickedRows(s.rows, ids);
      var picked := Pick(s.rows, ids);
      assert i !in ids;
      assert forall k :: 0 <= k < |ids| ==> Batch(picked, ids)[k].id == ids[k];
    }
  }

  lemma PublishSpares(s: State, t: nat, ok: bool, maxAttempts: nat, i: nat)
    requires Stranded(s, i)
    ensures Stranded(PublishStep(s, t, ok, maxAttempts), i)
  {
    if t < |s.ticks| && s.ticks[t].Publishing? && |s.ticks[t].outcomes| < |s.ticks[t].batch| {
      hide Plan;
      var batch, outcomes := s.ticks[t].batch, s.ticks[t].outcomes + [ok];
      assert !HeldBy(s.ticks[t], i);
      var plan := Plan(batch, outcomes, maxAttempts);
      if HeldBy(Updating(plan), i) {
        var j :| 0 <= j < |plan| && i in plan[j].ids;
        var k := PlannedUpdate(batch, outcomes, maxAttempts, j, i);
      }
    }
  }

  lemma UpdateStepSpares(s: State, t: nat, i: nat)
    requires Stranded(s, i)
    ensures Stranded(UpdateStep(s, t), i)
  {
    if t < |s.ticks| && s.ticks[t].Updating? && s.ticks[t].updates != [] {
      var us := s.ticks[t].updates;
      assert !HeldBy(s.ticks[t], i);
      UpdateSpares(s.rows, us[0], i);
      assert forall j :: 0 <= j < |us[1..]| ==> us[1..][j] == us[j + 1];
    }
  }

  /** Nothing ever takes such a row up again: it stays picked, whatever dispatchers do. */
  lemma StrandedForever(s: State, ev: Event, limit: nat, maxAttempts: nat, i: nat)
    requires Stranded(s, i)
    ensures Stranded(Step(s, ev, limit, maxAttempts), i)
  {
    hide FetchStep, PublishStep, UpdateStep, Updated;
    match ev
    case Fetch(ids) => FetchSpares(s, ids, limit, i);
    case Publish(t, ok) => PublishSpares(s, t, ok, maxAttempts, i);
    case UpdateDone(t) => UpdateStepSpares(s, t, i);
    case UpdateLate(t) =>
      if t < |s.ticks| && s.ticks[t].Updating? && s.ticks[t].updates != [] {
        assert !HeldBy(s.ticks[t], i);
      }
    case Land(t) =>
      if t < |s.ticks| && s.ticks[t].Late? {
        assert !HeldBy(s.ticks[t], i);
        UpdateSpares(s.rows, s.ticks[t].update, i);
      }
    case _ =>
  }

  lemma {:induction false} StrandedThroughout(evs: seq<Event>, more: seq<Event>, limit: nat, maxAttempts: nat, i: nat)
    requires Stranded(Run(evs, limit, maxAttempts), i)
    ensures Stranded(Run(evs + more, limit, maxAttempts), i)
  {
    hide Step, Stranded;
    if more == [] {
      assert evs + more == evs;
    } else {
      var front := evs + more[..|more| - 1];
      assert (evs + more)[..|evs + more| - 1] == front;
      StrandedThroughout(evs, more[..|more| - 1], limit, maxAttempts, i);
      StrandedForever(Run(front, limit, maxAttempts), more[|more| - 1], limit, maxAttempts, i);
    }
  }

  // ----- exactly when a row is stranded ----------------------------------------------------------------------------

  /**
   The step in which the holder of a row lets it go without an update: it crashes, or an earlier update of it times
   out.
   */
  ghost predicate Drops(s: State, ev: Event, i: nat) {
    match ev
    case Crash(t) => t < |s.ticks| && HeldBy(s.ticks[t], i)
    case UpdateLate(t) =>
      t < |s.ticks| && s.ticks[t].Updating? && s.ticks[t].updates != [] && HeldBy(Updating(s.ticks[t].updates[1..]), i)
    case _ => false
  }

  ghost predicate SomeoneHolds(ticks: seq<Tick>, i: nat) {
    exists t :: 0 <= t < |ticks| && HeldBy(ticks[t], i)
  }

  lemma TickGoesOnHolding(s: State, t: nat, tick: Tick, i: nat)
    requires t < |s.ticks| && (HeldBy(s.ticks[t], i) ==> HeldBy(tick, i)) && SomeoneHolds(s.ticks, i)
    ensures SomeoneHolds(s.ticks[t := tick], i)
  {
    hide HeldBy;
    var u :| 0 <= u < |s.ticks| && HeldBy(s.ticks[u], i);
    assert HeldBy(s.ticks[t := tick][u], i);
  }

  lemma FetchHolds(s: State, ids: seq<nat>, limit: nat, i: nat)
    requires (i < |s.rows| && s.rows[i].status == Picked) ==> SomeoneHolds(s.ticks, i)
    ensures var s' := FetchStep(s, ids, limit);
            i < |s'.rows| && s'.rows[i].status == Picked ==> SomeoneHolds(s'.ticks, i)
  {
    if Fetchable(s.rows, ids, limit) && i < |s.rows| {
      hide Pick;
      PickedRows(s.rows, ids);
      var s' := FetchStep(s, ids, limit);
      if i in ids {
        var k :| 0 <= k < |ids| && ids[k] == i;
        assert s'.ticks[|s.ticks|].Publishing?;
        assert s'.ticks[|s.ticks|].batch[k].id == i;
        assert HeldBy(s'.ticks[|s.ticks|], i);
      } else if s.rows[i].status == Picked {
        var t :| 0 <= t < |s.ticks| && HeldBy(s.ticks[t], i);
        assert HeldBy(s'.ticks[t], i);
      }
    }
  }

  lemma PublishHolds(s: State, t: nat, ok: bool, maxAttempts: nat, i: nat)
    requires SomeoneHolds(s.ticks, i)
    ensures SomeoneHolds(PublishStep(s, t, ok, maxAttempts).ticks, i)
  {
    if t < |s.ticks| && s.ticks[t].Publishing? && |s.ticks[t].outcomes| < |s.ticks[t].batch| {
      hide Plan;
      var batch, outcomes := s.ticks[t].batch, s.ticks[t].outcomes + [ok];
      var tick := if |outcomes| < |batch| then Publishing(batch, outcomes)
                  else Updating(Plan(batch, outcomes, maxAttempts));
      if HeldBy(s.ticks[t], i) {
        var k :| 0 <= k < |batch| && batch[k].id == i;
        var j := PlanCovers(batch, outcomes, maxAttempts, k);
        assert HeldBy(tick, i);
      }
      TickGoesOnHolding(s, t, tick, i);
    }
  }

  /** An update that lands settles the rows it names; its tick goes on holding the others. */
  lemma UpdateHoldsRest(s: State, t: nat, u: Update, tick: Tick, i: nat)
    requires t < |s.ticks| && i < |s.rows| && SomeoneHolds(s.ticks, i)
    requires HeldBy(s.ticks[t], i) ==> i in u.ids || HeldBy(tick, i)
    ensures var s' := s.(rows := Updated(s.rows, u), ticks := s.ticks[t := tick]);
            s'.rows[i].status == Picked ==> SomeoneHolds(s'.ticks, i)
  {
    hide HeldBy;
    var s' := s.(rows := Updated(s.rows, u), ticks := s.ticks[t := tick]);
    if i !in u.ids {
      TickGoesOnHolding(s, t, tick, i);
    }
  }

  lemma UpdateStepHolds(s: State, t: nat, i: nat)
    requires i < |s.rows| && (s.rows[i].status == Picked ==> SomeoneHolds(s.ticks, i))
    ensures var s' := UpdateStep(s, t); i < |s'.rows| && (s'.rows[i].status == Picked ==> SomeoneHolds(s'.ticks, i))
  {
    if t < |s.ticks| && s.ticks[t].Updating? && s.ticks[t].updates != [] {
      var us := s.ticks[t].updates;
      var tick := if |us| == 1 then Over else Updating(us[1..]);
      FirstOrRest(us, i);
      UpdateLeavesPicked(s.rows, us[0], i);
      if s.rows[i].status == Picked {
        UpdateHoldsRest(s, t, us[0], tick, i);
      }
    }
  }

  lemma UpdateLeavesPicked(rows: Table, u: Update, i: nat)
    requires i < |rows|
    ensures |Updated(rows, u)| == |rows| && (Updated(rows, u)[i].status == Picked ==> rows[i].status == Picked)
  {
  }

  lemma FirstOrRest(us: seq<Update>, i: nat)
    requires us != []
    ensures HeldBy(Updating(us), i) <==> i in us[0].ids || HeldBy(Updating(us[1..]), i)
  {
    if HeldBy(Updating(us), i) {
      var j :| 0 <= j < |us| && i in us[j].ids;
      assert j > 0 ==> us[1..][j - 1] == us[j];
    }
    if HeldBy(Updating(us[1..]), i) {
      var j :| 0 <= j < |us[1..]| && i in us[1..][j].ids;
      assert us[j + 1] == us[1..][j];
    }
  }

  /** A picked row that someone holds stays held while it is picked, unless this very step drops it. */
  lemma StepHolds(s: State, ev: Event, limit: nat, maxAttempts: nat, i: nat)
    requires (i < |s.rows| && s.rows[i].status == Picked ==> SomeoneHolds(s.ticks, i)) && !Drops(s, ev, i)
    ensures var s' := Step(s, ev, limit, maxAttempts);
            i < |s'.rows| && s'.rows[i].status == Picked ==> SomeoneHolds(s'.ticks, i)
  {
    hide FetchStep, PublishStep, UpdateStep, Updated, HeldBy;
    match ev
    case Insert(m) =>
    case Fetch(ids) => FetchHolds(s, ids, limit, i);
    case Publish(t, ok) =>
      PublishKeepsRows(s, t, ok, maxAttempts);
      if SomeoneHolds(s.ticks, i) {
        PublishHolds(s, t, ok, maxAttempts, i);
      }
    case StreamAdd(m) =>
    case UpdateDone(t) =>
      UpdateStepKeepsSize(s, t);
      if i < |s.rows| {
        UpdateStepHolds(s, t, i);
      }
    case UpdateLate(t) =>
      if t < |s.ticks| && s.ticks[t].Updating? && s.ticks[t].updates != [] && SomeoneHolds(s.ticks, i) {
        FirstOrRest(s.ticks[t].updates, i);
        LateHolds(s.ticks[t].updates[0], i);
        TickGoesOnHolding(s, t, Late(s.ticks[t].updates[0]), i);
      }
    case Land(t) =>
      if t < |s.ticks| && s.ticks[t].Late? {
        UpdatedSize(s.rows, s.ticks[t].update);
        LateIsItsUpdate(s.ticks[t], i);
        if i < |s.rows| {
          UpdateLeavesPicked(s.rows, s.ticks[t].update, i);
        }
        if i < |s.rows| && s.rows[i].status == Picked {
          UpdateHoldsRest(s, t, s.ticks[t].update, Over, i);
        }
      }
    case Crash(t) =>
      if t < |s.ticks| && SomeoneHolds(s.ticks, i) {
        TickGoesOnHolding(s, t, Over, i);
      }
  }

  lemma PublishKeepsRows(s: State, t: nat, ok: bool, maxAttempts: nat)
    ensures PublishStep(s, t, ok, maxAttempts).rows == s.rows
  {
  }

  lemma UpdateStepKeepsSize(s: State, t: nat)
    ensures |UpdateStep(s, t).rows| == |s.rows|
  {
  }

  lemma UpdatedSize(rows: Table, u: Update)
    ensures |Updated(rows, u)| == |rows|
  {
  }

  lemma LateHolds(u: Update, i: nat)
    ensures HeldBy(Late(u), i) <==> i in u.ids
  {
  }

  lemma LateIsItsUpdate(tick: Tick, i: nat)
    requires tick.Late?
    ensures HeldBy(tick, i) <==> i in tick.update.ids
  {
  }

  /** In the other direction: what a step drops is stranded. */
  lemma DroppedIsStranded(s: State, ev: Event, limit: nat, maxAttempts: nat, i: nat)
    requires Inv(s, maxAttempts) && Drops(s, ev, i)
    ensures Stranded(Step(s, ev, limit, maxAttempts), i)
  {
    var t := ev.tick;
    assert HeldBy(s.ticks[t], i) by {
      if ev.UpdateLate? {
        FirstOrRest(s.ticks[t].updates, i);
      }
    }
    HeldRowsAreHeld(s.ticks[t], s.rows, s.stream, maxAttempts, i);
    assert forall u :: 0 <= u < |s.ticks| && u != t ==> !HeldBy(s.ticks[u], i);
    if ev.UpdateLate? {
      assert TickHolds(s.ticks[t], s.rows, s.stream, maxAttempts);
      RestIsApart(s.ticks[t].updates, s.rows, s.stream, maxAttempts);
      LateHolds(s.ticks[t].updates[0], i);
    }
  }

  /** Some step of the run, in the state it came to, drops the row. */
  ghost predicate EverDropped(evs: seq<Event>, limit: nat, maxAttempts: nat, i: nat) {
    exists n :: 0 <= n < |evs| && Drops(Run(evs[..n], limit, maxAttempts), evs[n], i)
  }

  lemma {:induction false} PickedAndDropped(evs: seq<Event>, limit: nat, maxAttempts: nat, i: nat)
    ensures var s := Run(evs, limit, maxAttempts);
            i < |s.rows| && s.rows[i].status == Picked && !EverDropped(evs, limit, maxAttempts, i) ==>
              SomeoneHolds(s.ticks, i)
  {
    if evs != [] {
      hide Step, Drops, SomeoneHolds;
      var front, last := evs[..|evs| - 1], evs[|evs| - 1];
      PickedAndDropped(front, limit, maxAttempts, i);
      if !EverDropped(evs, limit, maxAttempts, i) {
        assert evs[..|front|] == front;
        assert !Drops(Run(front, limit, maxAttempts), last, i);
        forall n | 0 <= n < |front| ensures !Drops(Run(front[..n], limit, maxAttempts), front[n], i) {
          assert front[..n] == evs[..n] && front[n] == evs[n];
        }
        StepHolds(Run(front, limit, maxAttempts), last, limit, maxAttempts, i);
      }
    }
  }

  lemma DroppedStaysStranded(evs: seq<Event>, limit: nat, maxAttempts: nat, i: nat, n: nat)
    requires maxAttempts >= 1 && n < |evs| && Drops(Run(evs[..n], limit, maxAttempts), evs[n], i)
    ensures Stranded(Run(evs, limit, maxAttempts), i)
  {
    hide Run, Step, Drops, Stranded, Inv;
    var s := Run(evs[..n], limit, maxAttempts);
    RunKeepsInv(evs[..n], limit, maxAttempts);
    DroppedIsStranded(s, evs[n], limit, maxAttempts, i);
    RunGoesOn(evs[..n], evs[n], limit, maxAttempts);
    assert evs[..n] + [evs[n]] == evs[..n + 1];
    assert evs == evs[..n + 1] + evs[n + 1..];
    StrandedThroughout(evs[..n + 1], evs[n + 1..], limit, maxAttempts, i);
  }

  /**
   Exactly when a row is stranded: its holder crashed, or was cut off by a timeout before the update meant for this row.
   Otherwise a picked row is held by a dispatcher that still has its update to make.
   */
  lemma {:induction false} StrandedIffDropped(evs: seq<Event>, limit: nat, maxAttempts: nat, i: nat)
    requires maxAttempts >= 1
    ensures Stranded(Run(evs, limit, maxAttempts), i) <==> EverDropped(evs, limit, maxAttempts, i)
  {
    hide Run, Drops, HeldBy;
    PickedAndDropped(evs, limit, maxAttempts, i);
    if EverDropped(evs, limit, maxAttempts, i) {
      var n :| 0 <= n < |evs| && Drops(Run(evs[..n], limit, maxAttempts), evs[n], i);
      DroppedStaysStranded(evs, limit, maxAttempts, i, n);
    }
  }

  /** A run that strands a row: one dispatcher fetches it and crashes. */
  lemma CrashStrands(m: string)
    ensures Stranded(Run([Insert(m), Fetch([0]), Crash(0)], 1, 1), 0)
  {
    hide Run, Stranded;
    var evs := [Insert(m), Fetch([0]), Crash(0)];
    var s1 := State([Row(m, Pending, 0)], [], [], 0);
    RunStarts([Insert(m)], 1, 1);
    RunGoesOn([Insert(m)], Fetch([0]), 1, 1);
    RunGoesOn([Insert(m), Fetch([0])], Crash(0), 1, 1);
    assert [Insert(m)] + [Fetch([0])] == [Insert(m), Fetch([0])] && [Insert(m), Fetch([0])] + [Crash(0)] == evs;
    assert Run([Insert(m)], 1, 1) == s1;
    assert Run([Insert(m), Fetch([0])], 1, 1) == FetchStep(s1, [0], 1);
    FetchFirst(s1, 1);
    RunKeepsInv([Insert(m), Fetch([0])], 1, 1);
    DroppedIsStranded(FetchStep(s1, [0], 1), Crash(0), 1, 1, 0);
  }

  lemma RunStarts(evs: seq<Event>, limit: nat, maxAttempts: nat)
    requires |evs| == 1
    ensures Run(evs, limit, maxAttempts) == Step(State([], [], [], 0), evs[0], limit, maxAttempts)
  {
    assert evs[..0] == [];
  }

  lemma RunGoesOn(evs: seq<Event>, ev: Event, limit: nat, maxAttempts: nat)
    ensures Run(evs + [ev], limit, maxAttempts) == Step(Run(evs, limit, maxAttempts), ev, limit, maxAttempts)
  {
    assert (evs + [ev])[..|evs|] == evs;
  }

  lemma FetchFirst(s: State, limit: nat)
    requires limit >= 1 && s.rows != [] && s.rows[0].status == Pending && s.ticks == []
    ensures var s' := FetchStep(s, [0], limit); |s'.ticks| == 1 && HeldBy(s'.ticks[0], 0)
  {
    var s' := FetchStep(s, [0], limit);
    assert s'.ticks[0].batch[0].id == 0;
  }

  // ----- settlement under any interleaving -------------------------------------------------------------------------

  function TickWork(tick: Tick): nat {
    match tick
    case Publishing(batch, outcomes) => (if |outcomes| < |batch| then |batch| - |outcomes| else 0) + 3
    case Updating(us) => |us|
    case Late(_) => 1
    case Over => 0
  }

  function TicksWork(ticks: seq<Tick>): nat {
    if ticks == [] then 0 else TicksWork(ticks[..|ticks| - 1]) + TickWork(ticks[|ticks| - 1])
  }

  /** What dispatchers can still do: each attempt left is worth a fetch, a publish and three updates. */
  function Work(s: State, maxAttempts: nat): nat {
    5 * Potential(s.rows, maxAttempts) + TicksWork(s.ticks)
  }

  /** A step in which a dispatcher gets something done. */
  ghost predicate Effective(s: State, ev: Event, limit: nat) {
    match ev
    case Fetch(ids) => ids != [] && Fetchable(s.rows, ids, limit)
    case Publish(t, _) => t < |s.ticks| && s.ticks[t].Publishing? && |s.ticks[t].outcomes| < |s.ticks[t].batch|
    case UpdateDone(t) => t < |s.ticks| && s.ticks[t].Updating? && s.ticks[t].updates != []
    case Land(t) => t < |s.ticks| && s.ticks[t].Late?
    case _ => false
  }

  lemma {:induction false} WorkOfOne(ticks: seq<Tick>, t: nat, tick: Tick)
    requires t < |ticks|
    ensures TicksWork(ticks[t := tick]) + TickWork(ticks[t]) == TicksWork(ticks) + TickWork(tick)
  {
    var front := ticks[..|ticks| - 1];
    if t < |front| {
      WorkOfOne(front, t, tick);
      assert ticks[t := tick][..|front|] == front[t := tick];
    } else {
      assert ticks[t := tick][..|front|] == front;
    }
  }

  lemma WorkOfNew(ticks: seq<Tick>, tick: Tick)
    ensures TicksWork(ticks + [tick]) == TicksWork(ticks) + TickWork(tick)
  {
    assert (ticks + [tick])[..|ticks|] == ticks;
  }

  /** Every effective step uses work up; only an insert brings new work. */
  lemma StepWorks(s: State, ev: Event, limit: nat, maxAttempts: nat)
    requires Inv(s, maxAttempts) && maxAttempts >= 1
    ensures Work(Step(s, ev, limit, maxAttempts), maxAttempts) + (if Effective(s, ev, limit) then 1 else 0)
         <= Work(s, maxAttempts) + (if ev.Insert? then 5 * maxAttempts else 0)
  {
    hide Plan, Updated, Pick, RowsHold, OneHolder, Batch, Potential, TicksWork, UpdateHolds;
    match ev
    case Insert(m) => PotentialOfNew(s.rows, Row(m, Pending, 0), maxAttempts);
    case Fetch(ids) =>
      if Fetchable(s.rows, ids, limit) {
        FetchKeepsRows(s.rows, ids, s.stream, maxAttempts);
        FetchWork(s, ids);
      }
    case Publish(t, ok) =>
      if Effective(s, ev, limit) {
        var outcomes := s.ticks[t].outcomes + [ok];
        PlanIsShort(s.ticks[t].batch, outcomes, maxAttempts);
        WorkOfOne(s.ticks, t, PublishStep(s, t, ok, maxAttempts).ticks[t]);
      }
    case StreamAdd(_) =>
    case UpdateDone(t) =>
      if Effective(s, ev, limit) {
        assert TickHolds(s.ticks[t], s.rows, s.stream, maxAttempts);
        UpdateKeepsRows(s.rows, s.ticks[t].updates[0], s.stream, maxAttempts);
        WorkOfOne(s.ticks, t, UpdateStep(s, t).ticks[t]);
      }
    case UpdateLate(t) =>
      if t < |s.ticks| && s.ticks[t].Updating? && s.ticks[t].updates != [] {
        WorkOfOne(s.ticks, t, Late(s.ticks[t].updates[0]));
      }
    case Land(t) =>
      if Effective(s, ev, limit) {
        assert TickHolds(s.ticks[t], s.rows, s.stream, maxAttempts);
        UpdateKeepsRows(s.rows, s.ticks[t].update, s.stream, maxAttempts);
        WorkOfOne(s.ticks, t, Over);
      }
    case Crash(t) =>
      if t < |s.ticks| {
        WorkOfOne(s.ticks, t, Over);
      }
  }

  lemma FetchWork(s: State, ids: seq<nat>)
    requires forall k :: 0 <= k < |ids| ==> ids[k] < |s.rows|
    ensures var picked := Pick(s.rows, ids);
            var tick := if ids == [] then Over else Publishing(Batch(picked, ids), []);
            TicksWork(s.ticks + [tick]) == TicksWork(s.ticks) + if ids == [] then 0 else |ids| + 3
  {
    hide Pick;
    WorkOfNew(s.ticks, if ids == [] then Over else Publishing(Batch(Pick(s.rows, ids), ids), []));
  }

  /** How many steps of a run are effective. */
  ghost function EffectiveSteps(evs: seq<Event>, limit: nat, maxAttempts: nat): nat {
    if evs == [] then 0
    else
      EffectiveSteps(evs[..|evs| - 1], limit, maxAttempts) +
      if Effective(Run(evs[..|evs| - 1], limit, maxAttempts), evs[|evs| - 1], limit) then 1 else 0
  }

  /**
   However many dispatchers there are and whatever goes wrong, each row ever inserted is worth at most five effective
   steps an attempt.
   */
  lemma {:induction false} WorkIsBounded(evs: seq<Event>, limit: nat, maxAttempts: nat)
    requires maxAttempts >= 1
    ensures var s := Run(evs, limit, maxAttempts);
            EffectiveSteps(evs, limit, maxAttempts) + Work(s, maxAttempts) <= 5 * maxAttempts * |s.rows|
  {
    hide Step, Work, Inv, Effective;
    if evs == [] {
      NoWork(maxAttempts);
    } else {
      var front, last := evs[..|evs| - 1], evs[|evs| - 1];
      WorkIsBounded(front, limit, maxAttempts);
      RunKeepsInv(front, limit, maxAttempts);
      var s := Run(front, limit, maxAttempts);
      StepWorks(s, last, limit, maxAttempts);
      StepRows(s, last, limit, maxAttempts);
      MulSuccessor(|s.rows|, 5 * maxAttempts);
    }
  }

  lemma NoWork(maxAttempts: nat)
    ensures Work(State([], [], [], 0), maxAttempts) == 0
  {
  }

  lemma StepRows(s: State, ev: Event, limit: nat, maxAttempts: nat)
    ensures |Step(s, ev, limit, maxAttempts).rows| == |s.rows| + if ev.Insert? then 1 else 0
  {
    hide Pick, Plan;
  }

  /** A row that is neither settled nor stranded keeps some dispatcher's next step open: nothing waits for ever. */
  lemma UnsettledGoesOn(s: State, limit: nat, i: nat)
    requires limit >= 1 && i < |s.rows| && s.rows[i].status != Sent && s.rows[i].status != Dead
    requires s.rows[i].status == Picked ==> SomeoneHolds(s.ticks, i)
    requires forall t :: 0 <= t < |s.ticks| && s.ticks[t].Publishing? ==> |s.ticks[t].outcomes| < |s.ticks[t].batch|
    ensures exists ev :: Effective(s, ev, limit)
  {
    if s.rows[i].status == Pending {
      assert Effective(s, Fetch([i]), limit);
    } else {
      var t :| 0 <= t < |s.ticks| && HeldBy(s.ticks[t], i);
      match s.ticks[t]
      case Publishing(_, _) => assert Effective(s, Publish(t, true), limit);
      case Updating(_) => assert Effective(s, UpdateDone(t), limit);
      case Late(_) => assert Effective(s, Land(t), limit);
      case Over =>
    }
  }

  /** A dispatcher stops publishing with its last row. */
  ghost predicate PublishersBusy(s: State) {
    forall t :: 0 <= t < |s.ticks| && s.ticks[t].Publishing? ==> |s.ticks[t].outcomes| < |s.ticks[t].batch|
  }

  lemma {:induction false} RunKeepsPublishersBusy(evs: seq<Event>, limit: nat, maxAttempts: nat)
    ensures PublishersBusy(Run(evs, limit, maxAttempts))
  {
    if evs != [] {
      RunKeepsPublishersBusy(evs[..|evs| - 1], limit, maxAttempts);
      StepKeepsPublishersBusy(Run(evs[..|evs| - 1], limit, maxAttempts), evs[|evs| - 1], limit, maxAttempts);
      hide Step, PublishersBusy;
    }
  }

  lemma StepKeepsPublishersBusy(s: State, ev: Event, limit: nat, maxAttempts: nat)
    requires PublishersBusy(s)
    ensures PublishersBusy(Step(s, ev, limit, maxAttempts))
  {
    hide Pick, Updated, Plan, Fetchable;
  }

  /**
   Settlement, for any number of interleaved dispatchers and inserts at any time: when no dispatcher has anything left
   to do (which WorkIsBounded says comes unless rows keep arriving), each row is sent or dead, unless its holder
   dropped it; and a row that was dropped is neither.
   */
  lemma SettledUnlessDropped(evs: seq<Event>, limit: nat, maxAttempts: nat, i: nat)
    requires limit >= 1 && maxAttempts >= 1 && i < |Run(evs, limit, maxAttempts).rows|
    requires forall ev :: !Effective(Run(evs, limit, maxAttempts), ev, limit)
    ensures var row := Run(evs, limit, maxAttempts).rows[i];
            (row.status == Sent || row.status == Dead) <==> !EverDropped(evs, limit, maxAttempts, i)
  {
    hide Run, HeldBy, Effective;
    var s := Run(evs, limit, maxAttempts);
    StrandedIffDropped(evs, limit, maxAttempts, i);
    RunKeepsPublishersBusy(evs, limit, maxAttempts);
    PickedAndDropped(evs, limit, maxAttempts, i);
    if !EverDropped(evs, limit, maxAttempts, i) && s.rows[i].status != Sent && s.rows[i].status != Dead {
      UnsettledGoesOn(s, limit, i);
    }
  }

  // ----- a tick that nothing interrupts ----------------------------------------------------------------------------

  ghost function StepAll(s: State, evs: seq<Event>, limit: nat, maxAttempts: nat): State {
    if evs == [] then s
    else Step(StepAll(s, evs[..|evs| - 1], limit, maxAttempts), evs[|evs| - 1], limit, maxAttempts)
  }

  lemma Further(s: State, evs: seq<Event>, t: State, ev: Event, limit: nat, maxAttempts: nat)
    requires StepAll(s, evs, limit, maxAttempts) == t
    ensures StepAll(s, evs + [ev], limit, maxAttempts) == Step(t, ev, limit, maxAttempts)
  {
    assert (evs + [ev])[..|evs|] == evs;
  }

  /** The events of tick t on its own: its fetch, its publishes, and the updates that go through. */
  function TickEvents(t: nat, ids: seq<nat>, outcomes: seq<bool>, published: nat, updates: nat): seq<Event> {
    if updates > 0 then TickEvents(t, ids, outcomes, published, updates - 1) + [UpdateDone(t)]
    else if published > 0 then
      TickEvents(t, ids, outcomes, published - 1, 0) + [Publish(t, Published(outcomes, published - 1))]
    else [Fetch(ids)]
  }

  /** The outcomes of the first k publishes. */
  function FirstOutcomes(outcomes: seq<bool>, k: nat): (first: seq<bool>)
    ensures |first| == k && forall j :: 0 <= j < k ==> first[j] == Published(outcomes, j)
  {
    seq(k, j requires 0 <= j < k => Published(outcomes, j))
  }

  lemma {:induction false} SamePlan(batch: seq<Held>, outcomes: seq<bool>, outcomes': seq<bool>)
    requires forall k :: 0 <= k < |batch| ==> Published(outcomes, k) == Published(outcomes', k)
    ensures Successes(batch, outcomes) == Successes(batch, outcomes')
    ensures SoftFails(batch, outcomes) == SoftFails(batch, outcomes')
  {
    if batch != [] {
      SamePlan(batch[..|batch| - 1], outcomes, outcomes');
    }
  }

  /** Where the tick is when the first k rows have been published. */
  ghost function Publishes(s: State, ids: seq<nat>, outcomes: seq<bool>, k: nat, maxAttempts: nat): State
    requires forall j :: 0 <= j < |ids| ==> ids[j] < |s.rows|
    requires k <= |ids|
  {
    var picked := Pick(s.rows, ids);
    var batch := Batch(picked, ids);
    var tick := if ids == [] then Over
                else if k < |ids| then Publishing(batch, FirstOutcomes(outcomes, k))
                else Updating(Plan(batch, outcomes, maxAttempts));
    State(picked, s.stream + Messages(picked, Successes(batch[..k], outcomes)), s.ticks + [tick], s.picks + |ids|)
  }

  lemma PublishesStart(s: State, ids: seq<nat>, outcomes: seq<bool>, limit: nat, maxAttempts: nat)
    requires Fetchable(s.rows, ids, limit)
    ensures Step(s, Fetch(ids), limit, maxAttempts) == Publishes(s, ids, outcomes, 0, maxAttempts)
  {
    hide Pick;
    var picked := Pick(s.rows, ids);
    assert Messages(picked, Successes(Batch(picked, ids)[..0], outcomes)) == [];
    assert FirstOutcomes(outcomes, 0) == [];
  }

  lemma OneMorePublish(s: State, ids: seq<nat>, outcomes: seq<bool>, k: nat, limit: nat, maxAttempts: nat)
    requires (forall j :: 0 <= j < |ids| ==> ids[j] < |s.rows|) && k < |ids|
    ensures Step(Publishes(s, ids, outcomes, k, maxAttempts), Publish(|s.ticks|, Published(outcomes, k)), limit,
                 maxAttempts) ==
            Publishes(s, ids, outcomes, k + 1, maxAttempts)
  {
    hide Pick, Successes, SoftFails, WithAttempts, Messages, Published;
    var picked := Pick(s.rows, ids);
    var batch, first := Batch(picked, ids), FirstOutcomes(outcomes, k + 1);
    var p, t := Publishes(s, ids, outcomes, k, maxAttempts), |s.ticks|;
    assert FirstOutcomes(outcomes, k) + [Published(outcomes, k)] == first;
    assert p.ticks[t] == Publishing(batch, FirstOutcomes(outcomes, k)) && batch[k].id == ids[k] < |p.rows|;
    Outbox.PublishStep(batch, k, outcomes);
    MessagesAppend(picked, Successes(batch[..k], outcomes), ids[k]);
    var tick := if k + 1 < |ids| then Publishing(batch, first) else Updating(Plan(batch, first, maxAttempts));
    assert p.ticks[t := tick] == s.ticks + [tick];
    AllPublished(batch, outcomes, first, k + 1);
    var done := Successes(batch[..k], outcomes);
    assert done + [] == done;
    assert Step(p, Publish(t, Published(outcomes, k)), limit, maxAttempts).stream ==
           s.stream + Messages(picked, Successes(batch[..k + 1], outcomes));
  }

  lemma AllPublished(batch: seq<Held>, outcomes: seq<bool>, first: seq<bool>, k: nat)
    requires |first| == k && forall j :: 0 <= j < k ==> first[j] == Published(outcomes, j)
    ensures k == |batch| ==> Successes(batch, outcomes) == Successes(batch, first)
    ensures k == |batch| ==> SoftFails(batch, outcomes) == SoftFails(batch, first)
  {
    if k == |batch| {
      SamePlan(batch, outcomes, first);
    }
  }

  lemma {:induction false} PublishesAtOnce(s: State, ids: seq<nat>, outcomes: seq<bool>, k: nat, limit: nat,
                                           maxAttempts: nat)
    requires Fetchable(s.rows, ids, limit) && k <= |ids|
    ensures StepAll(s, TickEvents(|s.ticks|, ids, outcomes, k, 0), limit, maxAttempts) ==
            Publishes(s, ids, outcomes, k, maxAttempts)
  {
    hide Step, Publishes;
    if k == 0 {
      PublishesStart(s, ids, outcomes, limit, maxAttempts);
      assert [Fetch(ids)][..0] == [];
    } else {
      PublishesAtOnce(s, ids, outcomes, k - 1, limit, maxAttempts);
      OneMorePublish(s, ids, outcomes, k - 1, limit, maxAttempts);
      Further(s, TickEvents(|s.ticks|, ids, outcomes, k - 1, 0), Publishes(s, ids, outcomes, k - 1, maxAttempts),
              Publish(|s.ticks|, Published(outcomes, k - 1)), limit, maxAttempts);
    }
  }

  /** Where a tick is when n of its updates have gone through. */
  function Settling(s: State, plan: seq<Update>, n: nat): State
    requires n <= |plan| && s.ticks != []
  {
    s.(rows := UpdatedAll(s.rows, plan[..n]),
       ticks := s.ticks[|s.ticks| - 1 := if n < |plan| then Updating(plan[n..]) else Over])
  }

  lemma OneMoreUpdate(s: State, plan: seq<Update>, n: nat, limit: nat, maxAttempts: nat)
    requires n < |plan| && s.ticks != []
    ensures Step(Settling(s, plan, n), UpdateDone(|s.ticks| - 1), limit, maxAttempts) == Settling(s, plan, n + 1)
  {
    hide UpdatedAll, Updated;
    UpdatedNext(s.rows, plan, n);
    assert plan[n..][1..] == plan[n + 1..];
  }

  lemma UpdatedNext(rows: Table, plan: seq<Update>, n: nat)
    requires n < |plan|
    ensures UpdatedAll(rows, plan[..n + 1]) == Updated(UpdatedAll(rows, plan[..n]), plan[n])
  {
    assert plan[..n + 1][..n] == plan[..n];
  }

  lemma {:induction false} UpdatesAtOnce(s: State, t: State, ids: seq<nat>, outcomes: seq<bool>, plan: seq<Update>,
                                         n: nat, limit: nat, maxAttempts: nat)
    requires n <= |plan| && |plan| > 0 && t.ticks != [] && t.ticks[|t.ticks| - 1] == Updating(plan)
    requires StepAll(s, TickEvents(|t.ticks| - 1, ids, outcomes, |ids|, 0), limit, maxAttempts) == t
    ensures StepAll(s, TickEvents(|t.ticks| - 1, ids, outcomes, |ids|, n), limit, maxAttempts) == Settling(t, plan, n)
  {
    hide Step, Updated;
    if n == 0 {
      assert plan[0..] == plan && t.ticks[|t.ticks| - 1 := Updating(plan)] == t.ticks;
    } else {
      UpdatesAtOnce(s, t, ids, outcomes, plan, n - 1, limit, maxAttempts);
      OneMoreUpdate(t, plan, n - 1, limit, maxAttempts);
      hide Settling;
      Further(s, TickEvents(|t.ticks| - 1, ids, outcomes, |ids|, n - 1), Settling(t, plan, n - 1),
              UpdateDone(|t.ticks| - 1), limit, maxAttempts);
    }
  }

  /**
   A tick that nothing interrupts leaves the table and the stream as `Outbox.Dispatcher.Tick` does, whichever publishes
   succeed and however many of its updates go through before one throws.
   */
  lemma TickAtOnce(s: State, outcomes: seq<bool>, through: nat, limit: nat, maxAttempts: nat)
    ensures var ids := PendingFrom(s.rows, 0, limit);
            var batch := Batch(Pick(s.rows, ids), ids);
            var n := Min(through, |Plan(batch, outcomes, maxAttempts)|);
            var t := StepAll(s, TickEvents(|s.ticks|, ids, outcomes, |ids|, n), limit, maxAttempts);
            && t.rows == TickRows(s.rows, limit, maxAttempts, outcomes, through)
            && t.stream == s.stream + Messages(Pick(s.rows, ids), Successes(batch, outcomes))
            && |t.ticks| == |s.ticks| + 1 && t.ticks[..|s.ticks|] == s.ticks
  {
    var ids := PendingFrom(s.rows, 0, limit);
    var batch := Batch(Pick(s.rows, ids), ids);
    var t, plan := Publishes(s, ids, outcomes, |ids|, maxAttempts), Plan(batch, outcomes, maxAttempts);
    FetchesPending(s.rows, limit);
    PublishesAtOnce(s, ids, outcomes, |ids|, limit, maxAttempts);
    AllPublishes(s, ids, outcomes, maxAttempts);
    NoPlanIffNone(batch, outcomes, maxAttempts);
    hide Step, StepAll, TickEvents, Pick, PendingFrom, UpdatedAll, Messages, Publishes, Plan, Fetchable;
    if ids != [] {
      UpdatesAtOnce(s, t, ids, outcomes, plan, Min(through, |plan|), limit, maxAttempts);
    } else {
      NothingUpdated(t.rows, plan);
    }
  }

  lemma AllPublishes(s: State, ids: seq<nat>, outcomes: seq<bool>, maxAttempts: nat)
    requires forall j :: 0 <= j < |ids| ==> ids[j] < |s.rows|
    ensures var picked := Pick(s.rows, ids);
            var batch := Batch(picked, ids);
            Publishes(s, ids, outcomes, |ids|, maxAttempts) ==
            State(picked, s.stream + Messages(picked, Successes(batch, outcomes)),
                  s.ticks + [if ids == [] then Over else Updating(Plan(batch, outcomes, maxAttempts))],
                  s.picks + |ids|)
  {
    hide Pick, Messages, Successes, Plan;
    var batch := Batch(Pick(s.rows, ids), ids);
    assert batch[..|ids|] == batch;
  }

  lemma NoPlanIffNone(batch: seq<Held>, outcomes: seq<bool>, maxAttempts: nat)
    ensures Plan(batch, outcomes, maxAttempts) == [] <==> batch == []
  {
    if batch != [] {
      var j := PlanCovers(batch, outcomes, maxAttempts, 0);
    }
  }

  lemma FetchesPending(rows: Table, limit: nat)
    ensures Fetchable(rows, PendingFrom(rows, 0, limit), limit)
  {
  }
}
