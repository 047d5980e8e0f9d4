/** The durable work queue: leases with fencing numbers over rows that leave only on an ack. */
module Queue {
  import opened Model

  datatype WorkKind = Backfill | Tip | Reorg

  datatype WorkItem = WorkItem(chain: nat, from: nat, to: nat, kind: WorkKind, epoch: nat)

  /** The columns of the unique index that deduplicates pending items. */
  datatype ItemKey = ItemKey(chain: nat, from: nat, to: nat, kind: WorkKind)

  function KeyOf(item: WorkItem): ItemKey {
    ItemKey(item.chain, item.from, item.to, item.kind)
  }

  /** A queue row; `lockedAt` is the time it was leased, if it is leased. */
  datatype QueueRow = QueueRow(item: WorkItem, lockedAt: Option<int>, leaseSeq: nat)

  /** The table and the next value of its id sequence. */
  datatype QueueTable = QueueTable(rows: map<nat, QueueRow>, nextId: nat)

  const EMPTY_QUEUE := QueueTable(map[], 1)

  datatype Lease = Lease(id: nat, leaseSeq: nat, item: WorkItem)

  predicate Queued(q: QueueTable, key: ItemKey) {
    exists id :: id in q.rows && KeyOf(q.rows[id].item) == key
  }

  /** The same range of the same chain for the same reason, whatever the epoch. */
  predicate SameWork(a: WorkItem, b: WorkItem) {
    a.chain == b.chain && a.from == b.from && a.to == b.to && a.kind == b.kind
  }

  /** Insert unless an equal item is already queued; the id is drawn either way. */
  function Pushed(q: QueueTable, item: WorkItem): QueueTable {
    if Queued(q, KeyOf(item)) then q.(nextId := q.nextId + 1)
    else QueueTable(q.rows[q.nextId := QueueRow(item, None, 0)], q.nextId + 1)
  }

  /** Unleased, and no row of its chain is leased. */
  predicate Ready(q: QueueTable, id: nat) {
    && id in q.rows && q.rows[id].lockedAt.None?
    && forall other :: other in q.rows && q.rows[other].lockedAt.Some? ==>
         q.rows[other].item.chain != q.rows[id].item.chain
  }

  predicate OldestReady(q: QueueTable, id: nat) {
    Ready(q, id) && forall other :: other in q.rows && Ready(q, other) ==> id <= other
  }

  function Leased(q: QueueTable, id: nat, now: int): QueueTable
    requires id in q.rows
  {
    var row := q.rows[id];
    q.(rows := q.rows[id := QueueRow(row.item, Some(now), row.leaseSeq + 1)])
  }

  function LeaseOn(q: QueueTable, id: nat): Lease
    requires id in q.rows
  {
    Lease(id, q.rows[id].leaseSeq, q.rows[id].item)
  }

  function Acked(q: QueueTable, id: nat, leaseSeq: nat): QueueTable {
    if id in q.rows && q.rows[id].leaseSeq == leaseSeq then q.(rows := q.rows - {id}) else q
  }

  predicate Expired(row: QueueRow, now: int, olderThan: nat) {
    row.lockedAt.Some? && row.lockedAt.value < now - olderThan
  }

  function Reclaimed(q: QueueTable, now: int, olderThan: nat): QueueTable {
    q.(rows := map id | id in q.rows ::
                 if Expired(q.rows[id], now, olderThan)
                 then QueueRow(q.rows[id].item, None, q.rows[id].leaseSeq + 1)
                 else q.rows[id])
  }

  // ---------------------------------------------------------------- the repository

  /** The `work_queue` table behind the repository's operations. The clock is a parameter. */
  class WorkQueue {
    var rows: map<nat, QueueRow>
    var nextId: nat

    ghost function Table(): QueueTable
      reads this
    {
      QueueTable(rows, nextId)
    }

    constructor ()
      ensures Table() == EMPTY_QUEUE
    {
      rows, nextId := map[], 1;
    }

    /** A handle on a table that is already there. */
    constructor Over(table: QueueTable)
      ensures Table() == table
    {
      rows, nextId := table.rows, table.nextId;
    }

    method Push(item: WorkItem)
      modifies this
      ensures Table() == Pushed(old(Table()), item) && nextId == old(nextId) + 1
      ensures (exists id :: id in old(rows) && SameWork(old(rows)[id].item, item)) ==> rows == old(rows)
      ensures (forall id :: id in old(rows) ==> !SameWork(old(rows)[id].item, item)) ==>
                rows == old(rows)[old(nextId) := QueueRow(item, None, 0)]
    {
      if !(exists id :: id in rows && KeyOf(rows[id].item) == KeyOf(item)) {
        rows := rows[nextId := QueueRow(item, None, 0)];
      }
      nextId := nextId + 1;
    }

    /** Leases the lowest-numbered row that is ready, if any row is. */
    method PullAny(now: int) returns (lease: Option<Lease>)
      modifies this
      ensures lease.None? <==> !exists id :: id in old(rows) && Ready(old(Table()), id)
      ensures lease.None? ==> Table() == old(Table())
      ensures lease.Some? ==>
                && OldestReady(old(Table()), lease.value.id)
                && Table() == Leased(old(Table()), lease.value.id, now)
                && lease.value == LeaseOn(Table(), lease.value.id)
      ensures lease.Some? ==>
                var id, row := lease.value.id, old(rows)[lease.value.id];
                && (forall other :: other in old(rows) && old(rows)[other].item.chain == row.item.chain ==>
                      old(rows)[other].lockedAt.None?)
                && (forall other :: other in old(rows) && other < id ==>
                      exists leased :: leased in old(rows) && old(rows)[leased].lockedAt.Some? &&
                                       old(rows)[leased].item.chain == old(rows)[other].item.chain)
                && rows == old(rows)[id := QueueRow(row.item, Some(now), row.leaseSeq + 1)]
                && lease.value == Lease(id, row.leaseSeq + 1, row.item)
    {
      var inFlight := set id | id in rows && rows[id].lockedAt.Some? :: rows[id].item.chain;
      var scan := rows.Keys;
      var found: Option<nat> := None;
      while scan != {}
        invariant scan <= rows.Keys && rows == old(rows) && nextId == old(nextId)
        invariant found.Some? ==> Ready(Table(), found.value)
        invariant forall id :: id in rows.Keys - scan && Ready(Table(), id) ==> found.Some? && found.value <= id
        decreases scan
      {
        var id :| id in scan;
        scan := scan - {id};
        assert rows[id].item.chain in inFlight <==>
               exists other :: other in rows && rows[other].lockedAt.Some? && rows[other].item.chain == rows[id].item.chain;
        if rows[id].lockedAt.None? && rows[id].item.chain !in inFlight {
          if found.None? || id < found.value {
            found := Some(id);
          }
        }
      }
      if found.None? {
        return None;
      }
      var id := found.value;
      rows := rows[id := QueueRow(rows[id].item, Some(now), rows[id].leaseSeq + 1)];
      return Some(Lease(id, rows[id].leaseSeq, rows[id].item));
    }

    method Depth() returns (n: nat)
      ensures n == |rows|
    {
      n := |rows|;
    }

    method Ack(id: nat, leaseSeq: nat)
      modifies this
      ensures Table() == Acked(old(Table()), id, leaseSeq)
      ensures id in old(rows) && old(rows)[id].leaseSeq == leaseSeq ==> rows == old(rows) - {id}
      ensures id !in old(rows) || old(rows)[id].leaseSeq != leaseSeq ==> rows == old(rows)
    {
      if id in rows && rows[id].leaseSeq == leaseSeq {
        rows := rows - {id};
      }
    }

    method ReclaimExpired(now: int, olderThan: nat) returns (n: nat)
      modifies this
      ensures Table() == Reclaimed(old(Table()), now, olderThan)
      ensures rows.Keys == old(rows).Keys
      ensures forall id :: id in rows ==>
                var row := old(rows)[id];
                if row.lockedAt.Some? && row.lockedAt.value + olderThan < now
                then rows[id] == QueueRow(row.item, None, row.leaseSeq + 1)
                else rows[id] == row
      ensures n == |set id | id in old(rows) && old(rows)[id].lockedAt.Some? && old(rows)[id].lockedAt.value + olderThan < now|
    {
      assert forall id :: id in rows ==>
               (Expired(rows[id], now, olderThan) <==> rows[id].lockedAt.Some? && rows[id].lockedAt.value + olderThan < now);
      n := |set id | id in rows && Expired(rows[id], now, olderThan)|;
      assert (set id | id in rows && Expired(rows[id], now, olderThan)) ==
             (set id | id in rows && rows[id].lockedAt.Some? && rows[id].lockedAt.value + olderThan < now);
      rows := map id | id in rows ::
                if Expired(rows[id], now, olderThan)
                then QueueRow(rows[id].item, None, rows[id].leaseSeq + 1)
                else rows[id];
    }
  }

  // ---------------------------------------------------------------- runs

  /** One atomic step of the queue. An ack names a lease some consumer was given earlier. */
  datatype QueueStep =
    | Push(item: WorkItem)
    | Pull(id: nat, now: int)
    | Ack(id: nat, leaseSeq: nat)
    | Reclaim(now: int, olderThan: nat)

  /** The table with what a run has done so far: the leases handed out, in order, and those of
      them a reclaim has revoked. */
  datatype QueueState = QueueState(table: QueueTable, handed: seq<(nat, nat)>, revoked: set<(nat, nat)>)

  const INITIAL := QueueState(EMPTY_QUEUE, [], {})

  predicate Enabled(s: QueueState, step: QueueStep) {
    match step
    case Push(_) => true
    case Pull(id, _) => OldestReady(s.table, id)
    case Ack(id, leaseSeq) => (id, leaseSeq) in s.handed
    case Reclaim(_, _) => true
  }

  function RevokedBy(q: QueueTable, now: int, olderThan: nat): set<(nat, nat)> {
    set id | id in q.rows && Expired(q.rows[id], now, olderThan) :: (id, q.rows[id].leaseSeq)
  }

  function Next(s: QueueState, step: QueueStep): QueueState
    requires Enabled(s, step)
  {
    match step
    case Push(item) => s.(table := Pushed(s.table, item))
    case Pull(id, now) =>
      s.(table := Leased(s.table, id, now), handed := s.handed + [(id, s.table.rows[id].leaseSeq + 1)])
    case Ack(id, leaseSeq) => s.(table := Acked(s.table, id, leaseSeq))
    case Reclaim(now, olderThan) =>
      s.(table := Reclaimed(s.table, now, olderThan), revoked := s.revoked + RevokedBy(s.table, now, olderThan))
  }

  ghost predicate DistinctItems(q: QueueTable) {
    forall a, b :: a in q.rows && b in q.rows && a != b ==> KeyOf(q.rows[a].item) != KeyOf(q.rows[b].item)
  }

  ghost predicate OneLeasePerChain(q: QueueTable) {
    forall a, b :: a in q.rows && b in q.rows && a != b && q.rows[a].lockedAt.Some? && q.rows[b].lockedAt.Some? ==>
      q.rows[a].item.chain != q.rows[b].item.chain
  }

  ghost predicate IdsDrawn(s: QueueState) {
    && (forall id :: id in s.table.rows ==> id < s.table.nextId)
    && (forall k :: 0 <= k < |s.handed| ==> s.handed[k].0 < s.table.nextId)
  }

  /** The current lease of a leased row was handed out and not revoked; every lease handed out
      is at most the row's number, and strictly below it once the row is free again. */
  ghost predicate Fenced(s: QueueState) {
    && (forall id :: id in s.table.rows && s.table.rows[id].lockedAt.Some? ==>
          (id, s.table.rows[id].leaseSeq) in s.handed && (id, s.table.rows[id].leaseSeq) !in s.revoked)
    && (forall k :: 0 <= k < |s.handed| && s.handed[k].0 in s.table.rows ==>
          && s.handed[k].1 <= s.table.rows[s.handed[k].0].leaseSeq
          && (s.handed[k].1 == s.table.rows[s.handed[k].0].leaseSeq ==> s.table.rows[s.handed[k].0].lockedAt.Some?))
    && (forall l :: l in s.revoked ==> l in s.handed)
    && (forall l :: l in s.revoked && l.0 in s.table.rows ==> l.1 < s.table.rows[l.0].leaseSeq)
  }

  ghost predicate HandedOnce(s: QueueState) {
    forall j, k :: 0 <= j < k < |s.handed| ==> s.handed[j] != s.handed[k]
  }

  ghost predicate Inv(s: QueueState) {
    IdsDrawn(s) && DistinctItems(s.table) && OneLeasePerChain(s.table) && Fenced(s) && HandedOnce(s)
  }

  lemma PullIsFresh(s: QueueState, id: nat)
    requires Fenced(s) && id in s.table.rows
    ensures (id, s.table.rows[id].leaseSeq + 1) !in s.handed
  {
  }

  lemma PullKeepsFence(s: QueueState, id: nat, now: int)
    requires Fenced(s) && OldestReady(s.table, id)
    ensures Fenced(Next(s, Pull(id, now)))
  {
    var s' := Next(s, Pull(id, now));
    PullIsFresh(s, id);
    forall i | i in s'.table.rows && s'.table.rows[i].lockedAt.Some?
      ensures (i, s'.table.rows[i].leaseSeq) in s'.handed && (i, s'.table.rows[i].leaseSeq) !in s'.revoked
    {
      if i == id {
        assert s'.handed[|s.handed|] == (id, s'.table.rows[id].leaseSeq);
      } else {
        assert (i, s.table.rows[i].leaseSeq) in s.handed;
      }
    }
    forall k | 0 <= k < |s'.handed| && s'.handed[k].0 in s'.table.rows
      ensures s'.handed[k].1 <= s'.table.rows[s'.handed[k].0].leaseSeq
      ensures s'.handed[k].1 == s'.table.rows[s'.handed[k].0].leaseSeq ==>
                s'.table.rows[s'.handed[k].0].lockedAt.Some?
    {
      if k < |s.handed| {
        assert s'.handed[k] == s.handed[k];
      }
    }
  }

  lemma PullKeepsTable(q: QueueTable, id: nat, now: int)
    requires DistinctItems(q) && OneLeasePerChain(q) && OldestReady(q, id)
    ensures DistinctItems(Leased(q, id, now)) && OneLeasePerChain(Leased(q, id, now))
  {
  }

  lemma PullKeepsInv(s: QueueState, id: nat, now: int)
    requires Inv(s) && OldestReady(s.table, id)
    ensures Inv(Next(s, Pull(id, now)))
  {
    PullKeepsTable(s.table, id, now);
    PullKeepsFence(s, id, now);
    PullIsFresh(s, id);
  }

  lemma ReclaimKeepsTable(q: QueueTable, now: int, olderThan: nat)
    requires DistinctItems(q) && OneLeasePerChain(q)
    ensures DistinctItems(Reclaimed(q, now, olderThan)) && OneLeasePerChain(Reclaimed(q, now, olderThan))
    ensures Reclaimed(q, now, olderThan).rows.Keys == q.rows.Keys
  {
  }

  lemma ReclaimedRow(s: QueueState, now: int, olderThan: nat, id: nat)
    requires id in s.table.rows
    ensures var row, row' := s.table.rows[id], Reclaimed(s.table, now, olderThan).rows[id];
            if Expired(row, now, olderThan) then row'.lockedAt.None? && row'.leaseSeq == row.leaseSeq + 1 else row' == row
  {
  }

  lemma ReclaimKeepsFence(s: QueueState, now: int, olderThan: nat)
    requires Fenced(s)
    ensures Fenced(Next(s, Reclaim(now, olderThan)))
  {
    var s' := Next(s, Reclaim(now, olderThan));
    forall id | id in s'.table.rows && s'.table.rows[id].lockedAt.Some?
      ensures (id, s'.table.rows[id].leaseSeq) in s'.handed && (id, s'.table.rows[id].leaseSeq) !in s'.revoked
    {
      ReclaimedRow(s, now, olderThan, id);
    }
    forall k | 0 <= k < |s'.handed| && s'.handed[k].0 in s'.table.rows
      ensures s'.handed[k].1 <= s'.table.rows[s'.handed[k].0].leaseSeq
      ensures s'.handed[k].1 == s'.table.rows[s'.handed[k].0].leaseSeq ==> s'.table.rows[s'.handed[k].0].lockedAt.Some?
    {
      ReclaimedRow(s, now, olderThan, s.handed[k].0);
    }
    forall l | l in s'.revoked
      ensures l in s'.handed && (l.0 in s'.table.rows ==> l.1 < s'.table.rows[l.0].leaseSeq)
    {
      if l.0 in s.table.rows {
        ReclaimedRow(s, now, olderThan, l.0);
      }
    }
  }

  lemma ReclaimKeepsInv(s: QueueState, now: int, olderThan: nat)
    requires Inv(s)
    ensures Inv(Next(s, Reclaim(now, olderThan)))
  {
    ReclaimKeepsTable(s.table, now, olderThan);
    ReclaimKeepsFence(s, now, olderThan);
  }

  lemma PushKeepsTable(q: QueueTable, item: WorkItem)
    requires DistinctItems(q) && OneLeasePerChain(q)
    ensures DistinctItems(Pushed(q, item)) && OneLeasePerChain(Pushed(q, item))
  {
  }

  lemma PushKeepsInv(s: QueueState, item: WorkItem)
    requires Inv(s)
    ensures Inv(Next(s, Push(item)))
  {
    PushKeepsTable(s.table, item);
  }

  lemma AckKeepsInv(s: QueueState, id: nat, leaseSeq: nat)
    requires Inv(s) && Enabled(s, Ack(id, leaseSeq))
    ensures Inv(Next(s, Ack(id, leaseSeq)))
  {
  }

  lemma StepKeepsInv(s: QueueState, step: QueueStep)
    requires Inv(s) && Enabled(s, step)
    ensures Inv(Next(s, step))
  {
    match step
    case Push(item) => PushKeepsInv(s, item);
    case Pull(id, now) => PullKeepsInv(s, id, now);
    case Ack(id, leaseSeq) => AckKeepsInv(s, id, leaseSeq);
    case Reclaim(now, olderThan) => ReclaimKeepsInv(s, now, olderThan);
  }

  /** A lease nobody acked in time comes back: once `olderThan` has passed since it was taken its row is
      free, under a new number, and ready to be pulled. Until then a reclaim leaves it alone. */
  lemma ReclaimFreesTheChain(q: QueueTable, id: nat, t: int, now: int, olderThan: nat)
    requires OneLeasePerChain(q) && id in q.rows && q.rows[id].lockedAt == Some(t)
    ensures var q' := Reclaimed(q, now, olderThan);
            && q'.rows.Keys == q.rows.Keys
            && (t + olderThan < now ==> q'.rows[id] == QueueRow(q.rows[id].item, None, q.rows[id].leaseSeq + 1) && Ready(q', id))
            && (now <= t + olderThan ==> q'.rows[id] == q.rows[id])
  {
    var q' := Reclaimed(q, now, olderThan);
    assert forall other :: other in q'.rows && q'.rows[other].lockedAt.Some? ==> q'.rows[other] == q.rows[other];
  }

  /** Two pulls whose sub-queries both look before either leases keep the rule exactly when they lease
      rows of different chains; for one chain the second row is no longer ready when it is leased. */
  lemma OverlappingPulls(q: QueueTable, a: nat, b: nat, now: int, later: int)
    requires OneLeasePerChain(q) && Ready(q, a) && Ready(q, b) && a != b
    ensures OneLeasePerChain(Leased(Leased(q, a, now), b, later)) <==> q.rows[a].item.chain != q.rows[b].item.chain
    ensures Ready(Leased(q, a, now), b) <==> q.rows[a].item.chain != q.rows[b].item.chain
  {
    var one := Leased(q, a, now);
    var two := Leased(one, b, later);
    assert one.rows[a].lockedAt.Some? && two.rows[a] == one.rows[a] && two.rows[b].lockedAt.Some?;
    assert forall id :: id in q.rows && id != a && id != b ==> two.rows[id] == q.rows[id];
  }

  /** A run: steps taken from the empty queue, with the state before each and the final one. */
  ghost predicate Run(states: seq<QueueState>, steps: seq<QueueStep>) {
    && |states| == |steps| + 1
    && states[0] == INITIAL
    && forall k {:trigger steps[k]} :: 0 <= k < |steps| ==> Enabled(states[k], steps[k]) && states[k + 1] == Next(states[k], steps[k])
  }

  lemma {:induction false} RunKeepsInv(states: seq<QueueState>, steps: seq<QueueStep>, k: nat)
    requires Run(states, steps) && k <= |steps|
    ensures Inv(states[k])
  {
    if k > 0 {
      RunKeepsInv(states, steps, k - 1);
      StepKeepsInv(states[k - 1], steps[k - 1]);
      assert states[k - 1 + 1] == Next(states[k - 1], steps[k - 1]);
    }
  }

  lemma {:induction false} HistoryGrows(states: seq<QueueState>, steps: seq<QueueStep>, i: nat, k: nat)
    requires Run(states, steps) && i <= k <= |steps|
    ensures states[i].handed <= states[k].handed
    ensures states[i].revoked <= states[k].revoked
    decreases k - i
  {
    if i < k {
      HistoryGrows(states, steps, i, k - 1);
      assert states[k - 1 + 1] == Next(states[k - 1], steps[k - 1]);
    }
  }

  /** At most one row of a chain is leased at any moment of any run. */
  lemma OneInFlightPerChain(states: seq<QueueState>, steps: seq<QueueStep>, k: nat)
    requires Run(states, steps) && k <= |steps|
    ensures OneLeasePerChain(states[k].table)
    ensures DistinctItems(states[k].table)
  {
    RunKeepsInv(states, steps, k);
  }

  /** The lease a pull hands out. */
  function LeaseOf(s: QueueState, step: QueueStep): (nat, nat)
    requires step.Pull? && step.id in s.table.rows
  {
    (step.id, s.table.rows[step.id].leaseSeq + 1)
  }

  /** No two pulls of a run hand out the same lease. */
  lemma NoLeaseHandedTwice(states: seq<QueueState>, steps: seq<QueueStep>, i: nat, j: nat)
    requires Run(states, steps) && i < j < |steps| && steps[i].Pull? && steps[j].Pull?
    requires steps[i].id in states[i].table.rows && steps[j].id in states[j].table.rows
    ensures LeaseOf(states[i], steps[i]) != LeaseOf(states[j], steps[j])
    ensures steps[i].id == steps[j].id ==>
              states[i].table.rows[steps[i].id].leaseSeq != states[j].table.rows[steps[j].id].leaseSeq
  {
    RunKeepsInv(states, steps, j);
    assert states[i + 1] == Next(states[i], steps[i]);
    assert LeaseOf(states[i], steps[i]) in states[i + 1].handed;
    HistoryGrows(states, steps, i + 1, j);
    assert LeaseOf(states[i], steps[i]) in states[j].handed;
    assert Enabled(states[j], steps[j]);
    PullIsFresh(states[j], steps[j].id);
  }

  /** Once a reclaim has found a lease older than allowed, an ack on it changes nothing, ever. */
  lemma StaleAckIsNoOp(states: seq<QueueState>, steps: seq<QueueStep>, j: nat, k: nat)
    requires Run(states, steps) && j < k < |steps| && steps[j].Reclaim? && steps[k].Ack?
    requires steps[k].id in states[j].table.rows
    requires var row := states[j].table.rows[steps[k].id];
             row.leaseSeq == steps[k].leaseSeq && row.lockedAt.Some? && row.lockedAt.value + steps[j].olderThan < steps[j].now
    ensures states[k + 1].table == states[k].table
  {
    assert (steps[k].id, steps[k].leaseSeq) in RevokedBy(states[j].table, steps[j].now, steps[j].olderThan);
    RunKeepsInv(states, steps, k);
    assert states[j + 1] == Next(states[j], steps[j]);
    HistoryGrows(states, steps, j + 1, k);
    assert (steps[k].id, steps[k].leaseSeq) in states[k].revoked;
    assert states[k + 1] == Next(states[k], steps[k]);
  }

  /** A row leaves the queue only by an ack from the consumer that holds its current lease; a
      row that stays keeps its item. */
  lemma RowsLeaveOnlyByHolderAck(states: seq<QueueState>, steps: seq<QueueStep>, k: nat, id: nat)
    requires Run(states, steps) && k < |steps| && id in states[k].table.rows
    ensures id in states[k + 1].table.rows ==>
              states[k + 1].table.rows[id].item == states[k].table.rows[id].item
    ensures id !in states[k + 1].table.rows ==>
              && steps[k] == Ack(id, states[k].table.rows[id].leaseSeq)
              && states[k].table.rows[id].lockedAt.Some?
              && (id, states[k].table.rows[id].leaseSeq) in states[k].handed
              && (id, states[k].table.rows[id].leaseSeq) !in states[k].revoked
  {
    RunKeepsInv(states, steps, k);
    assert states[k + 1] == Next(states[k], steps[k]) && Enabled(states[k], steps[k]);
  }
}
