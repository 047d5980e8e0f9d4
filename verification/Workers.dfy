/** The queue consumer as it is written: lease an item, decode its range, ack. One turn of it is a run
    of the separate steps that other workers and the ingest loop interleave with. */
module Workers {
  import opened Model
  import opened Queue
  import opened Chain
  import opened Database
  import opened Decode
  import opened Indexer
  import opened Delivery

  /** The three reads with nothing in between give the rows of the span, or its failure. */
  lemma ReadsAreTheSpan(ds: Decoders, db: Db, lease: Lease)
    requires lease.item.chain in ds
    ensures var item := lease.item;
            var me := HasTimes(lease, RecordsIn(db.raw, item.chain, item.from, item.to), TimesIn(db.blocks, item.chain, item.from, item.to));
            AfterCalls(ds, db, me) ==
            if SpanFails(ds[item.chain], db.raw, db.typed, item.chain, item.from, item.to) then Idle
            else Writing(lease, SpanRows(ds[item.chain], db.raw, db.blocks, db.typed, item.chain, item.from, item.to))
  {
  }

  lemma EmptyWriteIsNoOp(byTx: Schema, typed: map<RowKey, EventRow>, typed': map<RowKey, EventRow>)
    requires Inserted(byTx, typed, {}, typed')
    ensures typed' == typed
  {
  }

  /** One worker's state as it writes the first `k` tables of its batch. */
  ghost function Midway(s: State, wk: nat, lease: Lease, rows: set<EventRow>, tables: seq<string>, trace: seq<map<RowKey, EventRow>>, k: nat): State
    requires k <= |tables| && |trace| == |tables| + 1
  {
    State(s.db.(typed := trace[k]), s.workers[wk := Writing(lease, rows - OfTables(rows, tables[..k]))])
  }

  lemma RowsLeft(rows: set<EventRow>, tables: seq<string>, k: nat)
    requires k < |tables| && forall i, j :: 0 <= i < j < |tables| ==> tables[i] != tables[j]
    ensures var left := rows - OfTables(rows, tables[..k]);
            && OfTable(left, tables[k]) == OfTable(rows, tables[k])
            && left - OfTable(left, tables[k]) == rows - OfTables(rows, tables[..k + 1])
  {
    assert tables[..k + 1] == tables[..k] + [tables[k]];
  }

  /** Writing one more table is a step, or no change when the batch has no row for it. */
  lemma WriteLeads(byTx: Schema, ds: Decoders, w: World, s: State, wk: nat, lease: Lease, left: set<EventRow>,
                   table: string, typed: map<RowKey, EventRow>, s': State)
    requires wk in s.workers && s.workers[wk] == Writing(lease, left) && Inserted(byTx, s.db.typed, OfTable(left, table), typed)
    requires s' == State(s.db.(typed := typed), s.workers[wk := Writing(lease, left - OfTable(left, table))])
    ensures OfTable(left, table) == {} ==> s' == s
    ensures OfTable(left, table) != {} ==> Leads(byTx, ds, w, {}, s, Write(wk, table, typed), s')
  {
    if OfTable(left, table) == {} {
      EmptyWriteIsNoOp(byTx, s.db.typed, typed);
      assert left - OfTable(left, table) == left;
      assert s'.workers == s.workers;
    }
  }

  lemma MidwayMoves(byTx: Schema, s: State, wk: nat, lease: Lease, rows: set<EventRow>, tables: seq<string>,
                    trace: seq<map<RowKey, EventRow>>, j: nat, left: set<EventRow>, mid: State)
    requires WriteRun(byTx, rows, tables, trace) && j < |tables| && left == rows - OfTables(rows, tables[..j])
    requires mid == Midway(s, wk, lease, rows, tables, trace, j)
    ensures Inserted(byTx, mid.db.typed, OfTable(left, tables[j]), trace[j + 1])
    ensures Midway(s, wk, lease, rows, tables, trace, j + 1) ==
            State(mid.db.(typed := trace[j + 1]), mid.workers[wk := Writing(lease, left - OfTable(left, tables[j]))])
  {
    RowsLeft(rows, tables, j);
    var me := Writing(lease, left - OfTable(left, tables[j]));
    assert mid.workers[wk := me] == s.workers[wk := me];
  }

  /** Writing a batch table by table is a run. */
  lemma {:induction false} WritesAreARun(
    byTx: Schema, ds: Decoders, w: World, s: State, wk: nat, lease: Lease, rows: set<EventRow>,
    tables: seq<string>, trace: seq<map<RowKey, EventRow>>, k: nat)
    returns (states: seq<State>, steps: seq<Step>)
    requires WriteRun(byTx, rows, tables, trace) && trace[0] == s.db.typed && k <= |tables|
    requires wk in s.workers && s.workers[wk] == Writing(lease, rows)
    ensures IndexRun(byTx, ds, w, {}, states, steps) && states[0] == s
    ensures states[|steps|] == Midway(s, wk, lease, rows, tables, trace, k)
  {
    if k == 0 {
      assert rows - OfTables(rows, tables[..0]) == rows;
      assert s.workers[wk := Writing(lease, rows)] == s.workers;
      states, steps := [s], [];
    } else {
      var j: nat := k - 1;
      states, steps := WritesAreARun(byTx, ds, w, s, wk, lease, rows, tables, trace, j);
      var mid, next := Midway(s, wk, lease, rows, tables, trace, j), Midway(s, wk, lease, rows, tables, trace, k);
      var left := rows - OfTables(rows, tables[..j]);
      MidwayMoves(byTx, s, wk, lease, rows, tables, trace, j, left, mid);
      WriteLeads(byTx, ds, w, mid, wk, lease, left, tables[j], trace[k], next);
      if OfTable(left, tables[j]) != {} {
        states, steps := OneMore(byTx, ds, w, {}, states, steps, Write(wk, tables[j], trace[k]), next);
      }
    }
  }

  /** The state after a lease and the three reads. */
  ghost function AfterReads(ds: Decoders, s: State, wk: nat, id: nat, now: int): State
    requires id in s.db.queue.rows && s.db.queue.rows[id].item.chain in ds
  {
    var queue := Leased(s.db.queue, id, now);
    var item := s.db.queue.rows[id].item;
    var me := if SpanFails(ds[item.chain], s.db.raw, s.db.typed, item.chain, item.from, item.to) then Idle
              else Writing(LeaseOn(queue, id), SpanRows(ds[item.chain], s.db.raw, s.db.blocks, s.db.typed, item.chain, item.from, item.to));
    State(s.db.(queue := queue), s.workers[wk := me])
  }

  lemma PullLeads(byTx: Schema, ds: Decoders, w: World, s: State, wk: nat, id: nat, now: int, s': State)
    requires WorkerOf(s, wk).Idle? && OldestReady(s.db.queue, id)
    requires var queue := Leased(s.db.queue, id, now);
             s' == State(s.db.(queue := queue), s.workers[wk := AfterPull(ds, LeaseOn(queue, id))])
    ensures Leads(byTx, ds, w, {}, s, Step.Pull(wk, id, now), s')
  {
  }

  lemma ReadLeads(byTx: Schema, ds: Decoders, w: World, s: State, wk: nat, lease: Lease, records: set<RawRecord>, times: map<nat, int>)
    requires wk in s.workers
    requires records == RecordsIn(s.db.raw, lease.item.chain, lease.item.from, lease.item.to)
    requires times == TimesIn(s.db.blocks, lease.item.chain, lease.item.from, lease.item.to)
    ensures s.workers[wk] == Holding(lease) ==>
              Leads(byTx, ds, w, {}, s, ReadRaw(wk), s.(workers := s.workers[wk := HasRaw(lease, records)]))
    ensures s.workers[wk] == HasRaw(lease, records) ==>
              Leads(byTx, ds, w, {}, s, ReadTimes(wk), s.(workers := s.workers[wk := HasTimes(lease, records, times)]))
    ensures s.workers[wk] == HasTimes(lease, records, times) ==>
              Leads(byTx, ds, w, {}, s, ReadCalls(wk), s.(workers := s.workers[wk := AfterCalls(ds, s.db, HasTimes(lease, records, times))]))
  {
  }

  /** The state with the lease taken and the worker as given. */
  ghost function LeasedAs(s: State, wk: nat, id: nat, now: int, me: Worker): State
    requires id in s.db.queue.rows
  {
    State(s.db.(queue := Leased(s.db.queue, id, now)), s.workers[wk := me])
  }

  lemma WorkerChanges(s: State, wk: nat, id: nat, now: int, a: Worker, b: Worker)
    requires id in s.db.queue.rows
    ensures LeasedAs(s, wk, id, now, b) == LeasedAs(s, wk, id, now, a).(workers := LeasedAs(s, wk, id, now, a).workers[wk := b])
  {
    assert s.workers[wk := a][wk := b] == s.workers[wk := b];
  }

  /** Leasing an item and reading it is a run. */
  lemma ReadsAreARun(byTx: Schema, ds: Decoders, w: World, s: State, wk: nat, id: nat, now: int)
    returns (states: seq<State>, steps: seq<Step>)
    requires WorkerOf(s, wk).Idle? && OldestReady(s.db.queue, id) && s.db.queue.rows[id].item.chain in ds
    ensures IndexRun(byTx, ds, w, {}, states, steps) && states[0] == s && states[|steps|] == AfterReads(ds, s, wk, id, now)
  {
    var lease := LeaseOn(Leased(s.db.queue, id, now), id);
    var item := lease.item;
    var records, times := RecordsIn(s.db.raw, item.chain, item.from, item.to), TimesIn(s.db.blocks, item.chain, item.from, item.to);
    var last := AfterCalls(ds, LeasedAs(s, wk, id, now, Idle).db, HasTimes(lease, records, times));
    ReadsAreTheSpan(ds, LeasedAs(s, wk, id, now, Idle).db, lease);
    PullLeads(byTx, ds, w, s, wk, id, now, LeasedAs(s, wk, id, now, Holding(lease)));
    states, steps := OneMore(byTx, ds, w, {}, [s], [], Step.Pull(wk, id, now), LeasedAs(s, wk, id, now, Holding(lease)));
    ReadLeads(byTx, ds, w, LeasedAs(s, wk, id, now, Holding(lease)), wk, lease, records, times);
    WorkerChanges(s, wk, id, now, Holding(lease), HasRaw(lease, records));
    states, steps := OneMore(byTx, ds, w, {}, states, steps, ReadRaw(wk), LeasedAs(s, wk, id, now, HasRaw(lease, records)));
    ReadLeads(byTx, ds, w, LeasedAs(s, wk, id, now, HasRaw(lease, records)), wk, lease, records, times);
    WorkerChanges(s, wk, id, now, HasRaw(lease, records), HasTimes(lease, records, times));
    states, steps := OneMore(byTx, ds, w, {}, states, steps, ReadTimes(wk), LeasedAs(s, wk, id, now, HasTimes(lease, records, times)));
    ReadLeads(byTx, ds, w, LeasedAs(s, wk, id, now, HasTimes(lease, records, times)), wk, lease, records, times);
    WorkerChanges(s, wk, id, now, HasTimes(lease, records, times), last);
    states, steps := OneMore(byTx, ds, w, {}, states, steps, ReadCalls(wk), LeasedAs(s, wk, id, now, last));
  }

  /** The database a turn leaves that leased `id`. */
  ghost function TurnedOver(db: Db, id: nat, now: int, failed: bool, typed: map<RowKey, EventRow>): Db
    requires id in db.queue.rows
  {
    db.(typed := typed, queue := if failed then Leased(db.queue, id, now) else db.queue.(rows := db.queue.rows - {id}))
  }

  /** Acking what was just leased takes the row out. */
  lemma AckIsARun(byTx: Schema, ds: Decoders, w: World, s: State, wk: nat, q: QueueTable, id: nat, now: int)
    requires id in q.rows && s.db.queue == Leased(q, id, now)
    requires wk in s.workers && s.workers[wk] == Writing(LeaseOn(Leased(q, id, now), id), {})
    ensures var s' := State(s.db.(queue := q.(rows := q.rows - {id})), s.workers[wk := Idle]);
            Leads(byTx, ds, w, {}, s, Step.Ack(wk), s')
  {
    assert Leased(q, id, now).rows - {id} == q.rows - {id};
  }

  /** A turn on a chain without a decoder is a run: leased and acked unread. */
  lemma UnreadTurn(byTx: Schema, ds: Decoders, w: World, s: State, wk: nat, id: nat, now: int)
    returns (states: seq<State>, steps: seq<Step>)
    requires WorkerOf(s, wk).Idle? && OldestReady(s.db.queue, id) && s.db.queue.rows[id].item.chain !in ds
    ensures IndexRun(byTx, ds, w, {}, states, steps) && states[0] == s
    ensures states[|steps|] == State(TurnedOver(s.db, id, now, false, s.db.typed), s.workers[wk := Idle])
  {
    var me := Writing(LeaseOn(Leased(s.db.queue, id, now), id), {});
    var s1 := LeasedAs(s, wk, id, now, me);
    PullLeads(byTx, ds, w, s, wk, id, now, s1);
    states, steps := OneMore(byTx, ds, w, {}, [s], [], Step.Pull(wk, id, now), s1);
    AckIsARun(byTx, ds, w, s1, wk, s.db.queue, id, now);
    var s2 := State(TurnedOver(s.db, id, now, false, s.db.typed), s.workers[wk := Idle]);
    assert s1.workers[wk := Idle] == s2.workers;
    states, steps := OneMore(byTx, ds, w, {}, states, steps, Step.Ack(wk), s2);
  }

  /** A turn that decoded its item is a run: leased, read, written table by table, acked. */
  lemma DecodedTurn(byTx: Schema, ds: Decoders, w: World, s: State, wk: nat, id: nat, now: int, rows: set<EventRow>,
                    tables: seq<string>, trace: seq<map<RowKey, EventRow>>, typed: map<RowKey, EventRow>)
    returns (states: seq<State>, steps: seq<Step>)
    requires WorkerOf(s, wk).Idle? && OldestReady(s.db.queue, id) && s.db.queue.rows[id].item.chain in ds
    requires AfterReads(ds, s, wk, id, now).workers[wk] == Writing(LeaseOn(Leased(s.db.queue, id, now), id), rows)
    requires Writes(byTx, rows, s.db.typed, typed, tables, trace)
    ensures IndexRun(byTx, ds, w, {}, states, steps) && states[0] == s
    ensures states[|steps|] == State(TurnedOver(s.db, id, now, false, typed), s.workers[wk := Idle])
  {
    var lease, n := LeaseOn(Leased(s.db.queue, id, now), id), |tables|;
    var a, aSteps := ReadsAreARun(byTx, ds, w, s, wk, id, now);
    var read := a[|aSteps|];
    var b, bSteps := WritesAreARun(byTx, ds, w, read, wk, lease, rows, tables, trace, n);
    states, steps := RunsJoin(byTx, ds, w, {}, a, aSteps, b, bSteps);
    var written := states[|steps|];
    assert tables[..n] == tables;
    assert rows - OfTables(rows, tables) == {};
    AckIsARun(byTx, ds, w, written, wk, s.db.queue, id, now);
    var last := State(TurnedOver(s.db, id, now, false, typed), s.workers[wk := Idle]);
    assert last.workers == written.workers[wk := Idle];
    RunExtends(byTx, ds, w, {}, states, steps, Step.Ack(wk), last);
    states, steps := states + [last], steps + [Step.Ack(wk)];
  }

  /** What a turn that leased `id` comes to: an item without a decoder is acked unread; one that cannot
      be decoded stays leased and writes nothing; otherwise its rows are in and the item is gone. */
  ghost predicate TurnCame(byTx: Schema, ds: Decoders, db: Db, id: nat, now: int, r: Result<nat, ()>, db': Db)
    requires id in db.queue.rows
  {
    var item := db.queue.rows[id].item;
    && db' == TurnedOver(db, id, now, r.Err?, db'.typed)
    && if item.chain !in ds then r == Ok(0) && db'.typed == db.typed
       else
         var d := ds[item.chain];
         && (r.Err? <==> SpanFails(d, db.raw, db.typed, item.chain, item.from, item.to))
         && (r.Err? ==> db'.typed == db.typed)
         && (r.Ok? ==>
               && Inserted(byTx, db.typed, SpanRows(d, db.raw, db.blocks, db.typed, item.chain, item.from, item.to), db'.typed)
               && |db'.typed| == |db.typed| + r.value)
  }

  /** Decodes the range of a leased item with its chain's decoder, if there is one. */
  method DecodeItem(store: Store, ds: Decoders, item: WorkItem)
    returns (r: Result<nat, ()>, ghost tables: seq<string>, ghost trace: seq<map<RowKey, EventRow>>)
    requires store.Valid()
    modifies store`typed
    ensures store.Valid()
    ensures item.chain !in ds ==> r == Ok(0) && store.typed == old(store.typed)
    ensures item.chain in ds ==>
              && (r.Err? <==> SpanFails(ds[item.chain], store.raw, old(store.typed), item.chain, item.from, item.to))
              && (r.Err? ==> store.typed == old(store.typed))
              && (r.Ok? ==>
                    var rows := SpanRows(ds[item.chain], store.raw, store.blocks, old(store.typed), item.chain, item.from, item.to);
                    && Inserted(store.byTx, old(store.typed), rows, store.typed)
                    && Writes(store.byTx, rows, old(store.typed), store.typed, tables, trace)
                    && |store.typed| == |old(store.typed)| + r.value)
  {
    r, tables, trace := Ok(0), [], [];
    if item.chain in ds {
      r, tables, trace := DecodeRange(store, ds[item.chain], item.chain, item.from, item.to);
    }
  }

  /** A turn, however it came out, is a run of the machine. */
  lemma TurnIsARun(byTx: Schema, ds: Decoders, w: World, s: State, wk: nat, id: nat, now: int, r: Result<nat, ()>, db': Db,
                   tables: seq<string>, trace: seq<map<RowKey, EventRow>>)
    returns (states: seq<State>, steps: seq<Step>)
    requires WorkerOf(s, wk).Idle? && OldestReady(s.db.queue, id) && TurnCame(byTx, ds, s.db, id, now, r, db')
    requires var item := s.db.queue.rows[id].item;
             item.chain in ds && r.Ok? ==>
               Writes(byTx, SpanRows(ds[item.chain], s.db.raw, s.db.blocks, s.db.typed, item.chain, item.from, item.to), s.db.typed, db'.typed, tables, trace)
    ensures IndexRun(byTx, ds, w, {}, states, steps) && states[0] == s && states[|steps|] == State(db', s.workers[wk := Idle])
  {
    var item := s.db.queue.rows[id].item;
    if item.chain !in ds {
      states, steps := UnreadTurn(byTx, ds, w, s, wk, id, now);
    } else if r.Err? {
      states, steps := ReadsAreARun(byTx, ds, w, s, wk, id, now);
    } else {
      states, steps := DecodedTurn(
        byTx, ds, w, s, wk, id, now,
        SpanRows(ds[item.chain], s.db.raw, s.db.blocks, s.db.typed, item.chain, item.from, item.to), tables, trace, db'.typed);
    }
  }

  lemma AckTakesOut(q: QueueTable, id: nat, now: int)
    requires id in q.rows
    ensures Acked(Leased(q, id, now), id, LeaseOn(Leased(q, id, now), id).leaseSeq) == q.(rows := q.rows - {id})
  {
    assert Leased(q, id, now).rows - {id} == q.rows - {id};
  }

  /** Pulls one item, decodes its range and acks it; the rows written, or none if nothing is ready.
      The turn is a run of the machine by worker `wk`, whatever the other workers hold. */
  method RunOnce(store: Store, ds: Decoders, now: int, ghost w: World, ghost wk: nat, ghost workers: map<nat, Worker>)
    returns (r: Result<Option<nat>, ()>, ghost id: nat, ghost states: seq<State>, ghost steps: seq<Step>)
    requires store.Valid() && (wk in workers ==> workers[wk].Idle?)
    modifies store`queue, store`typed
    ensures store.Valid()
    ensures r == Ok(None) <==> !exists i :: i in old(store.queue).rows && Ready(old(store.queue), i)
    ensures r == Ok(None) ==> store.Value() == old(store.Value())
    ensures r != Ok(None) ==>
              && OldestReady(old(store.queue), id)
              && TurnCame(store.byTx, ds, old(store.Value()), id, now, if r.Ok? then Ok(r.value.value) else Err(()), store.Value())
              && IndexRun(store.byTx, ds, w, {}, states, steps) && states[0] == State(old(store.Value()), workers)
              && states[|steps|] == State(store.Value(), workers[wk := Idle])
  {
    ghost var db := store.Value();
    id, states, steps := 0, [], [];
    var lease := store.PullAny(now);
    if lease.None? {
      return Ok(None), 0, [], [];
    }
    id := lease.value.id;
    var decoded;
    ghost var tables, trace;
    decoded, tables, trace := DecodeItem(store, ds, lease.value.item);
    if decoded.Ok? {
      store.Ack(lease.value.id, lease.value.leaseSeq);
      AckTakesOut(db.queue, id, now);
    }
    assert TurnCame(store.byTx, ds, db, id, now, decoded, store.Value());
    states, steps := TurnIsARun(store.byTx, ds, w, State(db, workers), wk, id, now, decoded, store.Value(), tables, trace);
    r := if decoded.Ok? then Ok(Some(decoded.value)) else Err(());
  }
}
