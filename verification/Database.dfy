/** The Postgres tables behind the unit of work, and the pipeline that drives them. */
module Database {
  import opened Model
  import opened Plan
  import opened Fetch
  import opened Tables
  import opened Queue
  import opened Chain
  import opened Drive

  const RAW_COLS := 10
  const BLOCK_COLS := 5

  /** `groups` sorts the rows by target table and keeps every row. */
  ghost predicate GroupedByTable(rows: seq<EventRow>, groups: map<string, seq<EventRow>>) {
    && (forall row :: row in rows ==> row.table in groups && row in groups[row.table])
    && (forall table, row :: table in groups && row in groups[table] ==> row in rows && row.table == table)
  }

  method GroupByTable(rows: seq<EventRow>) returns (groups: map<string, seq<EventRow>>)
    ensures GroupedByTable(rows, groups)
  {
    groups := map[];
    for i := 0 to |rows|
      invariant GroupedByTable(rows[..i], groups)
    {
      var before := if rows[i].table in groups then groups[rows[i].table] else [];
      assert rows[..i + 1] == rows[..i] + [rows[i]];
      groups := groups[rows[i].table := before + [rows[i]]];
    }
    assert rows[..|rows|] == rows;
  }

  /** The transaction of every receipt that is not stored is stored by now. */
  method CheckReferences(byTx: Schema, typed: map<RowKey, EventRow>, receipts: seq<EventRow>) returns (ok: bool)
    ensures ok <==> forall x :: x in receipts ==> KeyIn(byTx, x) in typed || OfTx(TRANSACTIONS, x.chain, x.txId) in typed
  {
    for i := 0 to |receipts|
      invariant forall j :: 0 <= j < i ==>
                  KeyIn(byTx, receipts[j]) in typed || OfTx(TRANSACTIONS, receipts[j].chain, receipts[j].txId) in typed
    {
      if KeyIn(byTx, receipts[i]) !in typed && OfTx(TRANSACTIONS, receipts[i].chain, receipts[i].txId) !in typed {
        return false;
      }
    }
    return true;
  }

  /** Once everything but the receipts is in, looking the transactions up decides the foreign key. */
  lemma LookupsDecide(
    byTx: Schema, typed: map<RowKey, EventRow>, rows: seq<EventRow>, done: seq<EventRow>, mid: map<RowKey, EventRow>, x: EventRow)
    requires SchemaOk(byTx) && InsertedInto(RowKeyOf(byTx), typed, done, mid) && x in rows && x.table == RECEIPTS
    requires forall row :: row in rows && row.table != RECEIPTS ==> row in done
    requires forall row :: row in done ==> row in rows && row.table != RECEIPTS
    ensures KeyIn(byTx, x) in mid || OfTx(TRANSACTIONS, x.chain, x.txId) in mid <==> KeyIn(byTx, x) in typed || HasTx(typed, rows, x)
  {
    var tx := OfTx(TRANSACTIONS, x.chain, x.txId);
    forall t | t in rows && t.table == TRANSACTIONS && t.chain == x.chain && t.txId == x.txId
      ensures tx in mid
    {
      assert t in done && RowKeyOf(byTx)(t) == tx;
    }
  }

  /** Upserts rows table by table, receipts after everything they refer to, or nothing of them when a
      receipt's transaction is missing. */
  method UpsertEnrichment(typed: Table<RowKey, EventRow>, byTx: Schema, rows: seq<EventRow>) returns (ok: bool)
    requires SchemaOk(byTx) && typed.key == RowKeyOf(byTx)
    modifies typed`rows
    ensures ok <==> Refers(byTx, old(typed.rows), rows)
    ensures !ok ==> typed.rows == old(typed.rows)
    ensures ok ==> InsertedInto(typed.key, old(typed.rows), rows, typed.rows)
  {
    var before := typed.rows;
    var groups := GroupByTable(rows);
    ghost var done := UpsertAllBut(typed, rows, groups);
    forall x | x in rows && x.table == RECEIPTS
      ensures KeyIn(byTx, x) in typed.rows || OfTx(TRANSACTIONS, x.chain, x.txId) in typed.rows <==>
              KeyIn(byTx, x) in before || HasTx(before, rows, x)
    {
      LookupsDecide(byTx, before, rows, done, typed.rows, x);
    }
    if RECEIPTS in groups {
      ok := CheckReferences(byTx, typed.rows, groups[RECEIPTS]);
      if !ok {
        typed.rows := before;
        return;
      }
      UpsertMore(typed, groups[RECEIPTS], false, before, done);
      done := done + groups[RECEIPTS];
    }
    ok := true;
    assert forall row :: row in rows ==> row in done;
  }

  /** Upserts one table's rows after others. */
  method UpsertMore(
      typed: Table<RowKey, EventRow>, rows: seq<EventRow>, hasIdx: bool, ghost before: map<RowKey, EventRow>, ghost done: seq<EventRow>)
    requires InsertedInto(typed.key, before, done, typed.rows)
    modifies typed`rows
    ensures InsertedInto(typed.key, before, done + rows, typed.rows)
  {
    ghost var mid := typed.rows;
    var n, binds := UpsertBatch(typed, rows, hasIdx);
    InsertionsCompose(typed.key, before, done, mid, rows, typed.rows);
  }

  lemma OneTableMore(rows: seq<EventRow>, groups: map<string, seq<EventRow>>, done: seq<EventRow>, todo: set<string>, table: string)
    requires GroupedByTable(rows, groups) && table in todo && todo <= groups.Keys - {RECEIPTS}
    requires forall row :: row in done ==> row in rows && row.table != RECEIPTS
    requires forall row :: row in rows && row.table != RECEIPTS && row.table !in todo ==> row in done
    ensures forall row :: row in done + groups[table] ==> row in rows && row.table != RECEIPTS
    ensures forall row :: row in rows && row.table != RECEIPTS && row.table !in todo - {table} ==> row in done + groups[table]
  {
  }

  /** Upserts every table but the receipts. */
  method UpsertAllBut(typed: Table<RowKey, EventRow>, rows: seq<EventRow>, groups: map<string, seq<EventRow>>)
    returns (ghost done: seq<EventRow>)
    requires GroupedByTable(rows, groups)
    modifies typed`rows
    ensures InsertedInto(typed.key, old(typed.rows), done, typed.rows)
    ensures forall row :: row in done <==> row in rows && row.table != RECEIPTS
  {
    var todo := groups.Keys - {RECEIPTS};
    done := [];
    while todo != {}
      invariant todo <= groups.Keys - {RECEIPTS}
      invariant InsertedInto(typed.key, old(typed.rows), done, typed.rows)
      invariant forall row :: row in done ==> row in rows && row.table != RECEIPTS
      invariant forall row :: row in rows && row.table != RECEIPTS && row.table !in todo ==> row in done
      decreases todo
    {
      var table :| table in todo;
      UpsertMore(typed, groups[table], true, old(typed.rows), done);
      OneTableMore(rows, groups, done, todo, table);
      done := done + groups[table];
      todo := todo - {table};
    }
  }

  function Named(tables: seq<string>): set<string> {
    set t | t in tables
  }

  /** The database takes the batch: no block statement repeats a height, every receipt has its
      transaction. */
  ghost predicate Accepted(byTx: Schema, typed: map<RowKey, EventRow>, metas: seq<BlockMeta>, rows: seq<EventRow>) {
    ChunksOnce(BlockKey(), metas, ChunkRows(BLOCK_COLS)) && Refers(byTx, typed, rows)
  }

  class Store {
    const byTx: Schema
    var raw: map<Position, RawRecord>
    var blocks: map<BlockAt, BlockMeta>
    var typed: map<RowKey, EventRow>
    var queue: QueueTable
    var cursors: map<nat, Checkpoint>

    ghost predicate Valid()
      reads this
    {
      SchemaOk(byTx) && Keyed(byTx, typed)
    }

    ghost function Value(): Db
      reads this
    {
      Db(raw, blocks, typed, queue, cursors)
    }

    constructor (byTx: Schema)
      requires SchemaOk(byTx)
      ensures Valid() && this.byTx == byTx && Value() == EMPTY_DB
    {
      this.byTx := byTx;
      raw, blocks, typed, queue, cursors := map[], map[], map[], EMPTY_QUEUE, map[];
    }

    /** Writes transaction rows, or none when a receipt has no transaction; rows with distinct keys
        land exactly as row-by-row insertion would put them. */
    method WriteEnrichment(rows: seq<EventRow>) returns (ok: bool)
      requires Valid()
      modifies this`typed
      ensures Valid()
      ensures ok <==> Refers(byTx, old(typed), rows)
      ensures !ok ==> typed == old(typed)
      ensures ok ==> InsertedInto(RowKeyOf(byTx), old(typed), rows, typed)
      ensures ok && DistinctKeys(RowKeyOf(byTx), rows) ==> typed == InsertAll(RowKeyOf(byTx), old(typed), rows)
    {
      var typedTable := new Table(RowKeyOf(byTx), typed);
      ok := UpsertEnrichment(typedTable, byTx, rows);
      if !ok {
        return;
      }
      typed := typedTable.rows;
      InsertKeepsKeyed(byTx, old(typed), rows, typed);
      InsertedIsAll(RowKeyOf(byTx), old(typed), rows, typed);
    }

    /** The two bulk statements of a commit; a refused one leaves both tables as they were. */
    method WriteRawAndBlocks(records: seq<RawRecord>, metas: seq<BlockMeta>) returns (ok: bool)
      modifies this`raw, this`blocks
      ensures ok <==> ChunksOnce(BlockKey(), metas, ChunkRows(BLOCK_COLS))
      ensures !ok ==> raw == old(raw) && blocks == old(blocks)
      ensures ok ==> raw == InsertAll(RawKey(), old(raw), records) && blocks == UpsertAll(BlockKey(), old(blocks), metas)
    {
      var rawTable := new Table(RawKey(), raw);
      var n, widest := rawTable.InsertChunks(records, ChunkRows(RAW_COLS));
      var blockTable := new Table(BlockKey(), blocks);
      ok := blockTable.UpsertChunks(metas, ChunkRows(BLOCK_COLS));
      if ok {
        raw, blocks := rawTable.rows, blockTable.rows;
      }
    }

    /** Commits one ingested range atomically, or nothing of it when the block metas repeat a height
        within a statement or a receipt has no transaction. */
    method CommitIngest(batch: IngestBatch) returns (ok: bool)
      requires Valid()
      modifies this
      ensures Valid()
      ensures ok <==> Accepted(byTx, old(typed), batch.blockMetas, batch.enrichment)
      ensures !ok ==> Value() == old(Value())
      ensures ok ==> InsertedInto(RowKeyOf(byTx), old(typed), batch.enrichment, typed)
      ensures ok ==> Value() == Ingested(byTx, old(Value()), batch).(typed := typed)
      ensures ok && DistinctKeys(RowKeyOf(byTx), batch.enrichment) ==> Value() == Ingested(byTx, old(Value()), batch)
    {
      var before, blocksBefore := raw, blocks;
      ok := WriteRawAndBlocks(batch.rawRecords, batch.blockMetas);
      if !ok {
        return;
      }
      ok := WriteEnrichment(batch.enrichment);
      if !ok {
        raw, blocks := before, blocksBefore;
        return;
      }
      if batch.enqueue.Some? {
        queue := Pushed(queue, batch.enqueue.value);
      }
      if batch.advance.Some? {
        cursors := cursors[batch.advance.value.0 := batch.advance.value.1];
      }
    }

    /** Rolls the chain back atomically: deletes at and above `from`, cursor to the height below. */
    method RollbackTo(c: nat, from: nat, tables: seq<string>)
      requires Valid()
      modifies this
      ensures Valid()
      ensures Value() == RolledBack(old(Value()), c, from, Named(tables))
    {
      for i := 0 to |tables|
        invariant Valid()
        invariant Value() == old(Value()).(typed := typed)
        invariant typed == KeptRows(old(typed), c, from, Named(tables[..i]))
      {
        DeleteTable(byTx, old(typed), c, from, Named(tables[..i]), tables[i]);
        assert tables[..i + 1] == tables[..i] + [tables[i]];
        assert Named(tables[..i + 1]) == Named(tables[..i]) + {tables[i]};
        typed := KeptRows(typed, c, from, {tables[i]});
      }
      assert tables[..|tables|] == tables;
      raw := map k | k in raw && !(k.chain == c && k.height >= from) :: raw[k];
      blocks := map k | k in blocks && !(k.chain == c && k.height >= from) :: blocks[k];
      var fork := if from == 0 then 0 else from - 1;
      if c in cursors {
        cursors := cursors[c := Checkpoint(fork, [])];
      }
    }

    /** Leases the oldest ready item of the store's queue, if any is ready. */
    method PullAny(now: int) returns (lease: Option<Lease>)
      requires Valid()
      modifies this`queue
      ensures lease.None? <==> !exists id :: id in old(queue).rows && Ready(old(queue), id)
      ensures lease.None? ==> queue == old(queue)
      ensures lease.Some? ==>
                && OldestReady(old(queue), lease.value.id)
                && queue == Leased(old(queue), lease.value.id, now)
                && lease.value == LeaseOn(queue, lease.value.id)
    {
      var repo := new WorkQueue.Over(queue);
      lease := repo.PullAny(now);
      queue := QueueTable(repo.rows, repo.nextId);
    }

    method Ack(id: nat, leaseSeq: nat)
      requires Valid()
      modifies this`queue
      ensures queue == Acked(old(queue), id, leaseSeq)
    {
      var repo := new WorkQueue.Over(queue);
      repo.Ack(id, leaseSeq);
      queue := QueueTable(repo.rows, repo.nextId);
    }

    method Advance(c: nat, cp: Checkpoint)
      requires Valid()
      modifies this
      ensures Valid()
      ensures Value() == Advanced(old(Value()), c, cp)
    {
      cursors := cursors[c := cp];
    }
  }

  lemma InsertKeepsKeyed(byTx: Schema, typed: map<RowKey, EventRow>, rows: seq<EventRow>, typed': map<RowKey, EventRow>)
    requires Keyed(byTx, typed) && InsertedInto(RowKeyOf(byTx), typed, rows, typed')
    ensures Keyed(byTx, typed')
  {
  }

  /** The typed rows a delete at and above `from` leaves. */
  function KeptRows(typed: map<RowKey, EventRow>, c: nat, from: nat, tables: set<string>): map<RowKey, EventRow> {
    map k | k in typed && !Dropped(typed, c, from, tables, typed[k]) :: typed[k]
  }

  /** Deleting one more table, with its cascade, after the others deletes the union. */
  lemma DeleteTable(byTx: Schema, typed: map<RowKey, EventRow>, c: nat, from: nat, done: set<string>, table: string)
    requires SchemaOk(byTx) && Keyed(byTx, typed)
    ensures Keyed(byTx, KeptRows(typed, c, from, done))
    ensures KeptRows(KeptRows(typed, c, from, done), c, from, {table}) == KeptRows(typed, c, from, done + {table})
  {
  }

  // ---------------------------------------------------------------- the pipeline

  lemma AuxPairDistinct(byTx: Schema, w: World, c: nat, h: nat, g: nat, x: EventRow, y: EventRow)
    requires WellFormed(w) && SchemaOk(byTx) && x in w(c, h).aux && y in w(c, g).aux && KeyIn(byTx, x) == KeyIn(byTx, y)
    ensures x == y
  {
  }

  lemma FetchedAuxDistinct(byTx: Schema, w: World, c: nat, lo: nat, hi: nat)
    requires WellFormed(w) && SchemaOk(byTx)
    ensures DistinctKeys(RowKeyOf(byTx), Fetched(w, c, lo, hi).aux)
  {
    var aux := Fetched(w, c, lo, hi).aux;
    forall x, y | x in aux && y in aux && RowKeyOf(byTx)(x) == RowKeyOf(byTx)(y)
      ensures x == y
    {
      InRange(AuxAt(w, c), lo, hi, x);
      InRange(AuxAt(w, c), lo, hi, y);
      var h: nat :| lo <= h <= hi && x in AuxAt(w, c)(h);
      var g: nat :| lo <= g <= hi && y in AuxAt(w, c)(g);
      AuxPairDistinct(byTx, w, c, h, g, x, y);
    }
  }

  lemma OnceWithFirst(first: BlockMeta, rest: seq<BlockMeta>)
    requires KeysOnce(BlockKey(), rest) && forall m :: m in rest ==> m.height > first.height
    ensures KeysOnce(BlockKey(), [first] + rest)
  {
    var all := [first] + rest;
    forall i, j | 0 <= i < j < |all|
      ensures BlockKey()(all[i]) != BlockKey()(all[j])
    {
      assert all[j] == rest[j - 1] && all[j] in rest;
      assert i > 0 ==> all[i] == rest[i - 1];
    }
  }

  lemma {:induction false} FetchedMetasOnce(w: World, c: nat, lo: nat, hi: int)
    requires WellFormed(w)
    ensures KeysOnce(BlockKey(), RangeLogs(MetasAt(w, c), lo, hi))
    decreases hi - lo
  {
    if lo <= hi {
      var rest := RangeLogs(MetasAt(w, c), lo + 1, hi);
      FetchedMetasOnce(w, c, lo + 1, hi);
      if w(c, lo).logs == [] {
        assert RangeLogs(MetasAt(w, c), lo, hi) == rest;
      } else {
        assert BlockOk(w(c, lo), c, lo);
        forall m | m in rest
          ensures m.height > lo
        {
          MetaIsABlock(w, c, lo + 1, hi, m);
        }
        OnceWithFirst(w(c, lo).meta, rest);
        assert RangeLogs(MetasAt(w, c), lo, hi) == [w(c, lo).meta] + rest;
      }
    }
  }

  lemma FetchedRefers(byTx: Schema, typed: map<RowKey, EventRow>, w: World, c: nat, lo: nat, hi: nat)
    requires WellFormed(w)
    ensures Refers(byTx, typed, Fetched(w, c, lo, hi).aux)
  {
    var aux := Fetched(w, c, lo, hi).aux;
    forall x | x in aux && x.table == RECEIPTS
      ensures HasTx(typed, aux, x)
    {
      InRange(AuxAt(w, c), lo, hi, x);
      var h: nat :| lo <= h <= hi && x in AuxAt(w, c)(h);
      assert BlockOk(w(c, h), c, h);
      var t :| t in w(c, h).aux && t.table == TRANSACTIONS && t.txId == x.txId;
      assert t in AuxAt(w, c)(h);
      InRange(AuxAt(w, c), lo, hi, t);
    }
  }

  /** What was fetched from a well-formed world is never refused. */
  lemma FetchedIsAccepted(byTx: Schema, typed: map<RowKey, EventRow>, w: World, c: nat, lo: nat, hi: nat)
    requires WellFormed(w)
    ensures Accepted(byTx, typed, Fetched(w, c, lo, hi).metas, Fetched(w, c, lo, hi).aux)
  {
    FetchedMetasOnce(w, c, lo, hi);
    OnceInChunks(BlockKey(), Fetched(w, c, lo, hi).metas, ChunkRows(BLOCK_COLS));
    FetchedRefers(byTx, typed, w, c, lo, hi);
  }

  /** Builds the write batch of a fetched range and commits it; returns the records written, or an
      error when the database refused the batch. */
  method CommitRange(store: Store, c: nat, f: FetchedRange) returns (r: Result<nat, ()>)
    requires store.Valid()
    modifies store
    ensures store.Valid()
    ensures r.Ok? <==> Accepted(store.byTx, old(store.typed), f.metas, f.aux)
    ensures r.Err? ==> store.Value() == old(store.Value())
    ensures r.Ok? ==> r.value == |f.records|
    ensures r.Ok? && DistinctKeys(RowKeyOf(store.byTx), f.aux) ==>
              store.Value() == Committed(store.byTx, old(store.Value()), c, f)
  {
    var enqueue := if |f.records| == 0 then None else Some(WorkItem(c, f.from, f.to, Backfill, 0));
    var ok := store.CommitIngest(IngestBatch(f.records, f.metas, f.aux, enqueue, None));
    r := if ok then Ok(|f.records|) else Err(());
  }

  /** Fetches a planned range, commits it and records it; the cursor follows the gap-free prefix,
      unless the drive is torn here. */
  method CommitNext(store: Store, prefix: PrefixTracker, w: World, c: nat, range: Span, torn: bool) returns (records: nat)
    requires store.Valid() && WellFormed(w)
    modifies store, prefix
    ensures store.Valid() && records == |RangeLogs(LogsAt(w, c), range.lo, range.hi)|
    ensures var tile := TileOf(w, c, range);
            var d := Arrive(store.byTx, w, c, Driving(old(store.Value()), old(prefix.State())), tile);
            && prefix.State() == d.tracker
            && store.Value() == (if torn then CommitTile(store.byTx, w, c, old(store.Value()), tile) else d.db)
  {
    var fetched := Fetched(w, c, range.lo, range.hi);
    var last := HighestMeta(fetched.metas);
    FetchedAuxDistinct(store.byTx, w, c, range.lo, range.hi);
    FetchedIsAccepted(store.byTx, store.typed, w, c, range.lo, range.hi);
    var committed := CommitRange(store, c, fetched);
    records := committed.value;
    var checkpoint := prefix.Record(range.lo, range.hi, last);
    if checkpoint.Some? && !torn {
      store.Advance(c, checkpoint.value);
    }
  }

  /** Records in the ranges that arrived. */
  function RecordsArrived(w: World, c: nat, tiles: seq<Tile>, order: seq<nat>): nat
    requires InWindow(order, tiles)
  {
    if order == [] then 0
    else
      var tile := tiles[order[|order| - 1]];
      RecordsArrived(w, c, tiles, order[..|order| - 1]) + |RangeLogs(LogsAt(w, c), tile.lo, tile.hi)|
  }

  /** The consumer's loop: ranges committed in the order they arrive. */
  method Consume(store: Store, w: World, c: nat, next: nat, ranges: seq<Span>, order: seq<nat>)
    returns (prefix: PrefixTracker, records: nat)
    requires store.Valid() && WellFormed(w) && InWindow(order, TilesOf(w, c, ranges))
    modifies store
    ensures store.Valid() && fresh(prefix)
    ensures Driving(store.Value(), prefix.State()) ==
            Driven(store.byTx, w, c, old(store.Value()), TilesOf(w, c, ranges), next, order)
    ensures records == RecordsArrived(w, c, TilesOf(w, c, ranges), order)
  {
    prefix := new PrefixTracker(next);
    records := 0;
    ghost var tiles, db := TilesOf(w, c, ranges), store.Value();
    for i := 0 to |order|
      invariant store.Valid() && fresh(prefix)
      invariant Driving(store.Value(), prefix.State()) == Driven(store.byTx, w, c, db, tiles, next, order[..i])
      invariant records == RecordsArrived(w, c, tiles, order[..i])
    {
      assert order[..i + 1][..i] == order[..i];
      var m := CommitNext(store, prefix, w, c, ranges[order[i]], false);
      records := records + m;
    }
    assert order[..|order|] == order;
  }

  /** Streams a window through the pipeline. `order` lists the planned ranges in the order their
      fetches complete, up to where the drive stops; the source's answers are those of `w`. A torn
      drive stops after its last commit, its cursor write not made. */
  method RunPipeline(store: Store, w: World, c: nat, next: nat, target: nat, step: nat, order: seq<nat>, torn: bool)
    returns (advancedTo: Option<nat>, records: nat)
    requires store.Valid() && WellFormed(w) && step >= 1
    requires Arrivals(order, |Window(w, c, next, target, step)|)
    modifies store
    ensures store.Valid()
    ensures store.Value() == Attempted(store.byTx, w, c, old(store.Value()), next, Attempt(target, step, order, torn))
    ensures advancedTo == RecordedAll(Window(w, c, next, target, step), next, order).advancedTo
    ensures records == RecordsArrived(w, c, Window(w, c, next, target, step), order)
    ensures !torn && advancedTo.Some? && Canonical(store.byTx, old(store.Value()), w) ==>
              && c in store.cursors && store.cursors[c].height == advancedTo.value
              && CarriesHighest(w, c, next, store.cursors[c])
  {
    var ranges := PlanRanges(next, target, step);
    ghost var tiles, db := Window(w, c, next, target, step), store.Value();
    DrivenTracks(store.byTx, w, c, db, tiles, next, order);
    var prefix: PrefixTracker;
    if torn && order != [] {
      var last := order[|order| - 1];
      prefix, records := Consume(store, w, c, next, ranges, order[..|order| - 1]);
      var m := CommitNext(store, prefix, w, c, ranges[last], true);
      records := records + m;
    } else {
      prefix, records := Consume(store, w, c, next, ranges, order);
    }
    advancedTo := prefix.advancedTo;
    if !torn && advancedTo.Some? && Canonical(store.byTx, db, w) {
      DriveStamps(store.byTx, w, c, db, next, target, step, order, Driven(store.byTx, w, c, db, tiles, next, order), advancedTo.value);
    }
  }
}
