/** Nothing falls out of the queue: in every reachable state of the indexer, each raw record is in
    the range of a live queue row or has been decoded. */
module Delivery {
  import opened Model
  import opened Plan
  import opened Tables
  import opened Queue
  import opened Chain
  import opened Drive
  import opened Decode
  import opened Indexer

  ghost predicate Stored(byTx: Schema, typed: map<RowKey, EventRow>, x: EventRow) {
    KeyIn(byTx, x) in typed && typed[KeyIn(byTx, x)] == x
  }

  /** The record has been decoded: every row it gives rise to is in its table. Records of a chain
      without a decoder owe nothing. */
  ghost predicate Done(byTx: Schema, ds: Decoders, w: World, typed: map<RowKey, EventRow>, r: RawRecord) {
    r.chain in ds ==>
      !Undecodable(w, ds[r.chain], r) && forall x :: x in RowsFrom(w, ds[r.chain], r) ==> Stored(byTx, typed, x)
  }

  /** A live queue row's range holds the height. */
  ghost predicate InQueue(q: QueueTable, c: nat, h: nat) {
    exists id :: id in q.rows && InItem(q.rows[id].item, c, h)
  }

  // ---------------------------------------------------------------- the invariant

  /** The row is one the world gives rise to, at a committed height. */
  ghost predicate RowSound(byTx: Schema, ds: Decoders, w: World, db: Db, x: EventRow) {
    x.chain in ds && Expected(w, ds[x.chain], x) && Covers(byTx, db, w, x.chain, x.height)
  }

  /** A transaction row is at a committed height. */
  ghost predicate AuxCovered(byTx: Schema, w: World, db: Db) {
    forall k :: k in db.typed && IsAux(db.typed[k].table) ==> Covers(byTx, db, w, db.typed[k].chain, db.typed[k].height)
  }

  /** Rows are the world's, heights are committed whole, and typed rows are the expected ones. */
  ghost predicate DbOk(byTx: Schema, ds: Decoders, w: World, db: Db) {
    && Canonical(byTx, db, w)
    && (forall k :: k in db.raw ==> Covers(byTx, db, w, k.chain, k.height))
    && AuxCovered(byTx, w, db)
    && (forall k :: k in db.typed && !IsAux(db.typed[k].table) ==> RowSound(byTx, ds, w, db, db.typed[k]))
  }

  /** Queued ranges are committed. Chains in `closed` are exempt: nobody may lease their items. */
  ghost predicate QueueOk(byTx: Schema, w: World, closed: set<nat>, db: Db) {
    forall id :: id in db.queue.rows ==>
      var item := db.queue.rows[id].item;
      id < db.queue.nextId && (item.chain !in closed ==> AllCovered(byTx, db, w, item.chain, item.from, item.to))
  }

  /** Every raw record is decoded or in the range of a live queue row. */
  ghost predicate NothingLost(byTx: Schema, ds: Decoders, w: World, db: Db) {
    forall k :: k in db.raw ==> Done(byTx, ds, w, db.typed, db.raw[k]) || InQueue(db.queue, k.chain, k.height)
  }

  /** The lease is on the row it was taken from, if that row is still there. */
  ghost predicate LeaseOk(q: QueueTable, closed: set<nat>, lease: Lease) {
    && lease.id < q.nextId && lease.item.chain !in closed
    && (lease.id in q.rows ==> q.rows[lease.id].item == lease.item)
  }

  /** What a worker still has to write and what it has written make up its item's expected rows. */
  ghost predicate WritingOk(byTx: Schema, w: World, d: Decoder, typed: map<RowKey, EventRow>, item: WorkItem, rows: set<EventRow>) {
    && (forall x :: x in rows ==> ExpectedIn(w, d, item, x))
    && (forall x :: ExpectedIn(w, d, item, x) ==> x in rows || Stored(byTx, typed, x))
    && AllDecodable(w, d, item)
  }

  ghost predicate ReadOk(byTx: Schema, ds: Decoders, w: World, db: Db, me: Worker)
    requires !me.Idle?
  {
    var item := me.lease.item;
    if item.chain !in ds then me.Writing? && me.rows == {}
    else
      && AllCovered(byTx, db, w, item.chain, item.from, item.to)
      && (me.HasRaw? || me.HasTimes? ==> RecordsRight(w, item, me.records))
      && (me.HasTimes? ==> TimesRight(w, item, me.times))
      && (me.Writing? ==> WritingOk(byTx, w, ds[item.chain], db.typed, item, me.rows))
  }

  ghost predicate WorkerOk(byTx: Schema, ds: Decoders, w: World, closed: set<nat>, db: Db, me: Worker) {
    me.Idle? || (LeaseOk(db.queue, closed, me.lease) && ReadOk(byTx, ds, w, db, me))
  }

  ghost predicate WorkersOk(byTx: Schema, ds: Decoders, w: World, closed: set<nat>, s: State) {
    forall wk :: wk in s.workers ==> WorkerOk(byTx, ds, w, closed, s.db, s.workers[wk])
  }

  ghost predicate Inv(byTx: Schema, ds: Decoders, w: World, closed: set<nat>, s: State) {
    && DbOk(byTx, ds, w, s.db) && QueueOk(byTx, w, closed, s.db)
    && NothingLost(byTx, ds, w, s.db) && WorkersOk(byTx, ds, w, closed, s)
  }

  ghost predicate Setup(byTx: Schema, ds: Decoders, w: World) {
    WellFormed(w) && SchemaOk(byTx) && DecodersOk(byTx, ds)
  }

  // ---------------------------------------------------------------- growth

  /** Ids are not reused and rows keep their items. */
  ghost predicate QueueGrows(q: QueueTable, q': QueueTable) {
    && q.nextId <= q'.nextId
    && forall id :: id in q'.rows && id < q.nextId ==> id in q.rows && q'.rows[id].item == q.rows[id].item
  }

  lemma WritingSurvives(byTx: Schema, w: World, d: Decoder, typed: map<RowKey, EventRow>, typed': map<RowKey, EventRow>,
                        item: WorkItem, rows: set<EventRow>)
    requires WritingOk(byTx, w, d, typed, item, rows)
    requires forall k :: k in typed ==> k in typed' && typed'[k] == typed[k]
    ensures WritingOk(byTx, w, d, typed', item, rows)
  {
  }

  lemma WorkerSurvives(byTx: Schema, ds: Decoders, w: World, closed: set<nat>, db: Db, db': Db, me: Worker)
    requires WellFormed(w) && WorkerOk(byTx, ds, w, closed, db, me)
    requires Canonical(byTx, db', w) && Grows(db, db') && QueueGrows(db.queue, db'.queue)
    ensures WorkerOk(byTx, ds, w, closed, db', me)
  {
    if !me.Idle? && me.lease.item.chain in ds {
      var item := me.lease.item;
      CoverageGrows(byTx, db, db', w, item.chain, item.from, item.to);
      if me.Writing? {
        WritingSurvives(byTx, w, ds[item.chain], db.typed, db'.typed, item, me.rows);
      }
    }
  }

  /** All workers but `wk` survive a step that only adds; `wk` is shown separately. */
  lemma WorkersSurvive(byTx: Schema, ds: Decoders, w: World, closed: set<nat>, s: State, db': Db, wk: nat, me: Worker)
    requires WellFormed(w) && WorkersOk(byTx, ds, w, closed, s)
    requires Canonical(byTx, db', w) && Grows(s.db, db') && QueueGrows(s.db.queue, db'.queue)
    requires WorkerOk(byTx, ds, w, closed, db', me)
    ensures WorkersOk(byTx, ds, w, closed, State(db', s.workers[wk := me]))
    ensures WorkersOk(byTx, ds, w, closed, State(db', s.workers))
  {
    forall other | other in s.workers
      ensures WorkerOk(byTx, ds, w, closed, db', s.workers[other])
    {
      WorkerSurvives(byTx, ds, w, closed, s.db, db', s.workers[other]);
    }
  }

  lemma DoneSurvives(byTx: Schema, ds: Decoders, w: World, typed: map<RowKey, EventRow>, typed': map<RowKey, EventRow>, r: RawRecord)
    requires Done(byTx, ds, w, typed, r)
    requires forall k :: k in typed ==> k in typed' && typed'[k] == typed[k]
    ensures Done(byTx, ds, w, typed', r)
  {
  }

  lemma QueueSurvives(byTx: Schema, w: World, closed: set<nat>, db: Db, db': Db)
    requires WellFormed(w) && QueueOk(byTx, w, closed, db) && Canonical(byTx, db', w) && Grows(db, db')
    requires db'.queue.nextId == db.queue.nextId
    requires forall id :: id in db'.queue.rows ==> id in db.queue.rows && db'.queue.rows[id].item == db.queue.rows[id].item
    ensures QueueOk(byTx, w, closed, db')
  {
    forall id | id in db'.queue.rows
      ensures var item := db'.queue.rows[id].item;
              id < db'.queue.nextId && (item.chain !in closed ==> AllCovered(byTx, db', w, item.chain, item.from, item.to))
    {
      var item := db.queue.rows[id].item;
      if item.chain !in closed {
        CoverageGrows(byTx, db, db', w, item.chain, item.from, item.to);
      }
    }
  }

  // ---------------------------------------------------------------- commit

  lemma CommitKeepsAuxCovered(byTx: Schema, w: World, db: Db, c: nat, lo: nat, hi: nat, db': Db)
    requires WellFormed(w) && SchemaOk(byTx) && Canonical(byTx, db, w) && AuxCovered(byTx, w, db)
    requires db' == Committed(byTx, db, c, Fetched(w, c, lo, hi)) && Canonical(byTx, db', w) && GrewWithin(db, db', c, lo, hi)
    ensures AuxCovered(byTx, w, db')
  {
    forall k | k in db'.typed && IsAux(db'.typed[k].table)
      ensures Covers(byTx, db', w, db'.typed[k].chain, db'.typed[k].height)
    {
      if k in db.typed {
        CoverageSurvives(byTx, db, db', w, db.typed[k].chain, db.typed[k].height);
      } else {
        CommitCoversAt(byTx, db, w, c, lo, hi, db'.typed[k].height);
      }
    }
  }

  lemma WriteKeepsAuxCovered(byTx: Schema, w: World, db: Db, db': Db)
    requires WellFormed(w) && AuxCovered(byTx, w, db) && Canonical(byTx, db', w) && Grows(db, db')
    requires forall k :: k in db'.typed && k !in db.typed ==> !IsAux(db'.typed[k].table)
    ensures AuxCovered(byTx, w, db')
  {
    forall k | k in db'.typed && IsAux(db'.typed[k].table)
      ensures Covers(byTx, db', w, db'.typed[k].chain, db'.typed[k].height)
    {
      CoverageSurvives(byTx, db, db', w, db.typed[k].chain, db.typed[k].height);
    }
  }

  lemma CommitKeepsDb(byTx: Schema, ds: Decoders, w: World, db: Db, c: nat, lo: nat, hi: nat)
    requires Setup(byTx, ds, w) && DbOk(byTx, ds, w, db)
    ensures DbOk(byTx, ds, w, Committed(byTx, db, c, Fetched(w, c, lo, hi)))
  {
    var db' := Committed(byTx, db, c, Fetched(w, c, lo, hi));
    CommitCanonical(byTx, db, w, c, lo, hi);
    CommitGrowsWithin(byTx, w, c, db, lo, hi);
    CommitKeepsAuxCovered(byTx, w, db, c, lo, hi, db');
    forall k | k in db'.raw
      ensures Covers(byTx, db', w, k.chain, k.height)
    {
      if k in db.raw {
        CoverageSurvives(byTx, db, db', w, k.chain, k.height);
      } else {
        CommitCoversAt(byTx, db, w, c, lo, hi, k.height);
      }
    }
    forall k | k in db'.typed && !IsAux(db'.typed[k].table)
      ensures RowSound(byTx, ds, w, db', db'.typed[k])
    {
      assert k in db.typed && RowSound(byTx, ds, w, db, db.typed[k]);
      CoverageSurvives(byTx, db, db', w, db.typed[k].chain, db.typed[k].height);
    }
  }

  /** A pushed item is in the queue, or one of the same range was. */
  lemma PushQueues(q: QueueTable, item: WorkItem)
    requires forall id :: id in q.rows ==> id < q.nextId
    ensures QueueGrows(q, Pushed(q, item))
    ensures forall h :: item.from <= h <= item.to ==> InQueue(Pushed(q, item), item.chain, h)
    ensures forall c, h :: InQueue(q, c, h) ==> InQueue(Pushed(q, item), c, h)
    ensures forall id :: id in Pushed(q, item).rows ==>
              id < Pushed(q, item).nextId && (Pushed(q, item).rows[id].item == item || (id in q.rows && Pushed(q, item).rows[id] == q.rows[id]))
  {
    var q' := Pushed(q, item);
    forall c, h | InQueue(q, c, h)
      ensures InQueue(q', c, h)
    {
      var id :| id in q.rows && InItem(q.rows[id].item, c, h);
      assert id in q'.rows && q'.rows[id] == q.rows[id];
    }
    forall h | item.from <= h <= item.to
      ensures InQueue(q', item.chain, h)
    {
      if Queued(q, KeyOf(item)) {
        var id :| id in q.rows && KeyOf(q.rows[id].item) == KeyOf(item);
        assert InItem(q'.rows[id].item, item.chain, h);
      } else {
        assert InItem(q'.rows[q.nextId].item, item.chain, h);
      }
    }
  }

  lemma CommitQueue(byTx: Schema, db: Db, w: World, c: nat, lo: nat, hi: nat)
    ensures var db' := Committed(byTx, db, c, Fetched(w, c, lo, hi));
            db'.queue == (if HasRecords(w, c, lo, hi) then Pushed(db.queue, WorkItem(c, lo, hi, Backfill, 0)) else db.queue)
  {
  }

  ghost predicate HasRecords(w: World, c: nat, lo: nat, hi: nat) {
    Fetched(w, c, lo, hi).records != []
  }

  lemma CommitKeepsQueue(byTx: Schema, ds: Decoders, w: World, closed: set<nat>, db: Db, c: nat, lo: nat, hi: nat)
    requires Setup(byTx, ds, w) && DbOk(byTx, ds, w, db) && QueueOk(byTx, w, closed, db)
    ensures QueueOk(byTx, w, closed, Committed(byTx, db, c, Fetched(w, c, lo, hi)))
    ensures QueueGrows(db.queue, Committed(byTx, db, c, Fetched(w, c, lo, hi)).queue)
  {
    var db' := Committed(byTx, db, c, Fetched(w, c, lo, hi));
    var item := WorkItem(c, lo, hi, Backfill, 0);
    CommitQueue(byTx, db, w, c, lo, hi);
    PushQueues(db.queue, item);
    CommitCanonical(byTx, db, w, c, lo, hi);
    forall id | id in db'.queue.rows
      ensures var it := db'.queue.rows[id].item;
              id < db'.queue.nextId && (it.chain !in closed ==> AllCovered(byTx, db', w, it.chain, it.from, it.to))
    {
      var it := db'.queue.rows[id].item;
      if id in db.queue.rows && db'.queue.rows[id] == db.queue.rows[id] {
        if it.chain !in closed {
          CoverageGrows(byTx, db, db', w, it.chain, it.from, it.to);
        }
      } else {
        CommitCovers(byTx, db, w, c, lo, hi);
      }
    }
  }

  lemma CommitLosesNothing(byTx: Schema, ds: Decoders, w: World, closed: set<nat>, db: Db, c: nat, lo: nat, hi: nat, db': Db)
    requires Setup(byTx, ds, w) && DbOk(byTx, ds, w, db) && QueueOk(byTx, w, closed, db) && NothingLost(byTx, ds, w, db)
    requires db' == Committed(byTx, db, c, Fetched(w, c, lo, hi))
    ensures NothingLost(byTx, ds, w, db')
  {
    CommitQueue(byTx, db, w, c, lo, hi);
    PushQueues(db.queue, WorkItem(c, lo, hi, Backfill, 0));
    CommitCanonical(byTx, db, w, c, lo, hi);
    CommitGrowsWithin(byTx, w, c, db, lo, hi);
    forall k | k in db'.raw
      ensures Done(byTx, ds, w, db'.typed, db'.raw[k]) || InQueue(db'.queue, k.chain, k.height)
    {
      if k in db.raw {
        RawStays(byTx, w, db, c, lo, hi, k);
        RecordKept(byTx, ds, w, db, db', k);
      } else {
        NewRecordsMeanWork(byTx, w, db, c, lo, hi, k);
      }
    }
  }

  lemma RecordKept(byTx: Schema, ds: Decoders, w: World, db: Db, db': Db, k: Position)
    requires NothingLost(byTx, ds, w, db) && Grows(db, db') && k in db.raw && k in db'.raw && db'.raw[k] == db.raw[k]
    requires InQueue(db.queue, k.chain, k.height) ==> InQueue(db'.queue, k.chain, k.height)
    ensures Done(byTx, ds, w, db'.typed, db'.raw[k]) || InQueue(db'.queue, k.chain, k.height)
  {
    if Done(byTx, ds, w, db.typed, db.raw[k]) {
      DoneSurvives(byTx, ds, w, db.typed, db'.typed, db.raw[k]);
    }
  }

  lemma RawStays(byTx: Schema, w: World, db: Db, c: nat, lo: nat, hi: nat, k: Position)
    requires k in db.raw
    ensures k in Committed(byTx, db, c, Fetched(w, c, lo, hi)).raw
    ensures Committed(byTx, db, c, Fetched(w, c, lo, hi)).raw[k] == db.raw[k]
  {
    InsertAllContents(RawKey(), db.raw, Fetched(w, c, lo, hi).records);
  }

  lemma NewRecordsMeanWork(byTx: Schema, w: World, db: Db, c: nat, lo: nat, hi: nat, k: Position)
    requires k in Committed(byTx, db, c, Fetched(w, c, lo, hi)).raw && k !in db.raw
    ensures HasRecords(w, c, lo, hi)
  {
  }

  lemma CommitKeeps(byTx: Schema, ds: Decoders, w: World, closed: set<nat>, s: State, c: nat, lo: nat, hi: nat)
    requires Setup(byTx, ds, w) && Inv(byTx, ds, w, closed, s)
    ensures Inv(byTx, ds, w, closed, Indexer.Next(byTx, ds, w, s, Commit(c, lo, hi)))
  {
    var db' := Committed(byTx, s.db, c, Fetched(w, c, lo, hi));
    CommitKeepsDb(byTx, ds, w, s.db, c, lo, hi);
    CommitKeepsQueue(byTx, ds, w, closed, s.db, c, lo, hi);
    CommitLosesNothing(byTx, ds, w, closed, s.db, c, lo, hi, db');
    CommitCanonical(byTx, s.db, w, c, lo, hi);
    WorkersSurvive(byTx, ds, w, closed, s, db', 0, Idle);
  }

  // ---------------------------------------------------------------- write

  lemma ExpectedIsNotAux(byTx: Schema, w: World, d: Decoder, x: EventRow)
    requires WellFormed(w) && DecoderOk(byTx, d) && Expected(w, d, x)
    ensures !IsAux(x.table)
  {
  }

  /** A row the worker meant to write is there afterwards: what was under its key was that row. */
  lemma WrittenIsStored(byTx: Schema, w: World, d: Decoder, c: nat, typed: map<RowKey, EventRow>, rows: set<EventRow>,
                        typed': map<RowKey, EventRow>, x: EventRow)
    requires WellFormed(w) && DecoderOk(byTx, d) && Keyed(byTx, typed)
    requires forall k :: k in typed && typed[k].chain == c && !IsAux(typed[k].table) ==> Expected(w, d, typed[k])
    requires forall y :: y in rows ==> Expected(w, d, y)
    requires Inserted(byTx, typed, rows, typed') && x in rows && x.chain == c
    ensures Stored(byTx, typed', x)
  {
    var y := typed'[KeyIn(byTx, x)];
    ExpectedIsNotAux(byTx, w, d, x);
    assert KeyIn(byTx, y) == KeyIn(byTx, x);
    assert Expected(w, d, y);
    ExpectedIsUnique(byTx, w, d, x, y);
  }

  lemma WriteKeepsCanonical(byTx: Schema, w: World, d: Decoder, db: Db, rows: set<EventRow>, typed': map<RowKey, EventRow>)
    requires WellFormed(w) && DecoderOk(byTx, d) && Canonical(byTx, db, w)
    requires forall y :: y in rows ==> Expected(w, d, y)
    requires Inserted(byTx, db.typed, rows, typed')
    ensures Canonical(byTx, db.(typed := typed'), w) && Grows(db, db.(typed := typed'))
    ensures forall k :: k in typed' && k !in db.typed ==> !IsAux(typed'[k].table)
  {
    forall k | k in typed' && k !in db.typed
      ensures !IsAux(typed'[k].table)
    {
      ExpectedIsNotAux(byTx, w, d, typed'[k]);
    }
  }

  lemma WrittenRowIsSound(byTx: Schema, ds: Decoders, w: World, db: Db, db': Db, item: WorkItem, x: EventRow)
    requires WellFormed(w) && Canonical(byTx, db', w) && Grows(db, db') && item.chain in ds
    requires AllCovered(byTx, db, w, item.chain, item.from, item.to) && ExpectedIn(w, ds[item.chain], item, x)
    ensures RowSound(byTx, ds, w, db', x)
  {
    CoverageSurvives(byTx, db, db', w, x.chain, x.height);
  }

  lemma WriteKeepsDb(byTx: Schema, ds: Decoders, w: World, db: Db, item: WorkItem, rows: set<EventRow>, typed': map<RowKey, EventRow>, db': Db)
    requires WellFormed(w) && DbOk(byTx, ds, w, db) && item.chain in ds && db' == db.(typed := typed')
    requires forall y :: y in rows ==> ExpectedIn(w, ds[item.chain], item, y)
    requires AllCovered(byTx, db, w, item.chain, item.from, item.to)
    requires Inserted(byTx, db.typed, rows, typed') && Canonical(byTx, db', w) && Grows(db, db')
    requires forall k :: k in typed' && k !in db.typed ==> !IsAux(typed'[k].table)
    ensures DbOk(byTx, ds, w, db')
  {
    WriteKeepsAuxCovered(byTx, w, db, db');
    forall k | k in db'.raw
      ensures Covers(byTx, db', w, k.chain, k.height)
    {
      CoverageSurvives(byTx, db, db', w, k.chain, k.height);
    }
    forall k | k in db'.typed && !IsAux(db'.typed[k].table)
      ensures RowSound(byTx, ds, w, db', db'.typed[k])
    {
      if k in db.typed {
        assert RowSound(byTx, ds, w, db, db.typed[k]);
        CoverageSurvives(byTx, db, db', w, db.typed[k].chain, db.typed[k].height);
      } else {
        WrittenRowIsSound(byTx, ds, w, db, db', item, typed'[k]);
      }
    }
  }

  lemma WriteLosesNothing(byTx: Schema, ds: Decoders, w: World, db: Db, typed': map<RowKey, EventRow>)
    requires NothingLost(byTx, ds, w, db) && forall k :: k in db.typed ==> k in typed' && typed'[k] == db.typed[k]
    ensures NothingLost(byTx, ds, w, db.(typed := typed'))
  {
  }

  /** After writing one table the worker owes the others. */
  lemma WriterKeeps(byTx: Schema, w: World, d: Decoder, typed: map<RowKey, EventRow>, item: WorkItem, rows: set<EventRow>, part: set<EventRow>, typed': map<RowKey, EventRow>)
    requires WellFormed(w) && DecoderOk(byTx, d) && Keyed(byTx, typed) && part <= rows
    requires forall k :: k in typed && typed[k].chain == item.chain && !IsAux(typed[k].table) ==> Expected(w, d, typed[k])
    requires WritingOk(byTx, w, d, typed, item, rows) && Inserted(byTx, typed, part, typed')
    ensures WritingOk(byTx, w, d, typed', item, rows - part)
  {
    WritingSurvives(byTx, w, d, typed, typed', item, rows);
    forall x | ExpectedIn(w, d, item, x)
      ensures x in rows - part || Stored(byTx, typed', x)
    {
      if x in part {
        WrittenIsStored(byTx, w, d, item.chain, typed, part, typed', x);
      }
    }
  }

  lemma WriterStaysOk(byTx: Schema, ds: Decoders, w: World, db: Db, lease: Lease, rows: set<EventRow>, part: set<EventRow>, db': Db)
    requires WellFormed(w) && lease.item.chain in ds && DecoderOk(byTx, ds[lease.item.chain]) && Keyed(byTx, db.typed)
    requires forall k :: k in db.typed && !IsAux(db.typed[k].table) ==> RowSound(byTx, ds, w, db, db.typed[k])
    requires AllCovered(byTx, db, w, lease.item.chain, lease.item.from, lease.item.to)
    requires WritingOk(byTx, w, ds[lease.item.chain], db.typed, lease.item, rows)
    requires part <= rows && Inserted(byTx, db.typed, part, db'.typed)
    requires Canonical(byTx, db', w) && Grows(db, db')
    ensures ReadOk(byTx, ds, w, db', Writing(lease, rows - part))
  {
    var item := lease.item;
    forall k | k in db.typed && db.typed[k].chain == item.chain && !IsAux(db.typed[k].table)
      ensures Expected(w, ds[item.chain], db.typed[k])
    {
      assert RowSound(byTx, ds, w, db, db.typed[k]);
    }
    WriterKeeps(byTx, w, ds[item.chain], db.typed, item, rows, part, db'.typed);
    CoverageGrows(byTx, db, db', w, item.chain, item.from, item.to);
  }

  lemma WriteKeeps(byTx: Schema, ds: Decoders, w: World, closed: set<nat>, s: State, wk: nat, table: string, typed': map<RowKey, EventRow>)
    requires Setup(byTx, ds, w) && Inv(byTx, ds, w, closed, s) && Indexer.Enabled(byTx, s, Write(wk, table, typed'))
    ensures Inv(byTx, ds, w, closed, Indexer.Next(byTx, ds, w, s, Write(wk, table, typed')))
  {
    var me := WorkerOf(s, wk);
    assert WorkerOk(byTx, ds, w, closed, s.db, me);
    var part, db' := OfTable(me.rows, table), s.db.(typed := typed');
    assert part <= me.rows && me.lease.item.chain in ds;
    WriteKeepsCanonical(byTx, w, ds[me.lease.item.chain], s.db, part, typed');
    WriteKeepsDb(byTx, ds, w, s.db, me.lease.item, part, typed', db');
    WriteLosesNothing(byTx, ds, w, s.db, typed');
    QueueSurvives(byTx, w, closed, s.db, db');
    WriterStaysOk(byTx, ds, w, s.db, me.lease, me.rows, part, db');
    WorkersSurvive(byTx, ds, w, closed, s, db', wk, Writing(me.lease, me.rows - part));
  }

  // ---------------------------------------------------------------- ack

  /** Once a worker has written everything, every record of its range is decoded. */
  lemma WrittenItemIsDone(byTx: Schema, ds: Decoders, w: World, db: Db, me: Worker, k: Position)
    requires Setup(byTx, ds, w) && DbOk(byTx, ds, w, db) && me.Writing? && me.rows == {}
    requires ReadOk(byTx, ds, w, db, me) && k in db.raw && InItem(me.lease.item, k.chain, k.height)
    ensures Done(byTx, ds, w, db.typed, db.raw[k])
  {
    var r := db.raw[k];
    assert r.Pos() == k;
    if k.chain in ds {
      var d := ds[k.chain];
      forall x | x in RowsFrom(w, d, r)
        ensures Stored(byTx, db.typed, x)
      {
        RowsFromRecord(byTx, w, d, r, x);
        assert ExpectedIn(w, d, me.lease.item, x);
      }
    }
  }

  lemma AckLosesNothing(byTx: Schema, ds: Decoders, w: World, closed: set<nat>, db: Db, me: Worker)
    requires Setup(byTx, ds, w) && DbOk(byTx, ds, w, db) && NothingLost(byTx, ds, w, db)
    requires me.Writing? && me.rows == {} && WorkerOk(byTx, ds, w, closed, db, me)
    ensures NothingLost(byTx, ds, w, db.(queue := Acked(db.queue, me.lease.id, me.lease.leaseSeq)))
  {
    var q' := Acked(db.queue, me.lease.id, me.lease.leaseSeq);
    forall k | k in db.raw
      ensures Done(byTx, ds, w, db.typed, db.raw[k]) || InQueue(q', k.chain, k.height)
    {
      if InItem(me.lease.item, k.chain, k.height) {
        WrittenItemIsDone(byTx, ds, w, db, me, k);
      } else if !Done(byTx, ds, w, db.typed, db.raw[k]) {
        var id :| id in db.queue.rows && InItem(db.queue.rows[id].item, k.chain, k.height);
        assert id in q'.rows;
      }
    }
  }

  lemma RowIgnoresQueue(byTx: Schema, ds: Decoders, w: World, db: Db, db': Db, x: EventRow)
    requires db'.raw == db.raw && db'.blocks == db.blocks && db'.typed == db.typed && RowSound(byTx, ds, w, db, x)
    ensures RowSound(byTx, ds, w, db', x)
  {
  }

  lemma DbOkIgnoresQueue(byTx: Schema, ds: Decoders, w: World, db: Db, db': Db)
    requires WellFormed(w) && DbOk(byTx, ds, w, db) && db'.raw == db.raw && db'.blocks == db.blocks && db'.typed == db.typed
    ensures DbOk(byTx, ds, w, db') && Grows(db, db')
  {
    forall k | k in db'.raw
      ensures Covers(byTx, db', w, k.chain, k.height)
    {
      assert Covers(byTx, db, w, k.chain, k.height);
    }
    WriteKeepsAuxCovered(byTx, w, db, db');
    forall k | k in db'.typed && !IsAux(db'.typed[k].table)
      ensures RowSound(byTx, ds, w, db', db'.typed[k])
    {
      RowIgnoresQueue(byTx, ds, w, db, db', db.typed[k]);
    }
  }

  /** A step that only changes the queue, and only by leasing, releasing or removing rows. */
  lemma QueueStepKeeps(byTx: Schema, ds: Decoders, w: World, closed: set<nat>, s: State, q': QueueTable, wk: nat, me: Worker)
    requires Setup(byTx, ds, w) && Inv(byTx, ds, w, closed, s)
    requires q'.nextId == s.db.queue.nextId
    requires forall id :: id in q'.rows ==> id in s.db.queue.rows && q'.rows[id].item == s.db.queue.rows[id].item
    requires NothingLost(byTx, ds, w, s.db.(queue := q'))
    requires WorkerOk(byTx, ds, w, closed, s.db.(queue := q'), me)
    ensures Inv(byTx, ds, w, closed, State(s.db.(queue := q'), s.workers[wk := me]))
    ensures Inv(byTx, ds, w, closed, State(s.db.(queue := q'), s.workers))
  {
    var db' := s.db.(queue := q');
    DbOkIgnoresQueue(byTx, ds, w, s.db, db');
    QueueSurvives(byTx, w, closed, s.db, db');
    WorkersSurvive(byTx, ds, w, closed, s, db', wk, me);
  }

  lemma SameItemsLoseNothing(byTx: Schema, ds: Decoders, w: World, db: Db, q': QueueTable)
    requires NothingLost(byTx, ds, w, db)
    requires forall id :: id in db.queue.rows ==> id in q'.rows && q'.rows[id].item == db.queue.rows[id].item
    ensures NothingLost(byTx, ds, w, db.(queue := q'))
  {
  }

  lemma AckKeeps(byTx: Schema, ds: Decoders, w: World, closed: set<nat>, s: State, wk: nat)
    requires Setup(byTx, ds, w) && Inv(byTx, ds, w, closed, s) && Indexer.Enabled(byTx, s, Step.Ack(wk))
    ensures Inv(byTx, ds, w, closed, Indexer.Next(byTx, ds, w, s, Step.Ack(wk)))
  {
    var me := WorkerOf(s, wk);
    assert WorkerOk(byTx, ds, w, closed, s.db, me);
    AckLosesNothing(byTx, ds, w, closed, s.db, me);
    QueueStepKeeps(byTx, ds, w, closed, s, Acked(s.db.queue, me.lease.id, me.lease.leaseSeq), wk, Idle);
  }

  lemma ReclaimKeeps(byTx: Schema, ds: Decoders, w: World, closed: set<nat>, s: State, now: int, olderThan: nat)
    requires Setup(byTx, ds, w) && Inv(byTx, ds, w, closed, s)
    ensures Inv(byTx, ds, w, closed, Indexer.Next(byTx, ds, w, s, Step.Reclaim(now, olderThan)))
  {
    var q' := Reclaimed(s.db.queue, now, olderThan);
    SameItemsLoseNothing(byTx, ds, w, s.db, q');
    QueueStepKeeps(byTx, ds, w, closed, s, q', 0, Idle);
  }

  lemma PullKeeps(byTx: Schema, ds: Decoders, w: World, closed: set<nat>, s: State, wk: nat, id: nat, now: int)
    requires Setup(byTx, ds, w) && Inv(byTx, ds, w, closed, s) && Indexer.Enabled(byTx, s, Step.Pull(wk, id, now))
    requires s.db.queue.rows[id].item.chain !in closed
    ensures Inv(byTx, ds, w, closed, Indexer.Next(byTx, ds, w, s, Step.Pull(wk, id, now)))
  {
    var q' := Leased(s.db.queue, id, now);
    SameItemsLoseNothing(byTx, ds, w, s.db, q');
    var me := AfterPull(ds, LeaseOn(q', id));
    var item := s.db.queue.rows[id].item;
    DbOkIgnoresQueue(byTx, ds, w, s.db, s.db.(queue := q'));
    CoverageGrows(byTx, s.db, s.db.(queue := q'), w, item.chain, item.from, item.to);
    QueueStepKeeps(byTx, ds, w, closed, s, q', wk, me);
  }

  // ---------------------------------------------------------------- reads

  /** A step that changes one worker and nothing else. */
  lemma WorkerStepKeeps(byTx: Schema, ds: Decoders, w: World, closed: set<nat>, s: State, wk: nat, me: Worker)
    requires Inv(byTx, ds, w, closed, s) && WorkerOk(byTx, ds, w, closed, s.db, me)
    ensures Inv(byTx, ds, w, closed, s.(workers := s.workers[wk := me]))
  {
  }

  lemma ReadCallsKeeps(byTx: Schema, ds: Decoders, w: World, closed: set<nat>, s: State, wk: nat)
    requires Setup(byTx, ds, w) && Inv(byTx, ds, w, closed, s) && WorkerOf(s, wk).HasTimes?
    ensures Inv(byTx, ds, w, closed, Indexer.Next(byTx, ds, w, s, ReadCalls(wk)))
  {
    var me := WorkerOf(s, wk);
    assert WorkerOk(byTx, ds, w, closed, s.db, me);
    var item := me.lease.item;
    var d := ds[item.chain];
    var txs := CallsOf(s.db.typed, item.chain, me.records);
    if !CannotDecode(d, me.records, txs) {
      NoFailureMeansDecodable(byTx, w, s.db, d, item, me.records);
      var rows := RowsOf(d, me.times, me.records, txs);
      forall x
        ensures x in rows <==> ExpectedIn(w, d, item, x)
      {
        BatchIsExpected(byTx, w, s.db, d, item, me.records, me.times, x);
      }
      assert WritingOk(byTx, w, d, s.db.typed, item, rows);
    }
    WorkerStepKeeps(byTx, ds, w, closed, s, wk, AfterCalls(ds, s.db, me));
  }

  lemma ReadKeeps(byTx: Schema, ds: Decoders, w: World, closed: set<nat>, s: State, wk: nat)
    requires Setup(byTx, ds, w) && Inv(byTx, ds, w, closed, s)
    ensures WorkerOf(s, wk).Holding? ==> Inv(byTx, ds, w, closed, Indexer.Next(byTx, ds, w, s, ReadRaw(wk)))
    ensures WorkerOf(s, wk).HasRaw? ==> Inv(byTx, ds, w, closed, Indexer.Next(byTx, ds, w, s, ReadTimes(wk)))
  {
    var me := WorkerOf(s, wk);
    assert WorkerOk(byTx, ds, w, closed, s.db, me);
    if me.Holding? || me.HasRaw? {
      var item := me.lease.item;
      ReadRawRight(byTx, w, s.db, item);
      ReadTimesRight(byTx, w, s.db, item);
      if me.Holding? {
        WorkerStepKeeps(byTx, ds, w, closed, s, wk, HasRaw(me.lease, RecordsIn(s.db.raw, item.chain, item.from, item.to)));
      } else {
        WorkerStepKeeps(byTx, ds, w, closed, s, wk,
                        HasTimes(me.lease, me.records, TimesIn(s.db.blocks, item.chain, item.from, item.to)));
      }
    }
  }

  lemma SetCursorKeeps(byTx: Schema, ds: Decoders, w: World, closed: set<nat>, s: State, c: nat, cp: Checkpoint)
    requires Setup(byTx, ds, w) && Inv(byTx, ds, w, closed, s)
    ensures Inv(byTx, ds, w, closed, Indexer.Next(byTx, ds, w, s, SetCursor(c, cp)))
  {
    var db' := Advanced(s.db, c, cp);
    DbOkIgnoresQueue(byTx, ds, w, s.db, db');
    QueueSurvives(byTx, w, closed, s.db, db');
    WorkersSurvive(byTx, ds, w, closed, s, db', 0, Idle);
  }

  // ---------------------------------------------------------------- runs

  /** The step may happen, and leases nothing of a closed chain. */
  ghost predicate StepOk(byTx: Schema, closed: set<nat>, s: State, step: Step) {
    Indexer.Enabled(byTx, s, step) && (step.Pull? ==> s.db.queue.rows[step.id].item.chain !in closed)
  }

  lemma StepKeeps(byTx: Schema, ds: Decoders, w: World, closed: set<nat>, s: State, step: Step)
    requires Setup(byTx, ds, w) && Inv(byTx, ds, w, closed, s) && StepOk(byTx, closed, s, step)
    ensures Inv(byTx, ds, w, closed, Indexer.Next(byTx, ds, w, s, step))
  {
    match step {
      case Commit(c, lo, hi) => CommitKeeps(byTx, ds, w, closed, s, c, lo, hi);
      case SetCursor(c, cp) => SetCursorKeeps(byTx, ds, w, closed, s, c, cp);
      case Pull(wk, id, now) => PullKeeps(byTx, ds, w, closed, s, wk, id, now);
      case ReadRaw(wk) => ReadKeeps(byTx, ds, w, closed, s, wk);
      case ReadTimes(wk) => ReadKeeps(byTx, ds, w, closed, s, wk);
      case ReadCalls(wk) => ReadCallsKeeps(byTx, ds, w, closed, s, wk);
      case Write(wk, table, typed) => WriteKeeps(byTx, ds, w, closed, s, wk, table, typed);
      case Ack(wk) => AckKeeps(byTx, ds, w, closed, s, wk);
      case Reclaim(now, olderThan) => ReclaimKeeps(byTx, ds, w, closed, s, now, olderThan);
      case Crash(wk) => WorkerStepKeeps(byTx, ds, w, closed, s, wk, Idle);
    }
  }

  /** The step may happen and leads from one state to the other. */
  ghost predicate Leads(byTx: Schema, ds: Decoders, w: World, closed: set<nat>, s: State, step: Step, s': State) {
    StepOk(byTx, closed, s, step) && s' == Indexer.Next(byTx, ds, w, s, step)
  }

  lemma NextKeeps(byTx: Schema, ds: Decoders, w: World, closed: set<nat>, s: State, step: Step, s': State)
    requires Setup(byTx, ds, w) && Inv(byTx, ds, w, closed, s) && Leads(byTx, ds, w, closed, s, step, s')
    ensures Inv(byTx, ds, w, closed, s')
  {
    StepKeeps(byTx, ds, w, closed, s, step);
  }

  ghost predicate IndexRun(byTx: Schema, ds: Decoders, w: World, closed: set<nat>, states: seq<State>, steps: seq<Step>) {
    && |states| == |steps| + 1
    && forall k {:trigger steps[k]} :: 0 <= k < |steps| ==> Leads(byTx, ds, w, closed, states[k], steps[k], states[k + 1])
  }

  lemma RunStepKeeps(byTx: Schema, ds: Decoders, w: World, closed: set<nat>, states: seq<State>, steps: seq<Step>, j: nat, k: nat)
    requires Setup(byTx, ds, w) && IndexRun(byTx, ds, w, closed, states, steps) && j + 1 == k <= |steps|
    requires Inv(byTx, ds, w, closed, states[j])
    ensures Inv(byTx, ds, w, closed, states[k])
  {
    NextKeeps(byTx, ds, w, closed, states[j], steps[j], states[k]);
  }

  lemma RunKeeps(byTx: Schema, ds: Decoders, w: World, closed: set<nat>, states: seq<State>, steps: seq<Step>, k: nat)
    requires Setup(byTx, ds, w) && IndexRun(byTx, ds, w, closed, states, steps) && k <= |steps|
    requires Inv(byTx, ds, w, closed, states[0])
    ensures Inv(byTx, ds, w, closed, states[k])
  {
    var holds := (s: State) => Inv(byTx, ds, w, closed, s);
    forall i, j | 0 <= i && j == i + 1 && j < |states| && holds(states[i])
      ensures holds(states[j])
    {
      RunStepKeeps(byTx, ds, w, closed, states, steps, i, j);
    }
    AllAlong(holds, states, k);
  }

  /** The typed tables hold the row, stamped with the time of its block in the world. */
  ghost predicate HoldsStamped(byTx: Schema, w: World, typed: map<RowKey, EventRow>, row: EventRow) {
    KeyIn(byTx, row) in typed &&
    typed[KeyIn(byTx, row)] == row.(blockTime := Some(w(row.chain, row.height).meta.time))
  }

  /** Everything the log gives rise to is in the tables: it decodes, and so do the calls of its transaction
      if there is a decoder for calls, and their rows are held with the time of the block. */
  ghost predicate RowsHeld(byTx: Schema, d: Decoder, w: World, typed: map<RowKey, EventRow>, r: RawRecord) {
    && !d.decode(r).Fail? && (d.decode(r).Row? ==> HoldsStamped(byTx, w, typed, d.decode(r).row))
    && forall t :: d.hasCalls && t in w(r.chain, r.height).aux && t.table == TRANSACTIONS && t.txId == r.txId ==>
         !d.call(t).Fail? && (d.call(t).Row? ==> HoldsStamped(byTx, w, typed, d.call(t).row))
  }

  lemma DoneHoldsEvent(byTx: Schema, ds: Decoders, w: World, typed: map<RowKey, EventRow>, r: RawRecord)
    requires DecodersOk(byTx, ds) && r.chain in ds && Done(byTx, ds, w, typed, r)
    ensures !ds[r.chain].decode(r).Fail?
    ensures ds[r.chain].decode(r).Row? ==> HoldsStamped(byTx, w, typed, ds[r.chain].decode(r).row)
  {
    var d, times := ds[r.chain], map[r.height := w(r.chain, r.height).meta.time];
    if d.decode(r).Row? {
      var row := d.decode(r).row;
      var x := row.(blockTime := Some(w(row.chain, row.height).meta.time));
      assert x == Stamped(times, row);
      assert x in EventRows(d, times, {r});
      assert x in RowsFrom(w, d, r);
      assert KeyIn(byTx, x) == KeyIn(byTx, row);
    }
  }

  lemma DoneHoldsCalls(byTx: Schema, ds: Decoders, w: World, typed: map<RowKey, EventRow>, r: RawRecord, t: EventRow)
    requires WellFormed(w) && DecodersOk(byTx, ds) && r.chain in ds && Done(byTx, ds, w, typed, r) && ds[r.chain].hasCalls
    requires t in w(r.chain, r.height).aux && t.table == TRANSACTIONS && t.txId == r.txId
    ensures !ds[r.chain].call(t).Fail?
    ensures ds[r.chain].call(t).Row? ==> HoldsStamped(byTx, w, typed, ds[r.chain].call(t).row)
  {
    var d, times := ds[r.chain], map[r.height := w(r.chain, r.height).meta.time];
    assert BlockOk(w(r.chain, r.height), r.chain, r.height);
    assert t in TxsOf(w, r);
    if d.call(t).Row? {
      var row := d.call(t).row;
      var x := row.(blockTime := Some(w(row.chain, row.height).meta.time));
      assert x == Stamped(times, row);
      assert x in CallRows(d, times, TxsOf(w, r));
      assert x in RowsFrom(w, d, r);
      assert KeyIn(byTx, x) == KeyIn(byTx, row);
    }
  }

  lemma DoneHolds(byTx: Schema, ds: Decoders, w: World, typed: map<RowKey, EventRow>, r: RawRecord)
    requires WellFormed(w) && DecodersOk(byTx, ds) && r.chain in ds && Done(byTx, ds, w, typed, r)
    ensures RowsHeld(byTx, ds[r.chain], w, typed, r)
  {
    var d := ds[r.chain];
    DoneHoldsEvent(byTx, ds, w, typed, r);
    forall t | d.hasCalls && t in w(r.chain, r.height).aux && t.table == TRANSACTIONS && t.txId == r.txId
      ensures !d.call(t).Fail? && (d.call(t).Row? ==> HoldsStamped(byTx, w, typed, d.call(t).row))
    {
      DoneHoldsCalls(byTx, ds, w, typed, r, t);
    }
  }

  lemma RecordAccounted(byTx: Schema, ds: Decoders, w: World, db: Db, at: Position)
    requires Setup(byTx, ds, w) && Canonical(byTx, db, w) && NothingLost(byTx, ds, w, db) && at in db.raw && at.chain in ds
    ensures || (exists id :: id in db.queue.rows && var item := db.queue.rows[id].item; item.chain == at.chain && item.from <= at.height <= item.to)
            || RowsHeld(byTx, ds[at.chain], w, db.typed, db.raw[at])
  {
    assert db.raw[at].Pos() == at;
    if Done(byTx, ds, w, db.typed, db.raw[at]) {
      DoneHolds(byTx, ds, w, db.typed, db.raw[at]);
    } else {
      var id :| id in db.queue.rows && InItem(db.queue.rows[id].item, at.chain, at.height);
    }
  }

  /** From an empty database, in every state any interleaving of commits, leases, reads, writes,
      acks, reclaims and crashes can reach, each raw record of a chain with a decoder is inside the
      range of a live queue row or has all its rows in the typed tables. */
  lemma NothingFallsOut(byTx: Schema, ds: Decoders, w: World, states: seq<State>, steps: seq<Step>, k: nat, at: Position)
    requires Setup(byTx, ds, w) && IndexRun(byTx, ds, w, {}, states, steps) && k <= |steps|
    requires states[0] == State(EMPTY_DB, map[]) && at in states[k].db.raw
    ensures var db := states[k].db;
            || at.chain !in ds
            || (exists id :: id in db.queue.rows && var item := db.queue.rows[id].item; item.chain == at.chain && item.from <= at.height <= item.to)
            || RowsHeld(byTx, ds[at.chain], w, db.typed, db.raw[at])
  {
    RunKeeps(byTx, ds, w, {}, states, steps, k);
    if at.chain in ds {
      RecordAccounted(byTx, ds, w, states[k].db, at);
    }
  }

  // ---------------------------------------------------------------- drives as runs

  lemma RunExtends(byTx: Schema, ds: Decoders, w: World, closed: set<nat>, states: seq<State>, steps: seq<Step>, step: Step, s: State)
    requires IndexRun(byTx, ds, w, closed, states, steps) && Leads(byTx, ds, w, closed, states[|steps|], step, s)
    ensures IndexRun(byTx, ds, w, closed, states + [s], steps + [step])
  {
    var more, all := states + [s], steps + [step];
    forall k | 0 <= k < |all|
      ensures Leads(byTx, ds, w, closed, more[k], all[k], more[k + 1])
    {
      if k < |steps| {
        assert all[k] == steps[k];
      }
    }
  }

  /** A run with one more step. */
  lemma OneMore(byTx: Schema, ds: Decoders, w: World, closed: set<nat>, states: seq<State>, steps: seq<Step>, step: Step, s: State)
    returns (states': seq<State>, steps': seq<Step>)
    requires IndexRun(byTx, ds, w, closed, states, steps) && Leads(byTx, ds, w, closed, states[|steps|], step, s)
    ensures IndexRun(byTx, ds, w, closed, states', steps') && states'[0] == states[0] && states'[|steps'|] == s
  {
    RunExtends(byTx, ds, w, closed, states, steps, step, s);
    states', steps' := states + [s], steps + [step];
  }

  /** Two runs, the second from where the first ended, are one. */
  lemma {:induction false} RunsJoin(
    byTx: Schema, ds: Decoders, w: World, closed: set<nat>, a: seq<State>, aSteps: seq<Step>, b: seq<State>, bSteps: seq<Step>)
    returns (states: seq<State>, steps: seq<Step>)
    requires IndexRun(byTx, ds, w, closed, a, aSteps) && IndexRun(byTx, ds, w, closed, b, bSteps) && b[0] == a[|aSteps|]
    ensures IndexRun(byTx, ds, w, closed, states, steps) && states[0] == a[0] && states[|steps|] == b[|bSteps|]
    decreases |bSteps|
  {
    if bSteps == [] {
      states, steps := a, aSteps;
    } else {
      var n := |bSteps| - 1;
      RunPrefix(byTx, ds, w, closed, b, bSteps, n);
      states, steps := RunsJoin(byTx, ds, w, closed, a, aSteps, b[..n + 1], bSteps[..n]);
      assert Leads(byTx, ds, w, closed, b[n], bSteps[n], b[n + 1]);
      RunExtends(byTx, ds, w, closed, states, steps, bSteps[n], b[n + 1]);
      states, steps := states + [b[n + 1]], steps + [bSteps[n]];
    }
  }

  lemma RunPrefix(byTx: Schema, ds: Decoders, w: World, closed: set<nat>, states: seq<State>, steps: seq<Step>, n: nat)
    requires IndexRun(byTx, ds, w, closed, states, steps) && n <= |steps|
    ensures IndexRun(byTx, ds, w, closed, states[..n + 1], steps[..n])
  {
    forall k | 0 <= k < n
      ensures Leads(byTx, ds, w, closed, states[..n + 1][k], steps[..n][k], states[..n + 1][k + 1])
    {
      assert steps[..n][k] == steps[k];
    }
  }

  /** A drive of the pipeline, in any arrival order and up to anywhere, is a run of commits and
      cursor writes, so what runs keep holds of real drives beside the workers. */
  lemma {:induction false} DriveIsARun(
    byTx: Schema, ds: Decoders, w: World, closed: set<nat>, s: State, c: nat, tiles: seq<Tile>, start: nat, order: seq<nat>)
    returns (states: seq<State>, steps: seq<Step>)
    requires InWindow(order, tiles)
    ensures IndexRun(byTx, ds, w, closed, states, steps) && states[0] == s
    ensures states[|steps|] == s.(db := Driven(byTx, w, c, s.db, tiles, start, order).db)
  {
    if order == [] {
      states, steps := [s], [];
    } else {
      var front, tile := order[..|order| - 1], tiles[order[|order| - 1]];
      states, steps := DriveIsARun(byTx, ds, w, closed, s, c, tiles, start, front);
      var d := Driven(byTx, w, c, s.db, tiles, start, front);
      var after := Arrive(byTx, w, c, d, tile);
      var committed := s.(db := CommitTile(byTx, w, c, d.db, tile));
      RunExtends(byTx, ds, w, closed, states, steps, Commit(c, tile.lo, tile.hi), committed);
      states, steps := states + [committed], steps + [Commit(c, tile.lo, tile.hi)];
      if after.db != committed.db {
        var cp := after.db.cursors[c];
        RunExtends(byTx, ds, w, closed, states, steps, SetCursor(c, cp), s.(db := after.db));
        states, steps := states + [s.(db := after.db)], steps + [SetCursor(c, cp)];
      }
    }
  }

  // ---------------------------------------------------------------- drained

  ghost predicate Drained(db: Db, c: nat) {
    forall id :: id in db.queue.rows ==> db.queue.rows[id].item.chain != c
  }

  /** With the chain's queue drained, its decoded tables hold exactly the expected rows of the
      committed heights: whatever the workers did, the outcome is a function of the world. */
  lemma DrainedIsExact(byTx: Schema, ds: Decoders, w: World, closed: set<nat>, s: State, c: nat, x: EventRow)
    requires Setup(byTx, ds, w) && Inv(byTx, ds, w, closed, s) && Drained(s.db, c) && c in ds && x.chain == c
    requires !IsAux(x.table)
    ensures Stored(byTx, s.db.typed, x) <==> Expected(w, ds[c], x) && Covers(byTx, s.db, w, c, x.height)
  {
    if Expected(w, ds[c], x) && Covers(byTx, s.db, w, c, x.height) {
      var r :| r in w(c, x.height).logs && x in RowsFrom(w, ds[c], r);
      assert BlockOk(w(c, x.height), c, x.height);
      assert s.db.raw[r.Pos()] == r;
      assert !InQueue(s.db.queue, c, x.height);
      assert Done(byTx, ds, w, s.db.typed, r);
    }
  }

  // ---------------------------------------------------------------- the rows themselves

  /** With the chain's queue drained, the rows of every log of a committed height are in the tables. */
  lemma DrainedHoldsEveryRow(byTx: Schema, ds: Decoders, w: World, closed: set<nat>, s: State, c: nat, h: nat, r: RawRecord)
    requires Setup(byTx, ds, w) && Inv(byTx, ds, w, closed, s) && Drained(s.db, c) && c in ds
    requires Covers(byTx, s.db, w, c, h) && r in w(c, h).logs
    ensures RowsHeld(byTx, ds[c], w, s.db.typed, r)
  {
    assert BlockOk(w(c, h), c, h);
    assert s.db.raw[r.Pos()] == r;
    assert !InQueue(s.db.queue, c, h);
    DoneHolds(byTx, ds, w, s.db.typed, r);
  }

  /** Where a decoded row comes from: a log of its height, or a transaction of one. */
  ghost predicate ComesFrom(w: World, d: Decoder, r: RawRecord, x: EventRow) {
    || (d.decode(r).Row? && x == d.decode(r).row.(blockTime := x.blockTime))
    || (d.hasCalls && exists t ::
          && t in w(r.chain, r.height).aux && t.table == TRANSACTIONS && t.txId == r.txId
          && d.call(t).Row? && x == d.call(t).row.(blockTime := x.blockTime))
  }

  lemma ExpectedComesFrom(byTx: Schema, w: World, d: Decoder, x: EventRow)
    requires WellFormed(w) && DecoderOk(byTx, d) && Expected(w, d, x)
    ensures x.blockTime == Some(w(x.chain, x.height).meta.time)
    ensures exists r :: r in w(x.chain, x.height).logs && ComesFrom(w, d, r, x)
  {
    var r :| r in w(x.chain, x.height).logs && x in RowsFrom(w, d, r);
    assert BlockOk(w(x.chain, x.height), x.chain, x.height);
    var times := map[r.height := w(r.chain, r.height).meta.time];
    if x in EventRows(d, times, {r}) {
      assert x == Stamped(times, d.decode(r).row);
    } else {
      var t :| t in TxsOf(w, r) && d.call(t).Row? && x == Stamped(times, d.call(t).row);
      assert BlockOk(w(r.chain, r.height), r.chain, r.height);
    }
    assert ComesFrom(w, d, r, x);
  }

  /** In every sound state a decoded row in the tables was decoded from a log of its height, or from the
      transaction of one, and carries the time of its block. */
  lemma StoredRowsAreDecoded(byTx: Schema, ds: Decoders, w: World, closed: set<nat>, s: State, k: RowKey)
    requires Setup(byTx, ds, w) && Inv(byTx, ds, w, closed, s) && k in s.db.typed && !IsAux(s.db.typed[k].table)
    ensures var x := s.db.typed[k];
            && x.chain in ds && x.blockTime == Some(w(x.chain, x.height).meta.time)
            && exists r :: r in w(x.chain, x.height).logs && ComesFrom(w, ds[x.chain], r, x)
  {
    var x := s.db.typed[k];
    assert RowSound(byTx, ds, w, s.db, x);
    ExpectedComesFrom(byTx, w, ds[x.chain], x);
  }
}
