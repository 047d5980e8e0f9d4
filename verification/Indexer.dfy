/** The whole indexer as one machine: ranges are committed, workers lease them, read, decode, write
    table by table and ack, leases are reclaimed and workers crash, all interleaved step by step. */
module Indexer {
  import opened Model
  import opened Queue
  import opened Chain
  import opened Drive
  import opened Decode

  type Decoders = map<nat, Decoder>

  /** What a decode worker holds between two of its steps. */
  datatype Worker =
    | Idle
    | Holding(lease: Lease)
    | HasRaw(lease: Lease, records: set<RawRecord>)
    | HasTimes(lease: Lease, records: set<RawRecord>, times: map<nat, int>)
    | Writing(lease: Lease, rows: set<EventRow>)

  datatype State = State(db: Db, workers: map<nat, Worker>)

  /** One atomic step. A write of one table may leave any table an insert-if-absent can leave. */
  datatype Step =
    | Commit(c: nat, lo: nat, hi: nat)
    | SetCursor(c: nat, cp: Checkpoint)
    | Pull(wk: nat, id: nat, now: int)
    | ReadRaw(wk: nat)
    | ReadTimes(wk: nat)
    | ReadCalls(wk: nat)
    | Write(wk: nat, table: string, typed: map<RowKey, EventRow>)
    | Ack(wk: nat)
    | Reclaim(now: int, olderThan: nat)
    | Crash(wk: nat)

  function WorkerOf(s: State, wk: nat): Worker {
    if wk in s.workers then s.workers[wk] else Idle
  }

  ghost predicate Enabled(byTx: Schema, s: State, step: Step) {
    match step
    case Commit(_, _, _) => true
    case SetCursor(_, _) => true
    case Pull(wk, id, _) => WorkerOf(s, wk).Idle? && OldestReady(s.db.queue, id)
    case ReadRaw(wk) => WorkerOf(s, wk).Holding?
    case ReadTimes(wk) => WorkerOf(s, wk).HasRaw?
    case ReadCalls(wk) => WorkerOf(s, wk).HasTimes?
    case Write(wk, table, typed) =>
      var me := WorkerOf(s, wk);
      me.Writing? && OfTable(me.rows, table) != {} && Inserted(byTx, s.db.typed, OfTable(me.rows, table), typed)
    case Ack(wk) => WorkerOf(s, wk).Writing? && WorkerOf(s, wk).rows == {}
    case Reclaim(_, _) => true
    case Crash(_) => true
  }

  /** Records read, times read, now the calldata: the batch to write, or an error that gives up the
      item but not its lease. */
  function AfterCalls(ds: Decoders, db: Db, me: Worker): Worker
    requires me.HasTimes?
  {
    var c := me.lease.item.chain;
    if c !in ds then Idle
    else
      var txs := CallsOf(db.typed, c, me.records);
      if CannotDecode(ds[c], me.records, txs) then Idle
      else Writing(me.lease, RowsOf(ds[c], me.times, me.records, txs))
  }

  /** A chain without a decoder has its item acked unread. */
  function AfterPull(ds: Decoders, lease: Lease): Worker {
    if lease.item.chain in ds then Holding(lease) else Writing(lease, {})
  }

  ghost function Next(byTx: Schema, ds: Decoders, w: World, s: State, step: Step): State
    requires Enabled(byTx, s, step)
  {
    match step
    case Commit(c, lo, hi) => s.(db := Committed(byTx, s.db, c, Fetched(w, c, lo, hi)))
    case SetCursor(c, cp) => s.(db := Advanced(s.db, c, cp))
    case Pull(wk, id, now) =>
      var queue := Leased(s.db.queue, id, now);
      State(s.db.(queue := queue), s.workers[wk := AfterPull(ds, LeaseOn(queue, id))])
    case ReadRaw(wk) =>
      var me := WorkerOf(s, wk);
      s.(workers := s.workers[wk := HasRaw(me.lease, RecordsIn(s.db.raw, me.lease.item.chain, me.lease.item.from, me.lease.item.to))])
    case ReadTimes(wk) =>
      var me := WorkerOf(s, wk);
      s.(workers := s.workers[wk := HasTimes(me.lease, me.records, TimesIn(s.db.blocks, me.lease.item.chain, me.lease.item.from, me.lease.item.to))])
    case ReadCalls(wk) => s.(workers := s.workers[wk := AfterCalls(ds, s.db, WorkerOf(s, wk))])
    case Write(wk, table, typed) =>
      var me := WorkerOf(s, wk);
      State(s.db.(typed := typed), s.workers[wk := Writing(me.lease, me.rows - OfTable(me.rows, table))])
    case Ack(wk) =>
      var me := WorkerOf(s, wk);
      State(s.db.(queue := Acked(s.db.queue, me.lease.id, me.lease.leaseSeq)), s.workers[wk := Idle])
    case Reclaim(now, olderThan) => s.(db := s.db.(queue := Reclaimed(s.db.queue, now, olderThan)))
    case Crash(wk) => s.(workers := s.workers[wk := Idle])
  }

  // ---------------------------------------------------------------- what decoding should give

  function TxsOf(w: World, r: RawRecord): set<EventRow> {
    set t | t in w(r.chain, r.height).aux && t.table == TRANSACTIONS && t.txId == r.txId
  }

  /** The rows one record of the world gives rise to. */
  function RowsFrom(w: World, d: Decoder, r: RawRecord): set<EventRow> {
    RowsOf(d, map[r.height := w(r.chain, r.height).meta.time], {r}, TxsOf(w, r))
  }

  predicate Undecodable(w: World, d: Decoder, r: RawRecord) {
    CannotDecode(d, {r}, TxsOf(w, r))
  }

  ghost predicate Expected(w: World, d: Decoder, x: EventRow) {
    exists r :: r in w(x.chain, x.height).logs && x in RowsFrom(w, d, r)
  }

  ghost predicate DecodersOk(byTx: Schema, ds: Decoders) {
    forall c :: c in ds ==> DecoderOk(byTx, ds[c])
  }

  /** A row from a record has the record's chain and height, and is no transaction row. */
  lemma RowsFromRecord(byTx: Schema, w: World, d: Decoder, r: RawRecord, x: EventRow)
    requires WellFormed(w) && DecoderOk(byTx, d) && x in RowsFrom(w, d, r)
    ensures x.chain == r.chain && x.height == r.height && !IsAux(x.table)
  {
  }

  lemma ExpectedCallIsUnique(byTx: Schema, w: World, d: Decoder, r: RawRecord, q: RawRecord, x: EventRow, y: EventRow)
    requires WellFormed(w) && DecoderOk(byTx, d) && byTx(x.table) && KeyIn(byTx, x) == KeyIn(byTx, y)
    requires x in RowsFrom(w, d, r) && y in RowsFrom(w, d, q) && r.chain == q.chain
    ensures x == y
  {
  }

  lemma ExpectedEventIsUnique(byTx: Schema, w: World, d: Decoder, r: RawRecord, q: RawRecord, x: EventRow, y: EventRow)
    requires WellFormed(w) && DecoderOk(byTx, d) && !byTx(x.table) && KeyIn(byTx, x) == KeyIn(byTx, y)
    requires x in RowsFrom(w, d, r) && y in RowsFrom(w, d, q)
    requires r in w(r.chain, r.height).logs && q in w(q.chain, q.height).logs
    ensures x == y
  {
  }

  /** Expected rows are determined by their key. */
  lemma ExpectedIsUnique(byTx: Schema, w: World, d: Decoder, x: EventRow, y: EventRow)
    requires WellFormed(w) && DecoderOk(byTx, d) && Expected(w, d, x) && Expected(w, d, y)
    requires KeyIn(byTx, x) == KeyIn(byTx, y)
    ensures x == y
  {
    var r :| r in w(x.chain, x.height).logs && x in RowsFrom(w, d, r);
    var q :| q in w(y.chain, y.height).logs && y in RowsFrom(w, d, q);
    RowsFromRecord(byTx, w, d, r, x);
    RowsFromRecord(byTx, w, d, q, y);
    if byTx(x.table) {
      ExpectedCallIsUnique(byTx, w, d, r, q, x, y);
    } else {
      ExpectedEventIsUnique(byTx, w, d, r, q, x, y);
    }
  }

  // ---------------------------------------------------------------- what a covered range reads as

  ghost predicate InItem(item: WorkItem, c: nat, h: nat) {
    item.chain == c && item.from <= h <= item.to
  }

  /** The records are exactly the world's in the item's range. */
  ghost predicate RecordsRight(w: World, item: WorkItem, records: set<RawRecord>) {
    forall r: RawRecord :: r in records <==> InItem(item, r.chain, r.height) && r in w(r.chain, r.height).logs
  }

  ghost predicate TimesRight(w: World, item: WorkItem, times: map<nat, int>) {
    forall h: nat :: item.from <= h <= item.to && w(item.chain, h).logs != [] ==>
      h in times && times[h] == w(item.chain, h).meta.time
  }

  lemma ReadRawRight(byTx: Schema, w: World, db: Db, item: WorkItem)
    requires WellFormed(w) && Canonical(byTx, db, w) && AllCovered(byTx, db, w, item.chain, item.from, item.to)
    ensures RecordsRight(w, item, RecordsIn(db.raw, item.chain, item.from, item.to))
  {
    var records := RecordsIn(db.raw, item.chain, item.from, item.to);
    forall r: RawRecord | InItem(item, r.chain, r.height) && r in w(r.chain, r.height).logs
      ensures r in records
    {
      assert Covers(byTx, db, w, item.chain, r.height);
      assert r.Pos() in db.raw && db.raw[r.Pos()] == r;
    }
    forall r | r in records
      ensures InItem(item, r.chain, r.height) && r in w(r.chain, r.height).logs
    {
      var k :| k in db.raw && k.chain == item.chain && item.from <= k.height <= item.to && r == db.raw[k];
      assert r.Pos() == k;
    }
  }

  lemma ReadTimesRight(byTx: Schema, w: World, db: Db, item: WorkItem)
    requires AllCovered(byTx, db, w, item.chain, item.from, item.to)
    ensures TimesRight(w, item, TimesIn(db.blocks, item.chain, item.from, item.to))
  {
    forall h: nat | item.from <= h <= item.to && w(item.chain, h).logs != []
      ensures h in TimesIn(db.blocks, item.chain, item.from, item.to)
      ensures TimesIn(db.blocks, item.chain, item.from, item.to)[h] == w(item.chain, h).meta.time
    {
      assert Covers(byTx, db, w, item.chain, h);
      assert BlockAt(item.chain, h) in db.blocks;
    }
  }

  lemma StoredTxIsWorlds(byTx: Schema, w: World, db: Db, r: RawRecord)
    requires WellFormed(w) && SchemaOk(byTx) && Canonical(byTx, db, w) && r in w(r.chain, r.height).logs
    requires OfTx(TRANSACTIONS, r.chain, r.txId) in db.typed
    ensures db.typed[OfTx(TRANSACTIONS, r.chain, r.txId)] in TxsOf(w, r)
  {
  }

  lemma CallOfOne(typed: map<RowKey, EventRow>, c: nat, r: RawRecord)
    ensures CallsOf(typed, c, {r}) ==
            if OfTx(TRANSACTIONS, c, r.txId) in typed then {typed[OfTx(TRANSACTIONS, c, r.txId)]} else {}
  {
  }

  lemma WorldTxIsStored(byTx: Schema, w: World, db: Db, r: RawRecord, t: EventRow)
    requires WellFormed(w) && SchemaOk(byTx) && Covers(byTx, db, w, r.chain, r.height) && t in TxsOf(w, r)
    ensures OfTx(TRANSACTIONS, r.chain, r.txId) in db.typed && db.typed[OfTx(TRANSACTIONS, r.chain, r.txId)] == t
  {
  }

  /** The stored transaction of a covered record is the world's. */
  lemma ReadCallRight(byTx: Schema, w: World, db: Db, r: RawRecord)
    requires WellFormed(w) && SchemaOk(byTx) && Canonical(byTx, db, w)
    requires r in w(r.chain, r.height).logs && Covers(byTx, db, w, r.chain, r.height)
    ensures CallsOf(db.typed, r.chain, {r}) == TxsOf(w, r)
  {
    CallOfOne(db.typed, r.chain, r);
    var txs := TxsOf(w, r);
    forall t | t in txs
      ensures t in CallsOf(db.typed, r.chain, {r})
    {
      WorldTxIsStored(byTx, w, db, r, t);
    }
    if OfTx(TRANSACTIONS, r.chain, r.txId) in db.typed {
      StoredTxIsWorlds(byTx, w, db, r);
    }
  }

  /** Tables that agree with a world hang together as repeated decoding needs them to. */
  lemma CanonicalIsCoherent(byTx: Schema, w: World, db: Db, c: nat)
    requires WellFormed(w) && SchemaOk(byTx) && Canonical(byTx, db, w)
    ensures Coherent(byTx, db.raw, db.typed, c)
  {
  }

  /** Decoding records together is decoding them one by one. */
  lemma RowsSplit(d: Decoder, times: map<nat, int>, typed: map<RowKey, EventRow>, c: nat, records: set<RawRecord>, x: EventRow)
    ensures x in RowsOf(d, times, records, CallsOf(typed, c, records)) <==>
            exists r :: r in records && x in RowsOf(d, times, {r}, CallsOf(typed, c, {r}))
  {
  }

  /** Decoding fails together exactly when it fails on some record. */
  lemma FailureSplits(d: Decoder, typed: map<RowKey, EventRow>, c: nat, records: set<RawRecord>)
    ensures CannotDecode(d, records, CallsOf(typed, c, records)) <==>
            exists r :: r in records && CannotDecode(d, {r}, CallsOf(typed, c, {r}))
  {
  }

  lemma StampAgrees(byTx: Schema, d: Decoder, w: World, item: WorkItem, times: map<nat, int>, r: RawRecord)
    requires WellFormed(w) && DecoderOk(byTx, d) && TimesRight(w, item, times)
    requires InItem(item, r.chain, r.height) && r in w(r.chain, r.height).logs
    ensures RowsOf(d, times, {r}, TxsOf(w, r)) == RowsFrom(w, d, r)
  {
    var one := map[r.height := w(r.chain, r.height).meta.time];
    assert times[r.height] == one[r.height];
    assert EventRows(d, times, {r}) == EventRows(d, one, {r});
    assert BlockOk(w(r.chain, r.height), r.chain, r.height);
    forall t | t in TxsOf(w, r) && d.call(t).Row?
      ensures Stamped(times, d.call(t).row) == Stamped(one, d.call(t).row)
    {
      assert t.height == r.height;
    }
    assert CallRows(d, times, TxsOf(w, r)) == CallRows(d, one, TxsOf(w, r));
  }

  ghost predicate ExpectedIn(w: World, d: Decoder, item: WorkItem, x: EventRow) {
    InItem(item, x.chain, x.height) && Expected(w, d, x)
  }

  lemma RecordRows(byTx: Schema, w: World, db: Db, d: Decoder, item: WorkItem, times: map<nat, int>, r: RawRecord)
    requires WellFormed(w) && SchemaOk(byTx) && Canonical(byTx, db, w) && DecoderOk(byTx, d)
    requires Covers(byTx, db, w, r.chain, r.height) && TimesRight(w, item, times)
    requires InItem(item, r.chain, r.height) && r in w(r.chain, r.height).logs
    ensures RowsOf(d, times, {r}, CallsOf(db.typed, item.chain, {r})) == RowsFrom(w, d, r)
  {
    ReadCallRight(byTx, w, db, r);
    StampAgrees(byTx, d, w, item, times, r);
  }

  /** A worker that has read a covered range decodes exactly the expected rows. */
  lemma BatchIsExpected(byTx: Schema, w: World, db: Db, d: Decoder, item: WorkItem, records: set<RawRecord>, times: map<nat, int>, x: EventRow)
    requires WellFormed(w) && SchemaOk(byTx) && Canonical(byTx, db, w) && DecoderOk(byTx, d)
    requires AllCovered(byTx, db, w, item.chain, item.from, item.to)
    requires RecordsRight(w, item, records) && TimesRight(w, item, times)
    ensures x in RowsOf(d, times, records, CallsOf(db.typed, item.chain, records)) <==> ExpectedIn(w, d, item, x)
  {
    var c := item.chain;
    RowsSplit(d, times, db.typed, c, records, x);
    forall r | r in records
      ensures RowsOf(d, times, {r}, CallsOf(db.typed, c, {r})) == RowsFrom(w, d, r)
    {
      RecordRows(byTx, w, db, d, item, times, r);
    }
    if r :| r in records && x in RowsFrom(w, d, r) {
      RowsFromRecord(byTx, w, d, r, x);
      assert r in w(x.chain, x.height).logs;
    }
    if ExpectedIn(w, d, item, x) {
      var r :| r in w(x.chain, x.height).logs && x in RowsFrom(w, d, r);
      RowsFromRecord(byTx, w, d, r, x);
      assert r in records;
    }
  }

  ghost predicate AllDecodable(w: World, d: Decoder, item: WorkItem) {
    forall r: RawRecord :: InItem(item, r.chain, r.height) && r in w(r.chain, r.height).logs ==> !Undecodable(w, d, r)
  }

  lemma NoFailureMeansDecodable(byTx: Schema, w: World, db: Db, d: Decoder, item: WorkItem, records: set<RawRecord>)
    requires WellFormed(w) && SchemaOk(byTx) && Canonical(byTx, db, w)
    requires AllCovered(byTx, db, w, item.chain, item.from, item.to) && RecordsRight(w, item, records)
    requires !CannotDecode(d, records, CallsOf(db.typed, item.chain, records))
    ensures AllDecodable(w, d, item)
  {
    FailureSplits(d, db.typed, item.chain, records);
    forall r: RawRecord | InItem(item, r.chain, r.height) && r in w(r.chain, r.height).logs
      ensures !Undecodable(w, d, r)
    {
      assert r in records;
      assert Covers(byTx, db, w, item.chain, r.height);
      ReadCallRight(byTx, w, db, r);
    }
  }
}
