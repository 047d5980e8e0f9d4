/** The chains being indexed, as the source reports them, and the database the indexer keeps
    about them, with the atomic transactions that write it. */
module Chain {
  import opened Model
  import opened Tables
  import opened Queue
  import opened Fetch

  // ---------------------------------------------------------------- chains

  /** What the source reports for one block: its header, the logs that match the filter, and
      the transaction and receipt rows of those logs. */
  datatype Block = Block(meta: BlockMeta, logs: seq<RawRecord>, aux: seq<EventRow>)

  /** Every chain at every height. */
  type World = (nat, nat) -> Block

  const TRANSACTIONS := "transactions"
  const RECEIPTS := "receipts"

  predicate IsAux(table: string) {
    table == TRANSACTIONS || table == RECEIPTS
  }

  /** Every receipt comes with its transaction. */
  ghost predicate ReceiptsHaveTx(aux: seq<EventRow>) {
    forall x :: x in aux && x.table == RECEIPTS ==> exists t :: t in aux && t.table == TRANSACTIONS && t.txId == x.txId
  }

  /** A block's contents carry its own chain, height and hash; logs ascend by index; rows of the
      transaction tables are one per transaction, a receipt with its transaction; a block without logs
      brings no rows. */
  ghost predicate BlockOk(b: Block, c: nat, h: nat) {
    && b.meta.chain == c && b.meta.height == h
    && (forall r :: r in b.logs ==> r.chain == c && r.height == h && r.blockHash == b.meta.hash)
    && (forall r, q :: r in b.logs && q in b.logs && r.index == q.index ==> r == q)
    && (forall x :: x in b.aux ==> x.chain == c && x.height == h && x.blockHash == b.meta.hash && IsAux(x.table))
    && (forall x, y :: x in b.aux && y in b.aux && x.table == y.table && x.txId == y.txId ==> x == y)
    && ReceiptsHaveTx(b.aux)
    && (b.logs == [] ==> b.aux == [])
  }

  /** A transaction is mined at one height of its chain. */
  ghost predicate TxHomes(w: World) {
    && (forall c, h, g, x, y :: x in w(c, h).aux && y in w(c, g).aux && x.txId == y.txId ==> h == g)
    && (forall c, h, g, r, y :: r in w(c, h).logs && y in w(c, g).aux && r.txId == y.txId ==> h == g)
  }

  ghost predicate WellFormed(w: World) {
    (forall c, h :: BlockOk(w(c, h), c, h)) && TxHomes(w)
  }

  function LogsAt(w: World, c: nat): nat -> seq<RawRecord> {
    (h: nat) => w(c, h).logs
  }

  function MetasAt(w: World, c: nat): nat -> seq<BlockMeta> {
    (h: nat) => if w(c, h).logs == [] then [] else [w(c, h).meta]
  }

  function AuxAt(w: World, c: nat): nat -> seq<EventRow> {
    (h: nat) => w(c, h).aux
  }

  lemma {:induction false} InRange<T>(f: nat -> seq<T>, lo: nat, hi: int, x: T)
    ensures x in RangeLogs(f, lo, hi) <==> exists h: nat :: lo <= h <= hi && x in f(h)
    decreases hi - lo
  {
    if lo <= hi {
      InRange(f, lo + 1, hi, x);
      assert x in RangeLogs(f, lo, hi) <==> x in f(lo) || x in RangeLogs(f, lo + 1, hi);
    }
  }

  // ---------------------------------------------------------------- the database

  /** Primary keys of the typed tables: event tables by block position, transaction, receipt and
      call tables by transaction. */
  datatype RowKey =
    | AtPosition(table: string, pos: Position)
    | OfTx(table: string, chain: nat, txId: Hash)

  /** Primary key of `blocks`. */
  datatype BlockAt = BlockAt(chain: nat, height: nat)

  /** Which tables declare the transaction as their primary key. */
  type Schema = string -> bool

  function KeyIn(byTx: Schema, row: EventRow): RowKey {
    if byTx(row.table) then OfTx(row.table, row.chain, row.txId)
    else AtPosition(row.table, Position(row.chain, row.height, row.index))
  }

  function RowKeyOf(byTx: Schema): EventRow -> RowKey {
    (row: EventRow) => KeyIn(byTx, row)
  }

  function RawKey(): RawRecord -> Position {
    (r: RawRecord) => r.Pos()
  }

  function BlockKey(): BlockMeta -> BlockAt {
    (m: BlockMeta) => BlockAt(m.chain, m.height)
  }

  /** The transaction tables are keyed by transaction. */
  ghost predicate SchemaOk(byTx: Schema) {
    byTx(TRANSACTIONS) && byTx(RECEIPTS)
  }

  datatype Db = Db(
    raw: map<Position, RawRecord>, blocks: map<BlockAt, BlockMeta>, typed: map<RowKey, EventRow>,
    queue: QueueTable, cursors: map<nat, Checkpoint>)

  const EMPTY_DB := Db(map[], map[], map[], EMPTY_QUEUE, map[])

  /** A fetched, not yet written range: pure RPC output. */
  datatype FetchedRange = FetchedRange(
    from: nat, to: nat, records: seq<RawRecord>, metas: seq<BlockMeta>, aux: seq<EventRow>)

  function Fetched(w: World, c: nat, lo: nat, hi: nat): FetchedRange {
    FetchedRange(lo, hi, RangeLogs(LogsAt(w, c), lo, hi), RangeLogs(MetasAt(w, c), lo, hi), RangeLogs(AuxAt(w, c), lo, hi))
  }

  /** All writes of one ingested range. */
  datatype IngestBatch = IngestBatch(
    rawRecords: seq<RawRecord>, blockMetas: seq<BlockMeta>, enrichment: seq<EventRow>,
    enqueue: Option<WorkItem>, advance: Option<(nat, Checkpoint)>)

  /** The batch the pipeline writes for a range: a decode item exactly when there are records,
      and no cursor advance. */
  function BatchOf(c: nat, f: FetchedRange): IngestBatch {
    IngestBatch(f.records, f.metas, f.aux,
                if f.records == [] then None else Some(WorkItem(c, f.from, f.to, Backfill, 0)), None)
  }

  /** One atomic commit: raw records, block metas, transaction rows, queue item, cursor. */
  function Ingested(byTx: Schema, db: Db, batch: IngestBatch): Db {
    Db(InsertAll(RawKey(), db.raw, batch.rawRecords),
       UpsertAll(BlockKey(), db.blocks, batch.blockMetas),
       InsertAll(RowKeyOf(byTx), db.typed, batch.enrichment),
       if batch.enqueue.Some? then Pushed(db.queue, batch.enqueue.value) else db.queue,
       if batch.advance.Some? then db.cursors[batch.advance.value.0 := batch.advance.value.1] else db.cursors)
  }

  function Committed(byTx: Schema, db: Db, c: nat, f: FetchedRange): Db {
    Ingested(byTx, db, BatchOf(c, f))
  }

  function Advanced(db: Db, c: nat, cp: Checkpoint): Db {
    db.(cursors := db.cursors[c := cp])
  }

  /** The cursor is rewound only if the chain has one. */
  function Rewound(db: Db, c: nat, height: nat): Db {
    if c in db.cursors then db.(cursors := db.cursors[c := Checkpoint(height, [])]) else db
  }

  /** The row goes: it is at or above `from` in a listed table, or it is a receipt whose
      transaction goes. */
  predicate Dropped(typed: map<RowKey, EventRow>, c: nat, from: nat, tables: set<string>, row: EventRow) {
    row.chain == c &&
    ((row.height >= from && row.table in tables) ||
     (row.table == RECEIPTS && TRANSACTIONS in tables && OfTx(TRANSACTIONS, c, row.txId) in typed &&
      typed[OfTx(TRANSACTIONS, c, row.txId)].height >= from))
  }

  /** One atomic rollback: typed rows of the listed tables, raw records and block metas at or
      above `from` go, and the cursor is set to the height below. Queue rows stay. */
  function RolledBack(db: Db, c: nat, from: nat, tables: set<string>): Db {
    Rewound(
      db.(raw := map k | k in db.raw && !(k.chain == c && k.height >= from) :: db.raw[k],
          blocks := map k | k in db.blocks && !(k.chain == c && k.height >= from) :: db.blocks[k],
          typed := map k | k in db.typed && !Dropped(db.typed, c, from, tables, db.typed[k]) :: db.typed[k]),
      c, if from == 0 then 0 else from - 1)
  }

  /** The row's transaction is stored or among the rows. */
  ghost predicate HasTx(typed: map<RowKey, EventRow>, rows: seq<EventRow>, x: EventRow) {
    OfTx(TRANSACTIONS, x.chain, x.txId) in typed ||
    exists t :: t in rows && t.table == TRANSACTIONS && t.chain == x.chain && t.txId == x.txId
  }

  /** The foreign key of `receipts`: every receipt that would be added has its transaction. */
  ghost predicate Refers(byTx: Schema, typed: map<RowKey, EventRow>, rows: seq<EventRow>) {
    forall x :: x in rows && x.table == RECEIPTS ==> KeyIn(byTx, x) in typed || HasTx(typed, rows, x)
  }

  // ---------------------------------------------------------------- agreement with a world

  /** Every raw record is one of the world's, under its own position. */
  ghost predicate CanonicalRaw(raw: map<Position, RawRecord>, w: World) {
    forall k :: k in raw ==> raw[k] in w(k.chain, k.height).logs && raw[k].Pos() == k
  }

  ghost predicate CanonicalBlocks(blocks: map<BlockAt, BlockMeta>, w: World) {
    forall k :: k in blocks ==> blocks[k] == w(k.chain, k.height).meta && w(k.chain, k.height).logs != []
  }

  /** Every row of the transaction tables is one of the world's. */
  ghost predicate CanonicalAux(typed: map<RowKey, EventRow>, w: World) {
    forall k :: k in typed && IsAux(typed[k].table) ==> typed[k] in w(typed[k].chain, typed[k].height).aux
  }

  /** Every typed row sits under its own key. */
  ghost predicate Keyed(byTx: Schema, typed: map<RowKey, EventRow>) {
    forall k :: k in typed ==> KeyIn(byTx, typed[k]) == k
  }

  ghost predicate Canonical(byTx: Schema, db: Db, w: World) {
    && CanonicalRaw(db.raw, w) && CanonicalBlocks(db.blocks, w)
    && CanonicalAux(db.typed, w) && Keyed(byTx, db.typed)
  }

  /** Everything the world holds at this height has been committed. */
  ghost predicate Covers(byTx: Schema, db: Db, w: World, c: nat, h: nat) {
    && (forall r :: r in w(c, h).logs ==> r.Pos() in db.raw && db.raw[r.Pos()] == r)
    && (w(c, h).logs != [] ==> BlockAt(c, h) in db.blocks && db.blocks[BlockAt(c, h)] == w(c, h).meta)
    && (forall x :: x in w(c, h).aux ==> KeyIn(byTx, x) in db.typed && db.typed[KeyIn(byTx, x)] == x)
  }

  /** Nothing stored is lost, and typed rows keep their value. */
  ghost predicate Grows(db: Db, db': Db) {
    && (forall k :: k in db.raw ==> k in db'.raw)
    && (forall k :: k in db.blocks ==> k in db'.blocks)
    && (forall k :: k in db.typed ==> k in db'.typed && db'.typed[k] == db.typed[k])
  }

  // Each table after a range of the world is committed into it.

  function RawAfter(raw: map<Position, RawRecord>, w: World, c: nat, lo: nat, hi: nat): map<Position, RawRecord> {
    InsertAll(RawKey(), raw, RangeLogs(LogsAt(w, c), lo, hi))
  }

  function BlocksAfter(blocks: map<BlockAt, BlockMeta>, w: World, c: nat, lo: nat, hi: nat): map<BlockAt, BlockMeta> {
    UpsertAll(BlockKey(), blocks, RangeLogs(MetasAt(w, c), lo, hi))
  }

  function AuxAfter(byTx: Schema, typed: map<RowKey, EventRow>, w: World, c: nat, lo: nat, hi: nat): map<RowKey, EventRow> {
    InsertAll(RowKeyOf(byTx), typed, RangeLogs(AuxAt(w, c), lo, hi))
  }

  lemma RawCommitted(raw: map<Position, RawRecord>, w: World, c: nat, lo: nat, hi: nat)
    requires WellFormed(w) && CanonicalRaw(raw, w)
    ensures CanonicalRaw(RawAfter(raw, w, c, lo, hi), w)
    ensures forall k :: k in raw ==> k in RawAfter(raw, w, c, lo, hi)
    ensures forall k :: k in RawAfter(raw, w, c, lo, hi) && k !in raw ==> k.chain == c && lo <= k.height <= hi
  {
    var raw' := RawAfter(raw, w, c, lo, hi);
    InsertAllContents(RawKey(), raw, RangeLogs(LogsAt(w, c), lo, hi));
    forall k | k in raw' && k !in raw
      ensures raw'[k] in w(k.chain, k.height).logs && raw'[k].Pos() == k && k.chain == c && lo <= k.height <= hi
    {
      InRange(LogsAt(w, c), lo, hi, raw'[k]);
      var h: nat :| lo <= h <= hi && raw'[k] in LogsAt(w, c)(h);
      assert BlockOk(w(c, h), c, h);
    }
  }

  lemma RawCoversAt(raw: map<Position, RawRecord>, w: World, c: nat, lo: nat, hi: nat, h: nat, r: RawRecord)
    requires WellFormed(w) && CanonicalRaw(raw, w) && lo <= h <= hi && r in w(c, h).logs
    ensures r.Pos() in RawAfter(raw, w, c, lo, hi) && RawAfter(raw, w, c, lo, hi)[r.Pos()] == r
  {
    InsertAllContents(RawKey(), raw, RangeLogs(LogsAt(w, c), lo, hi));
    assert r in LogsAt(w, c)(h);
    InRange(LogsAt(w, c), lo, hi, r);
    assert RawKey()(r) in RawAfter(raw, w, c, lo, hi);
    RawCommitted(raw, w, c, lo, hi);
    assert BlockOk(w(c, h), c, h);
  }

  lemma BlocksCommitted(blocks: map<BlockAt, BlockMeta>, w: World, c: nat, lo: nat, hi: nat)
    requires WellFormed(w) && CanonicalBlocks(blocks, w)
    ensures CanonicalBlocks(BlocksAfter(blocks, w, c, lo, hi), w)
    ensures forall k :: k in blocks ==> k in BlocksAfter(blocks, w, c, lo, hi)
    ensures forall k :: k in BlocksAfter(blocks, w, c, lo, hi) && k !in blocks ==> k.chain == c && lo <= k.height <= hi
  {
    var metas := RangeLogs(MetasAt(w, c), lo, hi);
    var blocks' := BlocksAfter(blocks, w, c, lo, hi);
    UpsertAllContents(BlockKey(), blocks, metas);
    forall k | k in blocks' && blocks'[k] in metas && BlockKey()(blocks'[k]) == k
      ensures blocks'[k] == w(k.chain, k.height).meta && w(k.chain, k.height).logs != []
      ensures k.chain == c && lo <= k.height <= hi
    {
      InRange(MetasAt(w, c), lo, hi, blocks'[k]);
      var h: nat :| lo <= h <= hi && blocks'[k] in MetasAt(w, c)(h);
      assert BlockOk(w(c, h), c, h);
    }
  }

  lemma BlocksCoverAt(blocks: map<BlockAt, BlockMeta>, w: World, c: nat, lo: nat, hi: nat, h: nat)
    requires WellFormed(w) && CanonicalBlocks(blocks, w) && lo <= h <= hi && w(c, h).logs != []
    ensures BlockAt(c, h) in BlocksAfter(blocks, w, c, lo, hi)
    ensures BlocksAfter(blocks, w, c, lo, hi)[BlockAt(c, h)] == w(c, h).meta
  {
    UpsertAllContents(BlockKey(), blocks, RangeLogs(MetasAt(w, c), lo, hi));
    assert w(c, h).meta in MetasAt(w, c)(h);
    InRange(MetasAt(w, c), lo, hi, w(c, h).meta);
    assert BlockOk(w(c, h), c, h);
    assert BlockKey()(w(c, h).meta) == BlockAt(c, h);
    BlocksCommitted(blocks, w, c, lo, hi);
  }

  lemma AuxCommitted(byTx: Schema, typed: map<RowKey, EventRow>, w: World, c: nat, lo: nat, hi: nat)
    requires WellFormed(w) && CanonicalAux(typed, w) && Keyed(byTx, typed)
    ensures CanonicalAux(AuxAfter(byTx, typed, w, c, lo, hi), w)
    ensures Keyed(byTx, AuxAfter(byTx, typed, w, c, lo, hi))
    ensures forall k :: k in typed ==>
              k in AuxAfter(byTx, typed, w, c, lo, hi) && AuxAfter(byTx, typed, w, c, lo, hi)[k] == typed[k]
    ensures forall k :: k in AuxAfter(byTx, typed, w, c, lo, hi) && k !in typed ==>
              var x := AuxAfter(byTx, typed, w, c, lo, hi)[k];
              IsAux(x.table) && x.chain == c && lo <= x.height <= hi
  {
    var typed' := AuxAfter(byTx, typed, w, c, lo, hi);
    InsertAllContents(RowKeyOf(byTx), typed, RangeLogs(AuxAt(w, c), lo, hi));
    forall k | k in typed' && k !in typed
      ensures typed'[k].chain == c && lo <= typed'[k].height <= hi && IsAux(typed'[k].table)
      ensures typed'[k] in w(typed'[k].chain, typed'[k].height).aux && KeyIn(byTx, typed'[k]) == k
    {
      InRange(AuxAt(w, c), lo, hi, typed'[k]);
      var h: nat :| lo <= h <= hi && typed'[k] in AuxAt(w, c)(h);
      assert BlockOk(w(c, h), c, h);
      assert RowKeyOf(byTx)(typed'[k]) == k;
    }
  }

  lemma AuxRowIsUnique(byTx: Schema, typed: map<RowKey, EventRow>, w: World, c: nat, h: nat, x: EventRow)
    requires WellFormed(w) && SchemaOk(byTx) && CanonicalAux(typed, w) && Keyed(byTx, typed)
    requires x in w(c, h).aux && KeyIn(byTx, x) in typed
    ensures typed[KeyIn(byTx, x)] == x
  {
    assert BlockOk(w(c, h), c, h);
    var y := typed[KeyIn(byTx, x)];
    assert KeyIn(byTx, y) == KeyIn(byTx, x);
    assert y in w(y.chain, y.height).aux;
    assert BlockOk(w(y.chain, y.height), y.chain, y.height);
  }

  lemma AuxCoversAt(byTx: Schema, typed: map<RowKey, EventRow>, w: World, c: nat, lo: nat, hi: nat, h: nat, x: EventRow)
    requires WellFormed(w) && SchemaOk(byTx) && CanonicalAux(typed, w) && Keyed(byTx, typed)
    requires lo <= h <= hi && x in w(c, h).aux
    ensures KeyIn(byTx, x) in AuxAfter(byTx, typed, w, c, lo, hi)
    ensures AuxAfter(byTx, typed, w, c, lo, hi)[KeyIn(byTx, x)] == x
  {
    InsertAllContents(RowKeyOf(byTx), typed, RangeLogs(AuxAt(w, c), lo, hi));
    assert x in AuxAt(w, c)(h);
    InRange(AuxAt(w, c), lo, hi, x);
    assert RowKeyOf(byTx)(x) in AuxAfter(byTx, typed, w, c, lo, hi);
    AuxCommitted(byTx, typed, w, c, lo, hi);
    AuxRowIsUnique(byTx, AuxAfter(byTx, typed, w, c, lo, hi), w, c, h, x);
  }

  /** A commit writes each table on its own. */
  lemma CommitTables(byTx: Schema, db: Db, w: World, c: nat, lo: nat, hi: nat)
    ensures var db' := Committed(byTx, db, c, Fetched(w, c, lo, hi));
            && db'.raw == RawAfter(db.raw, w, c, lo, hi)
            && db'.blocks == BlocksAfter(db.blocks, w, c, lo, hi)
            && db'.typed == AuxAfter(byTx, db.typed, w, c, lo, hi)
            && db'.cursors == db.cursors
  {
  }

  lemma CommitCanonical(byTx: Schema, db: Db, w: World, c: nat, lo: nat, hi: nat)
    requires WellFormed(w) && Canonical(byTx, db, w)
    ensures Canonical(byTx, Committed(byTx, db, c, Fetched(w, c, lo, hi)), w)
    ensures Grows(db, Committed(byTx, db, c, Fetched(w, c, lo, hi)))
  {
    CommitTables(byTx, db, w, c, lo, hi);
    RawCommitted(db.raw, w, c, lo, hi);
    BlocksCommitted(db.blocks, w, c, lo, hi);
    AuxCommitted(byTx, db.typed, w, c, lo, hi);
  }

  lemma CommitCoversAt(byTx: Schema, db: Db, w: World, c: nat, lo: nat, hi: nat, h: nat)
    requires WellFormed(w) && SchemaOk(byTx) && Canonical(byTx, db, w) && lo <= h <= hi
    ensures Covers(byTx, Committed(byTx, db, c, Fetched(w, c, lo, hi)), w, c, h)
  {
    CommitTables(byTx, db, w, c, lo, hi);
    forall r | r in w(c, h).logs
      ensures r.Pos() in RawAfter(db.raw, w, c, lo, hi) && RawAfter(db.raw, w, c, lo, hi)[r.Pos()] == r
    {
      RawCoversAt(db.raw, w, c, lo, hi, h, r);
    }
    if w(c, h).logs != [] {
      BlocksCoverAt(db.blocks, w, c, lo, hi, h);
    }
    forall x | x in w(c, h).aux
      ensures KeyIn(byTx, x) in AuxAfter(byTx, db.typed, w, c, lo, hi)
      ensures AuxAfter(byTx, db.typed, w, c, lo, hi)[KeyIn(byTx, x)] == x
    {
      AuxCoversAt(byTx, db.typed, w, c, lo, hi, h, x);
    }
  }

  lemma CoverageSurvives(byTx: Schema, db: Db, db': Db, w: World, c: nat, h: nat)
    requires WellFormed(w) && Covers(byTx, db, w, c, h) && Canonical(byTx, db', w) && Grows(db, db')
    ensures Covers(byTx, db', w, c, h)
  {
  }

  /** Committing a range of a world keeps the database canonical for it, covers every height of
      the range and uncovers nothing. */
  lemma CommitCovers(byTx: Schema, db: Db, w: World, c: nat, lo: nat, hi: nat)
    requires WellFormed(w) && SchemaOk(byTx) && Canonical(byTx, db, w)
    ensures Canonical(byTx, Committed(byTx, db, c, Fetched(w, c, lo, hi)), w)
    ensures forall h: nat :: lo <= h <= hi ==>
              Covers(byTx, Committed(byTx, db, c, Fetched(w, c, lo, hi)), w, c, h)
    ensures forall d: nat, h: nat :: Covers(byTx, db, w, d, h) ==>
              Covers(byTx, Committed(byTx, db, c, Fetched(w, c, lo, hi)), w, d, h)
  {
    CommitCanonical(byTx, db, w, c, lo, hi);
    var db' := Committed(byTx, db, c, Fetched(w, c, lo, hi));
    forall h: nat | lo <= h <= hi
      ensures Covers(byTx, db', w, c, h)
    {
      CommitCoversAt(byTx, db, w, c, lo, hi, h);
    }
    forall d: nat, h: nat | Covers(byTx, db, w, d, h)
      ensures Covers(byTx, db', w, d, h)
    {
      CoverageSurvives(byTx, db, db', w, d, h);
    }
  }
}
