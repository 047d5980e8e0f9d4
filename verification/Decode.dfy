/** Decoding raw records into typed rows: read a range, decode, stamp block times, bucket by table,
    upsert. Delivery is at least once, so what matters is that repetition changes nothing. */
module Decode {
  import opened Model
  import opened Tables
  import opened Plan
  import opened Chain
  import opened Database

  /** What a decoder makes of a record: a row, nothing, or an error. */
  datatype Decoded = Row(row: EventRow) | Skip | Fail

  /** A chain's decoder: a deterministic function of a log, and of a transaction's calldata. */
  datatype Decoder = Decoder(decode: RawRecord -> Decoded, call: EventRow -> Decoded, hasCalls: bool)

  /** A decoded row carries the coordinates of what it was decoded from. Event tables are keyed by
      position and call tables by transaction, and neither is a transaction or receipt table. */
  ghost predicate DecoderOk(byTx: Schema, d: Decoder) {
    && (forall r: RawRecord :: d.decode(r).Row? ==>
          var x := d.decode(r).row;
          x.chain == r.chain && x.height == r.height && x.index == r.index && x.txId == r.txId &&
          x.blockHash == r.blockHash && !byTx(x.table) && !IsAux(x.table))
    && (forall t: EventRow :: d.call(t).Row? ==>
          var x := d.call(t).row;
          x.chain == t.chain && x.height == t.height && x.txId == t.txId && x.blockHash == t.blockHash &&
          byTx(x.table) && !IsAux(x.table))
  }

  // ---------------------------------------------------------------- reads

  function RecordsIn(raw: map<Position, RawRecord>, c: nat, lo: nat, hi: nat): set<RawRecord> {
    set k | k in raw && k.chain == c && lo <= k.height <= hi :: raw[k]
  }

  function TimesIn(blocks: map<BlockAt, BlockMeta>, c: nat, lo: nat, hi: nat): map<nat, int> {
    map k | k in blocks && k.chain == c && lo <= k.height <= hi :: k.height := blocks[k].time
  }

  /** The stored transactions behind the records. */
  function CallsOf(typed: map<RowKey, EventRow>, c: nat, records: set<RawRecord>): set<EventRow> {
    set r | r in records && OfTx(TRANSACTIONS, c, r.txId) in typed :: typed[OfTx(TRANSACTIONS, c, r.txId)]
  }

  // ---------------------------------------------------------------- rows

  function Stamped(times: map<nat, int>, row: EventRow): EventRow {
    row.(blockTime := if row.height in times then Some(times[row.height]) else None)
  }

  function EventRows(d: Decoder, times: map<nat, int>, records: set<RawRecord>): set<EventRow> {
    set r | r in records && d.decode(r).Row? :: Stamped(times, d.decode(r).row)
  }

  function CallRows(d: Decoder, times: map<nat, int>, txs: set<EventRow>): set<EventRow> {
    if !d.hasCalls then {} else set t | t in txs && d.call(t).Row? :: Stamped(times, d.call(t).row)
  }

  function RowsOf(d: Decoder, times: map<nat, int>, records: set<RawRecord>, txs: set<EventRow>): set<EventRow> {
    EventRows(d, times, records) + CallRows(d, times, txs)
  }

  predicate CannotDecode(d: Decoder, records: set<RawRecord>, txs: set<EventRow>) {
    (exists r :: r in records && d.decode(r).Fail?) || (d.hasCalls && exists t :: t in txs && d.call(t).Fail?)
  }

  /** What inserting a set of rows, absent keys only, may leave: old rows stay, every key of the
      set is present, and each new key holds a row of the set. */
  ghost predicate Inserted(byTx: Schema, typed: map<RowKey, EventRow>, rows: set<EventRow>, typed': map<RowKey, EventRow>) {
    && (forall k :: k in typed ==> k in typed' && typed'[k] == typed[k])
    && (forall x :: x in rows ==> KeyIn(byTx, x) in typed')
    && (forall k :: k in typed' && k !in typed ==> typed'[k] in rows && KeyIn(byTx, typed'[k]) == k)
  }

  // ---------------------------------------------------------------- the decode path

  /** `groups` buckets exactly `rows` by target table. */
  ghost predicate Bucketed(rows: set<EventRow>, groups: map<string, seq<EventRow>>) {
    && (forall x :: x in rows ==> x.table in groups && x in groups[x.table])
    && (forall table, x :: table in groups && x in groups[table] ==> x in rows && x.table == table)
  }

  /** Stamps a row's block time and buckets it by its table. */
  method Collect(groups: map<string, seq<EventRow>>, times: map<nat, int>, row: EventRow, ghost rows: set<EventRow>)
    returns (groups': map<string, seq<EventRow>>)
    requires Bucketed(rows, groups)
    ensures Bucketed(rows + {Stamped(times, row)}, groups')
  {
    var x := Stamped(times, row);
    var before := if x.table in groups then groups[x.table] else [];
    groups' := groups[x.table := before + [x]];
  }

  function AsSet<T>(s: seq<T>): set<T> {
    set x | x in s
  }

  method ReadRange(raw: map<Position, RawRecord>, c: nat, lo: nat, hi: nat) returns (out: seq<RawRecord>)
    ensures AsSet(out) == RecordsIn(raw, c, lo, hi)
  {
    out := [];
    var scan := set k | k in raw && k.chain == c && lo <= k.height <= hi;
    while scan != {}
      invariant scan <= set k | k in raw && k.chain == c && lo <= k.height <= hi
      invariant forall r :: r in out ==> r in RecordsIn(raw, c, lo, hi)
      invariant forall k :: k in raw && k.chain == c && lo <= k.height <= hi && k !in scan ==> raw[k] in out
      decreases scan
    {
      var k :| k in scan;
      scan := scan - {k};
      out := out + [raw[k]];
    }
  }

  /** Decodes the records into buckets; an undecodable record is an error. */
  method CollectEvents(d: Decoder, times: map<nat, int>, raw: seq<RawRecord>)
    returns (groups: map<string, seq<EventRow>>, failed: bool)
    ensures failed <==> exists r :: r in raw && d.decode(r).Fail?
    ensures !failed ==> Bucketed(EventRows(d, times, AsSet(raw)), groups)
  {
    groups, failed := map[], false;
    for i := 0 to |raw|
      invariant forall r :: r in raw[..i] ==> !d.decode(r).Fail?
      invariant Bucketed(EventRows(d, times, AsSet(raw[..i])), groups)
    {
      assert raw[..i + 1] == raw[..i] + [raw[i]];
      ghost var before := EventRows(d, times, AsSet(raw[..i]));
      match d.decode(raw[i]) {
        case Fail =>
          failed := true;
          return;
        case Skip =>
          assert EventRows(d, times, AsSet(raw[..i + 1])) == before;
        case Row(row) =>
          groups := Collect(groups, times, row, before);
          assert EventRows(d, times, AsSet(raw[..i + 1])) == before + {Stamped(times, row)};
      }
    }
    assert raw[..|raw|] == raw;
  }

  /** Decodes calldata into the buckets of the events. */
  method CollectCalls(d: Decoder, times: map<nat, int>, txs: set<EventRow>, events: map<string, seq<EventRow>>, ghost rows: set<EventRow>)
    returns (groups: map<string, seq<EventRow>>, failed: bool)
    requires d.hasCalls && Bucketed(rows, events)
    ensures failed <==> exists t :: t in txs && d.call(t).Fail?
    ensures !failed ==> Bucketed(rows + CallRows(d, times, txs), groups)
  {
    groups, failed := events, false;
    var todo := txs;
    assert rows + CallRows(d, times, txs - todo) == rows;
    while todo != {}
      invariant todo <= txs
      invariant forall t :: t in txs - todo ==> !d.call(t).Fail?
      invariant Bucketed(rows + CallRows(d, times, txs - todo), groups)
      decreases todo
    {
      var t :| t in todo;
      ghost var before := rows + CallRows(d, times, txs - todo);
      todo := todo - {t};
      match d.call(t) {
        case Fail =>
          failed := true;
          return;
        case Skip =>
          assert rows + CallRows(d, times, txs - todo) == before;
        case Row(row) =>
          groups := Collect(groups, times, row, before);
          assert rows + CallRows(d, times, txs - todo) == before + {Stamped(times, row)};
      }
    }
    assert txs - todo == txs;
  }

  function OfTable(rows: set<EventRow>, table: string): set<EventRow> {
    set x | x in rows && x.table == table
  }

  ghost function OfTables(rows: set<EventRow>, tables: seq<string>): set<EventRow> {
    set x | x in rows && x.table in tables
  }

  /** Writes of one table after another, each table once. */
  ghost predicate WriteRun(byTx: Schema, rows: set<EventRow>, tables: seq<string>, typed: seq<map<RowKey, EventRow>>) {
    && |typed| == |tables| + 1
    && (forall i, j :: 0 <= i < j < |tables| ==> tables[i] != tables[j])
    && forall i {:trigger tables[i]} :: 0 <= i < |tables| ==> Inserted(byTx, typed[i], OfTable(rows, tables[i]), typed[i + 1])
  }

  /** Table by table, in any order, the batch lands as a whole. */
  lemma {:induction false} TableByTable(byTx: Schema, rows: set<EventRow>, tables: seq<string>, typed: seq<map<RowKey, EventRow>>)
    requires WriteRun(byTx, rows, tables, typed)
    ensures Inserted(byTx, typed[0], OfTables(rows, tables), typed[|tables|])
    decreases |tables|
  {
    if tables != [] {
      var n := |tables| - 1;
      var front := tables[..n];
      TableByTable(byTx, rows, front, typed[..|tables|]);
      assert Inserted(byTx, typed[n], OfTable(rows, tables[n]), typed[n + 1]);
      assert tables == front + [tables[n]];
      assert OfTables(rows, tables) == OfTables(rows, front) + OfTable(rows, tables[n]);
    }
  }

  lemma WriteRunExtends(byTx: Schema, rows: set<EventRow>, tables: seq<string>, typed: seq<map<RowKey, EventRow>>, name: string, next: map<RowKey, EventRow>)
    requires WriteRun(byTx, rows, tables, typed) && name !in tables
    requires Inserted(byTx, typed[|tables|], OfTable(rows, name), next)
    ensures WriteRun(byTx, rows, tables + [name], typed + [next])
  {
    var all, trace := tables + [name], typed + [next];
    forall i | 0 <= i < |all|
      ensures Inserted(byTx, trace[i], OfTable(rows, all[i]), trace[i + 1])
    {
      assert i < |tables| ==> all[i] == tables[i] && trace[i + 1] == typed[i + 1];
    }
  }

  /** The writes of a batch: every table of it, from the table before to the table after. */
  ghost predicate Writes(byTx: Schema, rows: set<EventRow>, before: map<RowKey, EventRow>, after: map<RowKey, EventRow>,
                         tables: seq<string>, trace: seq<map<RowKey, EventRow>>)
  {
    && WriteRun(byTx, rows, tables, trace) && trace[0] == before && trace[|tables|] == after
    && forall x :: x in rows ==> x.table in tables
  }

  lemma WritesInsert(byTx: Schema, rows: set<EventRow>, before: map<RowKey, EventRow>, after: map<RowKey, EventRow>,
                     tables: seq<string>, trace: seq<map<RowKey, EventRow>>)
    requires Writes(byTx, rows, before, after, tables, trace)
    ensures Inserted(byTx, before, rows, after) && (Keyed(byTx, before) ==> Keyed(byTx, after))
  {
    TableByTable(byTx, rows, tables, trace);
    assert OfTables(rows, tables) == rows;
  }

  /** Upserts the buckets one table at a time. */
  method WriteTables(store: Store, groups: map<string, seq<EventRow>>, ghost rows: set<EventRow>)
    returns (written: nat, ghost tables: seq<string>, ghost trace: seq<map<RowKey, EventRow>>)
    requires store.Valid() && Bucketed(rows, groups)
    modifies store`typed
    ensures store.Valid()
    ensures Writes(store.byTx, rows, old(store.typed), store.typed, tables, trace)
    ensures |store.typed| == |old(store.typed)| + written
  {
    var table := new Table(RowKeyOf(store.byTx), store.typed);
    written, tables, trace := 0, [], [store.typed];
    var todo := groups.Keys;
    while todo != {}
      invariant todo <= groups.Keys && fresh(table) && table.key == RowKeyOf(store.byTx)
      invariant WriteRun(store.byTx, rows, tables, trace) && trace[0] == old(store.typed) && trace[|tables|] == table.rows
      invariant forall name :: name in groups ==> (name in tables <==> name !in todo)
      invariant |table.rows| == |old(store.typed)| + written
      invariant store.typed == old(store.typed)
      decreases todo
    {
      var name :| name in todo;
      ghost var mid := table.rows;
      var n, binds := UpsertBatch(table, groups[name], name != RECEIPTS);
      DoneIsInserted(store.byTx, mid, groups[name], OfTable(rows, name), table.rows);
      WriteRunExtends(store.byTx, rows, tables, trace, name, table.rows);
      tables, trace := tables + [name], trace + [table.rows];
      written := written + n;
      todo := todo - {name};
    }
    WritesInsert(store.byTx, rows, old(store.typed), table.rows, tables, trace);
    store.typed := table.rows;
  }

  lemma DoneIsInserted(byTx: Schema, typed: map<RowKey, EventRow>, done: seq<EventRow>, rows: set<EventRow>, typed': map<RowKey, EventRow>)
    requires InsertedInto(RowKeyOf(byTx), typed, done, typed') && forall x :: x in done <==> x in rows
    ensures Inserted(byTx, typed, rows, typed')
  {
    forall x | x in rows
      ensures KeyIn(byTx, x) in typed'
    {
      assert RowKeyOf(byTx)(x) in typed';
    }
    forall k | k in typed' && k !in typed
      ensures KeyIn(byTx, typed'[k]) == k
    {
      assert RowKeyOf(byTx)(typed'[k]) == k;
    }
  }

  /** Everything a decode of `lo..=hi` reads from the database, as rows to write. */
  function SpanRows(d: Decoder, raw: map<Position, RawRecord>, blocks: map<BlockAt, BlockMeta>,
                    typed: map<RowKey, EventRow>, c: nat, lo: nat, hi: nat): set<EventRow>
  {
    var records := RecordsIn(raw, c, lo, hi);
    RowsOf(d, TimesIn(blocks, c, lo, hi), records, CallsOf(typed, c, records))
  }

  predicate SpanFails(d: Decoder, raw: map<Position, RawRecord>, typed: map<RowKey, EventRow>, c: nat, lo: nat, hi: nat) {
    var records := RecordsIn(raw, c, lo, hi);
    CannotDecode(d, records, CallsOf(typed, c, records))
  }

  /** Reads a range and decodes it into buckets. */
  method CollectRange(d: Decoder, raw: map<Position, RawRecord>, blocks: map<BlockAt, BlockMeta>,
                      typed: map<RowKey, EventRow>, c: nat, lo: nat, hi: nat)
    returns (groups: map<string, seq<EventRow>>, failed: bool)
    ensures failed <==> SpanFails(d, raw, typed, c, lo, hi)
    ensures !failed ==> Bucketed(SpanRows(d, raw, blocks, typed, c, lo, hi), groups)
  {
    var records := ReadRange(raw, c, lo, hi);
    var times := TimesIn(blocks, c, lo, hi);
    groups, failed := CollectEvents(d, times, records);
    if !failed && d.hasCalls {
      var txs := CallsOf(typed, c, AsSet(records));
      groups, failed := CollectCalls(d, times, txs, groups, EventRows(d, times, AsSet(records)));
    }
  }

  /** Decodes every raw record of a range and upserts the rows; an error writes nothing. The ghost
      results are the tables written, in order, and the typed tables after each. */
  method DecodeRange(store: Store, d: Decoder, c: nat, lo: nat, hi: nat)
    returns (r: Result<nat, ()>, ghost tables: seq<string>, ghost trace: seq<map<RowKey, EventRow>>)
    requires store.Valid()
    modifies store`typed
    ensures store.Valid()
    ensures r.Err? <==> SpanFails(d, store.raw, old(store.typed), c, lo, hi)
    ensures r.Err? ==> store.typed == old(store.typed)
    ensures r.Ok? ==>
              var rows := SpanRows(d, store.raw, store.blocks, old(store.typed), c, lo, hi);
              && Inserted(store.byTx, old(store.typed), rows, store.typed)
              && Writes(store.byTx, rows, old(store.typed), store.typed, tables, trace)
              && |store.typed| == |old(store.typed)| + r.value
  {
    tables, trace := [], [];
    var groups, failed := CollectRange(d, store.raw, store.blocks, store.typed, c, lo, hi);
    if failed {
      return Err(()), [], [];
    }
    ghost var rows := SpanRows(d, store.raw, store.blocks, store.typed, c, lo, hi);
    var written;
    written, tables, trace := WriteTables(store, groups, rows);
    WritesInsert(store.byTx, rows, old(store.typed), store.typed, tables, trace);
    r := Ok(written);
  }

  // ---------------------------------------------------------------- at least once is exactly once

  /** The raw records and transactions of a chain hang together: each record sits at its own
      position, and its transaction, if stored, is at the same height. */
  ghost predicate Coherent(byTx: Schema, raw: map<Position, RawRecord>, typed: map<RowKey, EventRow>, c: nat) {
    && Keyed(byTx, typed)
    && (forall k :: k in raw ==> raw[k].Pos() == k)
    && (forall k :: k in raw && k.chain == c && OfTx(TRANSACTIONS, c, raw[k].txId) in typed ==>
          typed[OfTx(TRANSACTIONS, c, raw[k].txId)].height == k.height)
  }

  /** The time a row at the height is stamped with: that of the stored block, if there is one. */
  lemma StampIsBlockTime(blocks: map<BlockAt, BlockMeta>, c: nat, lo: nat, hi: nat, row: EventRow)
    requires lo <= row.height <= hi
    ensures BlockAt(c, row.height) in blocks ==>
              Stamped(TimesIn(blocks, c, lo, hi), row) == row.(blockTime := Some(blocks[BlockAt(c, row.height)].time))
    ensures BlockAt(c, row.height) !in blocks ==> Stamped(TimesIn(blocks, c, lo, hi), row) == row.(blockTime := None)
  {
    assert forall k :: k in blocks && k.chain == c && k.height == row.height ==> k == BlockAt(c, row.height);
  }

  /** A decoded row of the range, in terms of the stored tables: it comes from a record of the range, or
      from the stored transaction of one, and carries the time of its stored block. */
  ghost predicate DecodedFrom(
    d: Decoder, raw: map<Position, RawRecord>, blocks: map<BlockAt, BlockMeta>, typed: map<RowKey, EventRow>,
    c: nat, k: Position, x: EventRow)
    requires k in raw
  {
    var time := if BlockAt(c, x.height) in blocks then Some(blocks[BlockAt(c, x.height)].time) else None;
    var tx := OfTx(TRANSACTIONS, c, raw[k].txId);
    || (d.decode(raw[k]).Row? && x == d.decode(raw[k]).row.(blockTime := time))
    || (d.hasCalls && tx in typed && d.call(typed[tx]).Row? && x == d.call(typed[tx]).row.(blockTime := time))
  }

  /** Records and transactions that cannot be decoded, likewise. */
  ghost predicate FailsOn(d: Decoder, raw: map<Position, RawRecord>, typed: map<RowKey, EventRow>, c: nat, k: Position)
    requires k in raw
  {
    var tx := OfTx(TRANSACTIONS, c, raw[k].txId);
    d.decode(raw[k]).Fail? || (d.hasCalls && tx in typed && d.call(typed[tx]).Fail?)
  }

  lemma RecordIsFrom(raw: map<Position, RawRecord>, c: nat, lo: nat, hi: nat, r: RawRecord) returns (k: Position)
    requires r in RecordsIn(raw, c, lo, hi)
    ensures k in raw && raw[k] == r && k.chain == c && lo <= k.height <= hi
  {
    k :| k in raw && k.chain == c && lo <= k.height <= hi && raw[k] == r;
  }

  lemma RowOfSpanIsFrom(byTx: Schema, d: Decoder, raw: map<Position, RawRecord>, blocks: map<BlockAt, BlockMeta>,
                        typed: map<RowKey, EventRow>, c: nat, lo: nat, hi: nat, x: EventRow) returns (k: Position)
    requires DecoderOk(byTx, d) && Coherent(byTx, raw, typed, c) && x in SpanRows(d, raw, blocks, typed, c, lo, hi)
    ensures k in raw && k.chain == c && lo <= k.height <= hi && DecodedFrom(d, raw, blocks, typed, c, k, x)
  {
    var records, times := RecordsIn(raw, c, lo, hi), TimesIn(blocks, c, lo, hi);
    if x in EventRows(d, times, records) {
      var r :| r in records && d.decode(r).Row? && x == Stamped(times, d.decode(r).row);
      k := RecordIsFrom(raw, c, lo, hi, r);
      StampIsBlockTime(blocks, c, lo, hi, d.decode(r).row);
    } else {
      var t :| t in CallsOf(typed, c, records) && d.call(t).Row? && x == Stamped(times, d.call(t).row);
      var r :| r in records && OfTx(TRANSACTIONS, c, r.txId) in typed && t == typed[OfTx(TRANSACTIONS, c, r.txId)];
      k := RecordIsFrom(raw, c, lo, hi, r);
      StampIsBlockTime(blocks, c, lo, hi, d.call(t).row);
    }
  }

  lemma RowIsInSpan(byTx: Schema, d: Decoder, raw: map<Position, RawRecord>, blocks: map<BlockAt, BlockMeta>,
                    typed: map<RowKey, EventRow>, c: nat, lo: nat, hi: nat, k: Position, x: EventRow)
    requires DecoderOk(byTx, d) && Coherent(byTx, raw, typed, c)
    requires k in raw && k.chain == c && lo <= k.height <= hi && DecodedFrom(d, raw, blocks, typed, c, k, x)
    ensures x in SpanRows(d, raw, blocks, typed, c, lo, hi)
  {
    var r, times, tx := raw[k], TimesIn(blocks, c, lo, hi), OfTx(TRANSACTIONS, c, raw[k].txId);
    assert r in RecordsIn(raw, c, lo, hi);
    if d.decode(r).Row? && x.(blockTime := None) == d.decode(r).row.(blockTime := None) {
      StampIsBlockTime(blocks, c, lo, hi, d.decode(r).row);
      assert x == Stamped(times, d.decode(r).row);
    } else {
      StampIsBlockTime(blocks, c, lo, hi, d.call(typed[tx]).row);
      assert x == Stamped(times, d.call(typed[tx]).row);
      assert typed[tx] in CallsOf(typed, c, RecordsIn(raw, c, lo, hi));
    }
  }

  /** What a decode of the range writes: the decoded rows of its records and, for a decoder with calls,
      of their stored transactions, each with the time of its stored block. */
  lemma SpanRowsMean(byTx: Schema, d: Decoder, raw: map<Position, RawRecord>, blocks: map<BlockAt, BlockMeta>,
                     typed: map<RowKey, EventRow>, c: nat, lo: nat, hi: nat, x: EventRow)
    requires DecoderOk(byTx, d) && Coherent(byTx, raw, typed, c)
    ensures x in SpanRows(d, raw, blocks, typed, c, lo, hi) <==>
            exists k :: k in raw && k.chain == c && lo <= k.height <= hi && DecodedFrom(d, raw, blocks, typed, c, k, x)
  {
    if x in SpanRows(d, raw, blocks, typed, c, lo, hi) {
      var k := RowOfSpanIsFrom(byTx, d, raw, blocks, typed, c, lo, hi, x);
    }
    if k :| k in raw && k.chain == c && lo <= k.height <= hi && DecodedFrom(d, raw, blocks, typed, c, k, x) {
      RowIsInSpan(byTx, d, raw, blocks, typed, c, lo, hi, k, x);
    }
  }

  /** The decode fails exactly when a record of the range, or its stored transaction, cannot be decoded. */
  lemma SpanFailsMeans(d: Decoder, raw: map<Position, RawRecord>, typed: map<RowKey, EventRow>, c: nat, lo: nat, hi: nat)
    ensures SpanFails(d, raw, typed, c, lo, hi) <==>
            exists k :: k in raw && k.chain == c && lo <= k.height <= hi && FailsOn(d, raw, typed, c, k)
  {
    var records := RecordsIn(raw, c, lo, hi);
    if k :| k in raw && k.chain == c && lo <= k.height <= hi && FailsOn(d, raw, typed, c, k) {
      assert raw[k] in records;
      if !d.decode(raw[k]).Fail? {
        assert typed[OfTx(TRANSACTIONS, c, raw[k].txId)] in CallsOf(typed, c, records);
      }
    }
    if r :| r in records && d.decode(r).Fail? {
      var k := RecordIsFrom(raw, c, lo, hi, r);
      assert FailsOn(d, raw, typed, c, k);
    } else if d.hasCalls {
      if t :| t in CallsOf(typed, c, records) && d.call(t).Fail? {
        var r :| r in records && OfTx(TRANSACTIONS, c, r.txId) in typed && t == typed[OfTx(TRANSACTIONS, c, r.txId)];
        var k := RecordIsFrom(raw, c, lo, hi, r);
        assert FailsOn(d, raw, typed, c, k);
      }
    }
  }

  lemma TimeInSpan(blocks: map<BlockAt, BlockMeta>, c: nat, lo: nat, hi: nat, h: nat, row: EventRow)
    requires lo <= h <= hi && row.height == h
    ensures Stamped(TimesIn(blocks, c, lo, hi), row) == Stamped(TimesIn(blocks, c, h, h), row)
  {
  }

  /** A row of a span is a row of its own height, and the other way round: ranges only select. */
  lemma SpanSelects(byTx: Schema, d: Decoder, raw: map<Position, RawRecord>, blocks: map<BlockAt, BlockMeta>,
                    typed: map<RowKey, EventRow>, c: nat, lo: nat, hi: nat, x: EventRow)
    requires SchemaOk(byTx) && DecoderOk(byTx, d) && Coherent(byTx, raw, typed, c)
    ensures x in SpanRows(d, raw, blocks, typed, c, lo, hi) <==>
            lo <= x.height <= hi && x in SpanRows(d, raw, blocks, typed, c, x.height, x.height)
  {
    var h := x.height;
    if x in SpanRows(d, raw, blocks, typed, c, lo, hi) {
      SpanNarrows(byTx, d, raw, blocks, typed, c, lo, hi, x);
    }
    if lo <= h <= hi && x in SpanRows(d, raw, blocks, typed, c, h, h) {
      SpanWidens(byTx, d, raw, blocks, typed, c, lo, hi, x);
    }
  }

  lemma SpanNarrows(byTx: Schema, d: Decoder, raw: map<Position, RawRecord>, blocks: map<BlockAt, BlockMeta>,
                    typed: map<RowKey, EventRow>, c: nat, lo: nat, hi: nat, x: EventRow)
    requires SchemaOk(byTx) && DecoderOk(byTx, d) && Coherent(byTx, raw, typed, c)
    requires x in SpanRows(d, raw, blocks, typed, c, lo, hi)
    ensures lo <= x.height <= hi && x in SpanRows(d, raw, blocks, typed, c, x.height, x.height)
  {
    var h := x.height;
    var all, one := RecordsIn(raw, c, lo, hi), RecordsIn(raw, c, h, h);
    var times := TimesIn(blocks, c, lo, hi);
    if x in EventRows(d, times, all) {
      var r :| r in all && d.decode(r).Row? && x == Stamped(times, d.decode(r).row);
      TimeInSpan(blocks, c, lo, hi, h, d.decode(r).row);
      assert r in one;
    } else {
      var t :| t in CallsOf(typed, c, all) && d.call(t).Row? && x == Stamped(times, d.call(t).row);
      var r :| r in all && OfTx(TRANSACTIONS, c, r.txId) in typed && t == typed[OfTx(TRANSACTIONS, c, r.txId)];
      TimeInSpan(blocks, c, lo, hi, h, d.call(t).row);
      assert r in one;
      assert t in CallsOf(typed, c, one);
    }
  }

  lemma SpanWidens(byTx: Schema, d: Decoder, raw: map<Position, RawRecord>, blocks: map<BlockAt, BlockMeta>,
                   typed: map<RowKey, EventRow>, c: nat, lo: nat, hi: nat, x: EventRow)
    requires DecoderOk(byTx, d) && lo <= x.height <= hi && x in SpanRows(d, raw, blocks, typed, c, x.height, x.height)
    ensures x in SpanRows(d, raw, blocks, typed, c, lo, hi)
  {
    var h := x.height;
    var all, one := RecordsIn(raw, c, lo, hi), RecordsIn(raw, c, h, h);
    var times := TimesIn(blocks, c, h, h);
    assert one <= all;
    if x in EventRows(d, times, one) {
      var r :| r in one && d.decode(r).Row? && x == Stamped(times, d.decode(r).row);
      TimeInSpan(blocks, c, lo, hi, h, d.decode(r).row);
    } else {
      var t :| t in CallsOf(typed, c, one) && d.call(t).Row? && x == Stamped(times, d.call(t).row);
      TimeInSpan(blocks, c, lo, hi, h, d.call(t).row);
      assert t in CallsOf(typed, c, all);
    }
  }

  /** A position-keyed row was decoded from a record. */
  lemma EventOrigin(byTx: Schema, d: Decoder, times: map<nat, int>, records: set<RawRecord>, txs: set<EventRow>, x: EventRow)
    returns (r: RawRecord)
    requires DecoderOk(byTx, d) && x in RowsOf(d, times, records, txs) && !byTx(x.table)
    ensures r in records && d.decode(r).Row? && x == Stamped(times, d.decode(r).row)
  {
    assert x !in CallRows(d, times, txs);
    r :| r in records && d.decode(r).Row? && x == Stamped(times, d.decode(r).row);
  }

  /** A transaction-keyed row was decoded from calldata. */
  lemma CallOrigin(byTx: Schema, d: Decoder, times: map<nat, int>, records: set<RawRecord>, txs: set<EventRow>, x: EventRow)
    returns (t: EventRow)
    requires DecoderOk(byTx, d) && x in RowsOf(d, times, records, txs) && byTx(x.table)
    ensures d.hasCalls && t in txs && d.call(t).Row? && x == Stamped(times, d.call(t).row)
  {
    assert x !in EventRows(d, times, records);
    t :| t in txs && d.call(t).Row? && x == Stamped(times, d.call(t).row);
  }

  lemma StoredCallIsUnique(byTx: Schema, typed: map<RowKey, EventRow>, c: nat, records: set<RawRecord>, t: EventRow, u: EventRow)
    requires SchemaOk(byTx) && Keyed(byTx, typed) && t.txId == u.txId
    requires t in CallsOf(typed, c, records) && u in CallsOf(typed, c, records)
    ensures t == u
  {
  }

  /** Two rows decoded from one coherent store under the same key are the same row. */
  lemma DecodedRowsAreUnique(byTx: Schema, d: Decoder, raw: map<Position, RawRecord>, times: map<nat, int>,
                             typed: map<RowKey, EventRow>, c: nat, records: set<RawRecord>, x: EventRow, y: EventRow)
    requires SchemaOk(byTx) && DecoderOk(byTx, d) && Keyed(byTx, typed)
    requires forall r, q :: r in records && q in records && r.Pos() == q.Pos() ==> r == q
    requires x in RowsOf(d, times, records, CallsOf(typed, c, records))
    requires y in RowsOf(d, times, records, CallsOf(typed, c, records))
    requires KeyIn(byTx, x) == KeyIn(byTx, y)
    ensures x == y
  {
    var txs := CallsOf(typed, c, records);
    if byTx(x.table) {
      var t := CallOrigin(byTx, d, times, records, txs, x);
      var u := CallOrigin(byTx, d, times, records, txs, y);
      StoredCallIsUnique(byTx, typed, c, records, t, u);
    } else {
      var r := EventOrigin(byTx, d, times, records, txs, x);
      var q := EventOrigin(byTx, d, times, records, txs, y);
      assert r.Pos() == q.Pos();
    }
  }

  /** Decodes of spans one after the other over a fixed raw and block store. */
  ghost predicate DecodeRun(byTx: Schema, d: Decoder, raw: map<Position, RawRecord>, blocks: map<BlockAt, BlockMeta>,
                            c: nat, spans: seq<Span>, tables: seq<map<RowKey, EventRow>>)
  {
    && |tables| == |spans| + 1
    && forall i {:trigger spans[i]} :: 0 <= i < |spans| ==>
         Inserted(byTx, tables[i], SpanRows(d, raw, blocks, tables[i], c, spans[i].lo, spans[i].hi), tables[i + 1])
  }

  ghost predicate Touches(spans: seq<Span>, h: nat) {
    exists i :: 0 <= i < |spans| && spans[i].lo <= h <= spans[i].hi
  }

  /** What a run of decodes leaves: old rows, plus exactly the rows of the heights it touched. */
  ghost predicate FilledBy(byTx: Schema, d: Decoder, raw: map<Position, RawRecord>, blocks: map<BlockAt, BlockMeta>,
                         typed: map<RowKey, EventRow>, c: nat, spans: seq<Span>, typed': map<RowKey, EventRow>)
  {
    && (forall k :: k in typed ==> k in typed' && typed'[k] == typed[k])
    && (forall x: EventRow :: Touches(spans, x.height) && x in SpanRows(d, raw, blocks, typed, c, x.height, x.height) ==>
          KeyIn(byTx, x) in typed')
    && (forall k :: k in typed' && k !in typed ==>
          var x := typed'[k];
          KeyIn(byTx, x) == k && Touches(spans, x.height) && x in SpanRows(d, raw, blocks, typed, c, x.height, x.height))
  }

  /** Decoding writes no transaction row, so it does not change what later decodes read. */
  lemma DecodesKeepReads(byTx: Schema, d: Decoder, raw: map<Position, RawRecord>, blocks: map<BlockAt, BlockMeta>,
                         typed: map<RowKey, EventRow>, c: nat, typed': map<RowKey, EventRow>, lo: nat, hi: nat)
    requires forall k :: k in typed ==> k in typed' && typed'[k] == typed[k]
    requires forall k :: k in typed' && k !in typed ==> KeyIn(byTx, typed'[k]) == k && !IsAux(typed'[k].table)
    requires SchemaOk(byTx)
    ensures SpanRows(d, raw, blocks, typed', c, lo, hi) == SpanRows(d, raw, blocks, typed, c, lo, hi)
  {
  }

  lemma SpanRowsAreNotAux(byTx: Schema, d: Decoder, raw: map<Position, RawRecord>, blocks: map<BlockAt, BlockMeta>,
                          typed: map<RowKey, EventRow>, c: nat, lo: nat, hi: nat, x: EventRow)
    requires DecoderOk(byTx, d) && x in SpanRows(d, raw, blocks, typed, c, lo, hi)
    ensures !IsAux(x.table)
  {
  }

  lemma FillKeepsReads(byTx: Schema, d: Decoder, raw: map<Position, RawRecord>, blocks: map<BlockAt, BlockMeta>,
                         typed: map<RowKey, EventRow>, c: nat, spans: seq<Span>, typed': map<RowKey, EventRow>, lo: nat, hi: nat)
    requires SchemaOk(byTx) && DecoderOk(byTx, d) && FilledBy(byTx, d, raw, blocks, typed, c, spans, typed')
    ensures SpanRows(d, raw, blocks, typed', c, lo, hi) == SpanRows(d, raw, blocks, typed, c, lo, hi)
  {
    forall k | k in typed' && k !in typed
      ensures !IsAux(typed'[k].table)
    {
      SpanRowsAreNotAux(byTx, d, raw, blocks, typed, c, typed'[k].height, typed'[k].height, typed'[k]);
    }
    DecodesKeepReads(byTx, d, raw, blocks, typed, c, typed', lo, hi);
  }

  lemma OneMoreSpan(spans: seq<Span>, i: nat, h: nat)
    requires i < |spans|
    ensures Touches(spans[..i + 1], h) <==> Touches(spans[..i], h) || spans[i].lo <= h <= spans[i].hi
  {
  }

  lemma SpanFills(byTx: Schema, d: Decoder, raw: map<Position, RawRecord>, blocks: map<BlockAt, BlockMeta>,
                  typed: map<RowKey, EventRow>, c: nat, spans: seq<Span>, i: nat, mid: map<RowKey, EventRow>, typed': map<RowKey, EventRow>)
    requires SchemaOk(byTx) && DecoderOk(byTx, d) && Coherent(byTx, raw, typed, c) && i < |spans|
    requires FilledBy(byTx, d, raw, blocks, typed, c, spans[..i], mid)
    requires Inserted(byTx, mid, SpanRows(d, raw, blocks, typed, c, spans[i].lo, spans[i].hi), typed')
    ensures FilledBy(byTx, d, raw, blocks, typed, c, spans[..i + 1], typed')
  {
    var lo, hi := spans[i].lo, spans[i].hi;
    forall x: EventRow | Touches(spans[..i + 1], x.height) && x in SpanRows(d, raw, blocks, typed, c, x.height, x.height)
      ensures KeyIn(byTx, x) in typed'
    {
      OneMoreSpan(spans, i, x.height);
      SpanSelects(byTx, d, raw, blocks, typed, c, lo, hi, x);
    }
    forall k | k in typed' && k !in typed
      ensures var x := typed'[k];
              KeyIn(byTx, x) == k && Touches(spans[..i + 1], x.height) &&
              x in SpanRows(d, raw, blocks, typed, c, x.height, x.height)
    {
      OneMoreSpan(spans, i, typed'[k].height);
      if k !in mid {
        SpanSelects(byTx, d, raw, blocks, typed, c, lo, hi, typed'[k]);
      }
    }
  }

  lemma {:induction false} RunFills(byTx: Schema, d: Decoder, raw: map<Position, RawRecord>, blocks: map<BlockAt, BlockMeta>,
                                    c: nat, spans: seq<Span>, tables: seq<map<RowKey, EventRow>>, i: nat)
    requires SchemaOk(byTx) && DecoderOk(byTx, d) && DecodeRun(byTx, d, raw, blocks, c, spans, tables)
    requires Coherent(byTx, raw, tables[0], c) && i <= |spans|
    ensures FilledBy(byTx, d, raw, blocks, tables[0], c, spans[..i], tables[i])
  {
    if i > 0 {
      var j := i - 1;
      RunFills(byTx, d, raw, blocks, c, spans, tables, j);
      FillKeepsReads(byTx, d, raw, blocks, tables[0], c, spans[..j], tables[j], spans[j].lo, spans[j].hi);
      assert Inserted(byTx, tables[j], SpanRows(d, raw, blocks, tables[j], c, spans[j].lo, spans[j].hi), tables[j + 1]);
      SpanFills(byTx, d, raw, blocks, tables[0], c, spans, j, tables[j], tables[j + 1]);
    }
  }

  lemma SameRowAtHeight(byTx: Schema, d: Decoder, raw: map<Position, RawRecord>, blocks: map<BlockAt, BlockMeta>,
                        typed: map<RowKey, EventRow>, c: nat, x: EventRow, y: EventRow)
    requires SchemaOk(byTx) && DecoderOk(byTx, d) && Coherent(byTx, raw, typed, c) && KeyIn(byTx, x) == KeyIn(byTx, y)
    requires x in SpanRows(d, raw, blocks, typed, c, x.height, x.height)
    requires y in SpanRows(d, raw, blocks, typed, c, y.height, y.height)
    ensures x == y
  {
    var lo, hi := Min(x.height, y.height), if x.height <= y.height then y.height else x.height;
    SpanSelects(byTx, d, raw, blocks, typed, c, lo, hi, x);
    SpanSelects(byTx, d, raw, blocks, typed, c, lo, hi, y);
    DecodedRowsAreUnique(byTx, d, raw, TimesIn(blocks, c, lo, hi), typed, c, RecordsIn(raw, c, lo, hi), x, y);
  }

  lemma FillIsUnique(byTx: Schema, d: Decoder, raw: map<Position, RawRecord>, blocks: map<BlockAt, BlockMeta>,
                     typed: map<RowKey, EventRow>, c: nat, a: seq<Span>, b: seq<Span>,
                     left: map<RowKey, EventRow>, right: map<RowKey, EventRow>, k: RowKey)
    requires SchemaOk(byTx) && DecoderOk(byTx, d) && Coherent(byTx, raw, typed, c)
    requires FilledBy(byTx, d, raw, blocks, typed, c, a, left) && FilledBy(byTx, d, raw, blocks, typed, c, b, right)
    requires SameHeights(a, b) && k in left
    ensures k in right && right[k] == left[k]
  {
    if k !in typed {
      assert Touches(b, left[k].height);
      assert KeyIn(byTx, left[k]) in right;
      SameRowAtHeight(byTx, d, raw, blocks, typed, c, left[k], right[k]);
    }
  }

  ghost predicate SameHeights(a: seq<Span>, b: seq<Span>) {
    forall h :: Touches(a, h) <==> Touches(b, h)
  }

  lemma FillsAgree(byTx: Schema, d: Decoder, raw: map<Position, RawRecord>, blocks: map<BlockAt, BlockMeta>,
                   typed: map<RowKey, EventRow>, c: nat, a: seq<Span>, b: seq<Span>,
                   left: map<RowKey, EventRow>, right: map<RowKey, EventRow>)
    requires SchemaOk(byTx) && DecoderOk(byTx, d) && Coherent(byTx, raw, typed, c) && SameHeights(a, b)
    requires FilledBy(byTx, d, raw, blocks, typed, c, a, left) && FilledBy(byTx, d, raw, blocks, typed, c, b, right)
    ensures left == right
  {
    forall k | k in left
      ensures k in right && right[k] == left[k]
    {
      FillIsUnique(byTx, d, raw, blocks, typed, c, a, b, left, right, k);
    }
    forall k | k in right
      ensures k in left
    {
      FillIsUnique(byTx, d, raw, blocks, typed, c, b, a, right, left, k);
    }
  }

  /** Decoding spans in any order, overlapping and repeated as they may be, leaves the same typed
      tables as decoding any other spans over the same heights, the whole range at once for instance:
      delivering work at least once is delivering it exactly once. */
  lemma AtLeastOnceIsExactlyOnce(
    byTx: Schema, d: Decoder, raw: map<Position, RawRecord>, blocks: map<BlockAt, BlockMeta>, c: nat,
    a: seq<Span>, b: seq<Span>, left: seq<map<RowKey, EventRow>>, right: seq<map<RowKey, EventRow>>)
    requires SchemaOk(byTx) && DecoderOk(byTx, d)
    requires DecodeRun(byTx, d, raw, blocks, c, a, left) && DecodeRun(byTx, d, raw, blocks, c, b, right)
    requires left[0] == right[0] && Coherent(byTx, raw, left[0], c)
    requires SameHeights(a, b)
    ensures left[|a|] == right[|b|]
  {
    RunFills(byTx, d, raw, blocks, c, a, left, |a|);
    RunFills(byTx, d, raw, blocks, c, b, right, |b|);
    assert a[..|a|] == a && b[..|b|] == b;
    FillsAgree(byTx, d, raw, blocks, left[0], c, a, b, left[|a|], right[|b|]);
  }
}
