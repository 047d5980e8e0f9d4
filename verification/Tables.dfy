/** Tables as maps from primary key to row: insert-if-absent, overwrite, and the chunked and
    grouped statements the repositories issue. */
module Tables {
  import opened Model

  /** `ON CONFLICT DO NOTHING` for one row. */
  function InsertOne<K, V>(key: V -> K, table: map<K, V>, row: V): map<K, V> {
    if key(row) in table then table else table[key(row) := row]
  }

  /** Row-by-row insert-if-absent. */
  function InsertAll<K, V>(key: V -> K, table: map<K, V>, rows: seq<V>): map<K, V> {
    if rows == [] then table
    else InsertOne(key, InsertAll(key, table, rows[..|rows| - 1]), rows[|rows| - 1])
  }

  /** Row-by-row `ON CONFLICT DO UPDATE`. */
  function UpsertAll<K, V>(key: V -> K, table: map<K, V>, rows: seq<V>): map<K, V> {
    if rows == [] then table
    else
      var row := rows[|rows| - 1];
      UpsertAll(key, table, rows[..|rows| - 1])[key(row) := row]
  }

  /** What an insert-if-absent of `rows` into `table` may leave behind, whatever the order: old
      rows stay, every key of the batch is present, and each new key holds a row of the batch. */
  ghost predicate InsertedInto<K, V>(key: V -> K, table: map<K, V>, rows: seq<V>, result: map<K, V>) {
    && (forall k :: k in table ==> k in result && result[k] == table[k])
    && (forall row :: row in rows ==> key(row) in result)
    && (forall k :: k in result && k !in table ==> result[k] in rows && key(result[k]) == k)
  }

  lemma {:induction false} InsertAllContents<K, V>(key: V -> K, table: map<K, V>, rows: seq<V>)
    ensures InsertedInto(key, table, rows, InsertAll(key, table, rows))
  {
    if rows != [] {
      var front, last := rows[..|rows| - 1], rows[|rows| - 1];
      InsertAllContents(key, table, front);
      assert rows == front + [last];
    }
  }

  lemma {:induction false} UpsertAllContents<K, V>(key: V -> K, table: map<K, V>, rows: seq<V>)
    ensures forall row :: row in rows ==> key(row) in UpsertAll(key, table, rows)
    ensures forall k :: k in table ==> k in UpsertAll(key, table, rows)
    ensures var result := UpsertAll(key, table, rows);
            forall k :: k in result ==>
              (result[k] in rows && key(result[k]) == k) ||
              (k in table && result[k] == table[k] && forall row :: row in rows ==> key(row) != k)
  {
    if rows != [] {
      var front, last := rows[..|rows| - 1], rows[|rows| - 1];
      UpsertAllContents(key, table, front);
      assert rows == front + [last];
    }
  }

  lemma {:induction false} InsertAllConcat<K, V>(key: V -> K, table: map<K, V>, a: seq<V>, b: seq<V>)
    ensures InsertAll(key, table, a + b) == InsertAll(key, InsertAll(key, table, a), b)
  {
    if b == [] {
      assert a + b == a;
    } else {
      assert (a + b)[..|a + b| - 1] == a + b[..|b| - 1];
      InsertAllConcat(key, table, a, b[..|b| - 1]);
    }
  }

  lemma {:induction false} UpsertAllConcat<K, V>(key: V -> K, table: map<K, V>, a: seq<V>, b: seq<V>)
    ensures UpsertAll(key, table, a + b) == UpsertAll(key, UpsertAll(key, table, a), b)
  {
    if b == [] {
      assert a + b == a;
    } else {
      assert (a + b)[..|a + b| - 1] == a + b[..|b| - 1];
      UpsertAllConcat(key, table, a, b[..|b| - 1]);
    }
  }

  /** No two different rows of the batch share a key. */
  ghost predicate DistinctKeys<K, V>(key: V -> K, rows: seq<V>) {
    forall a, b :: a in rows && b in rows && key(a) == key(b) ==> a == b
  }

  /** For a batch with distinct keys the outcome of insert-if-absent is unique. */
  lemma InsertionIsUnique<K, V>(key: V -> K, table: map<K, V>, rows: seq<V>, a: map<K, V>, b: map<K, V>)
    requires DistinctKeys(key, rows)
    requires InsertedInto(key, table, rows, a) && InsertedInto(key, table, rows, b)
    ensures a == b
  {
  }

  lemma InsertionsCompose<K, V>(
    key: V -> K, table: map<K, V>, a: seq<V>, mid: map<K, V>, b: seq<V>, result: map<K, V>)
    requires InsertedInto(key, table, a, mid) && InsertedInto(key, mid, b, result)
    ensures InsertedInto(key, table, a + b, result)
  {
  }

  lemma {:induction false} InsertPresent<K, V>(key: V -> K, table: map<K, V>, rows: seq<V>)
    requires forall row :: row in rows ==> key(row) in table
    ensures InsertAll(key, table, rows) == table
  {
    if rows != [] {
      InsertPresent(key, table, rows[..|rows| - 1]);
    }
  }

  /** Inserting a batch a second time changes nothing. */
  lemma SecondInsertIsNoOp<K, V>(key: V -> K, table: map<K, V>, rows: seq<V>)
    ensures InsertAll(key, InsertAll(key, table, rows), rows) == InsertAll(key, table, rows)
  {
    InsertAllContents(key, table, rows);
    InsertPresent(key, InsertAll(key, table, rows), rows);
  }

  // ---------------------------------------------------------------- statements

  const BIND_CAP := 65535

  /** Rows per multi-row statement under the bind-parameter cap, given columns per row. */
  function ChunkRows(cols: nat): (n: nat)
    ensures n >= 1
    ensures 1 <= cols <= BIND_CAP ==> n * cols <= BIND_CAP < (n + 1) * cols
  {
    var c := if cols == 0 then 1 else cols;
    var n := BIND_CAP / c;
    if n == 0 then 1 else n
  }

  /** A table together with the statements issued so far, as their bind counts. */
  class Table<K(==), V> {
    var rows: map<K, V>
    const key: V -> K

    constructor (key: V -> K, rows: map<K, V>)
      ensures this.key == key && this.rows == rows
    {
      this.key := key;
      this.rows := rows;
    }

    /** One multi-row `INSERT … ON CONFLICT DO NOTHING`; returns the rows it added. */
    method InsertStatement(part: seq<V>) returns (added: nat)
      modifies this`rows
      ensures rows == InsertAll(key, old(rows), part)
      ensures |rows| == |old(rows)| + added
    {
      added := 0;
      for i := 0 to |part|
        invariant rows == InsertAll(key, old(rows), part[..i])
        invariant |rows| == |old(rows)| + added
      {
        assert part[..i + 1][..i] == part[..i];
        if key(part[i]) !in rows {
          rows := rows[key(part[i]) := part[i]];
          added := added + 1;
        }
      }
      assert part[..|part|] == part;
    }

    /** Inserts `batch` in statements of at most `chunk` rows; returns the rows added and the
        size of the largest statement. */
    method InsertChunks(batch: seq<V>, chunk: nat) returns (added: nat, widest: nat)
      requires chunk >= 1
      modifies this`rows
      ensures rows == InsertAll(key, old(rows), batch)
      ensures |rows| == |old(rows)| + added
      ensures widest <= chunk && widest <= |batch|
    {
      added, widest := 0, 0;
      var i := 0;
      while i < |batch|
        invariant 0 <= i <= |batch|
        invariant rows == InsertAll(key, old(rows), batch[..i])
        invariant |rows| == |old(rows)| + added
        invariant widest <= chunk && widest <= |batch|
      {
        var end := if i + chunk <= |batch| then i + chunk else |batch|;
        var n := InsertStatement(batch[i..end]);
        InsertAllConcat(key, old(rows), batch[..i], batch[i..end]);
        assert batch[..end] == batch[..i] + batch[i..end];
        added := added + n;
        widest := if end - i > widest then end - i else widest;
        i := end;
      }
      assert batch[..|batch|] == batch;
    }

    /** One multi-row `INSERT … ON CONFLICT DO UPDATE`. The database refuses a statement that would
        write one row twice, and then changes nothing. */
    method UpsertStatement(part: seq<V>) returns (ok: bool)
      modifies this`rows
      ensures ok <==> KeysOnce(key, part)
      ensures rows == if ok then UpsertAll(key, old(rows), part) else old(rows)
    {
      var before, seen := rows, {};
      for i := 0 to |part|
        invariant KeysOnce(key, part[..i])
        invariant seen == set row | row in part[..i] :: key(row)
        invariant rows == UpsertAll(key, old(rows), part[..i])
      {
        assert part[..i + 1] == part[..i] + [part[i]];
        assert part[..i + 1][..i] == part[..i];
        if key(part[i]) in seen {
          SeenTwice(key, part, i);
          rows := before;
          return false;
        }
        NotSeen(key, part, i);
        seen := seen + {key(part[i])};
        rows := rows[key(part[i]) := part[i]];
      }
      assert part[..|part|] == part;
      ok := true;
    }

    /** Overwrites rows in statements of at most `chunk` rows, up to the first one refused. */
    method UpsertChunks(batch: seq<V>, chunk: nat) returns (ok: bool)
      requires chunk >= 1
      modifies this`rows
      ensures ok <==> ChunksOnce(key, batch, chunk)
      ensures ok ==> rows == UpsertAll(key, old(rows), batch)
    {
      var i := 0;
      assert batch[0..] == batch;
      while i < |batch|
        invariant 0 <= i <= |batch|
        invariant rows == UpsertAll(key, old(rows), batch[..i])
        invariant ChunksOnce(key, batch, chunk) <==> ChunksOnce(key, batch[i..], chunk)
      {
        var end := if i + chunk <= |batch| then i + chunk else |batch|;
        NextChunk(key, batch, i, end, chunk);
        var fine := UpsertStatement(batch[i..end]);
        if !fine {
          return false;
        }
        UpsertAllConcat(key, old(rows), batch[..i], batch[i..end]);
        assert batch[..end] == batch[..i] + batch[i..end];
        i := end;
      }
      assert batch[..|batch|] == batch;
      ok := true;
    }
  }

  /** No key twice among the rows. */
  ghost predicate KeysOnce<K, V>(key: V -> K, rows: seq<V>) {
    forall i, j :: 0 <= i < j < |rows| ==> key(rows[i]) != key(rows[j])
  }

  /** No statement of at most `chunk` rows has a key twice. */
  ghost predicate ChunksOnce<K, V>(key: V -> K, rows: seq<V>, chunk: nat)
    requires chunk >= 1
  {
    if |rows| <= chunk then KeysOnce(key, rows)
    else KeysOnce(key, rows[..chunk]) && ChunksOnce(key, rows[chunk..], chunk)
  }

  lemma SeenTwice<K, V>(key: V -> K, part: seq<V>, i: nat)
    requires i < |part| && exists row :: row in part[..i] && key(row) == key(part[i])
    ensures !KeysOnce(key, part)
  {
    var row :| row in part[..i] && key(row) == key(part[i]);
    var j :| 0 <= j < i && part[j] == row;
    assert key(part[j]) == key(part[i]);
  }

  lemma NotSeen<K, V>(key: V -> K, part: seq<V>, i: nat)
    requires i < |part| && KeysOnce(key, part[..i]) && forall row :: row in part[..i] ==> key(row) != key(part[i])
    ensures KeysOnce(key, part[..i + 1])
  {
    var more := part[..i + 1];
    forall a, b | 0 <= a < b < |more|
      ensures key(more[a]) != key(more[b])
    {
      assert more[a] == part[..i][a] && more[a] in part[..i];
      assert b < i ==> more[b] == part[..i][b];
    }
  }

  lemma NextChunk<K, V>(key: V -> K, rows: seq<V>, i: nat, end: nat, chunk: nat)
    requires chunk >= 1 && i < |rows| && end == (if i + chunk <= |rows| then i + chunk else |rows|)
    ensures ChunksOnce(key, rows[i..], chunk) <==> KeysOnce(key, rows[i..end]) && ChunksOnce(key, rows[end..], chunk)
  {
    var rest := rows[i..];
    if |rest| > chunk {
      assert rest[..chunk] == rows[i..end] && rest[chunk..] == rows[end..];
    } else {
      assert rest == rows[i..end];
    }
  }

  /** Rows without a repeated key are never refused. */
  lemma {:induction false} OnceInChunks<K, V>(key: V -> K, rows: seq<V>, chunk: nat)
    requires chunk >= 1 && KeysOnce(key, rows)
    ensures ChunksOnce(key, rows, chunk)
  {
    if |rows| > chunk {
      OnceInChunks(key, rows[chunk..], chunk);
    }
  }

  // ---------------------------------------------------------------- grouped upsert

  type Signature = seq<string>

  function SignatureOf(row: EventRow): Signature {
    seq(|row.fields|, i requires 0 <= i < |row.fields| => row.fields[i].0)
  }

  /** `groups` sorts the batch by column signature and keeps every row of it. */
  ghost predicate Grouped(rows: seq<EventRow>, groups: map<Signature, seq<EventRow>>) {
    && (forall row :: row in rows ==> SignatureOf(row) in groups && row in groups[SignatureOf(row)])
    && (forall sig, row :: sig in groups && row in groups[sig] ==> row in rows && SignatureOf(row) == sig)
  }

  method GroupBySignature(rows: seq<EventRow>) returns (groups: map<Signature, seq<EventRow>>)
    ensures Grouped(rows, groups)
  {
    groups := map[];
    for i := 0 to |rows|
      invariant Grouped(rows[..i], groups)
    {
      var sig := SignatureOf(rows[i]);
      var before := if sig in groups then groups[sig] else [];
      assert rows[..i + 1] == rows[..i] + [rows[i]];
      groups := groups[sig := before + [rows[i]]];
    }
    assert rows[..|rows|] == rows;
  }

  lemma InsertedIsAll<K, V>(key: V -> K, table: map<K, V>, rows: seq<V>, result: map<K, V>)
    requires InsertedInto(key, table, rows, result)
    ensures DistinctKeys(key, rows) ==> result == InsertAll(key, table, rows)
  {
    if DistinctKeys(key, rows) {
      InsertAllContents(key, table, rows);
      InsertionIsUnique(key, table, rows, result, InsertAll(key, table, rows));
    }
  }

  /** Inserts one more group in chunks. */
  method InsertMore<K, V>(table: Table<K, V>, group: seq<V>, chunk: nat, ghost before: map<K, V>, ghost done: seq<V>)
    returns (added: nat, widest: nat)
    requires chunk >= 1 && InsertedInto(table.key, before, done, table.rows)
    modifies table`rows
    ensures InsertedInto(table.key, before, done + group, table.rows)
    ensures |table.rows| == |old(table.rows)| + added
    ensures widest <= chunk && widest <= |group|
  {
    ghost var mid := table.rows;
    added, widest := table.InsertChunks(group, chunk);
    InsertAllContents(table.key, mid, group);
    InsertionsCompose(table.key, before, done, mid, group, table.rows);
  }

  /** Columns every typed row has; `receipts` has no `idx`. */
  function ColumnsOf(hasIdx: bool): seq<string> {
    ["chain_id", "height", "block_hash", "block_time", "tx_id"] + if hasIdx then ["idx"] else []
  }

  function MetaCols(hasIdx: bool): nat {
    |ColumnsOf(hasIdx)|
  }

  /** Each row alone stays under the bind cap. */
  predicate RowsFit(rows: seq<EventRow>, hasIdx: bool) {
    forall row :: row in rows ==> MetaCols(hasIdx) + |row.fields| <= BIND_CAP
  }

  /** Parameters one row binds: chain, height, block hash and transaction, the time unless it is null, the
      index where the table has one, and its fields. */
  function RowBinds(row: EventRow, hasIdx: bool): nat {
    4 + (if row.blockTime.Some? then 1 else 0) + (if hasIdx then 1 else 0) + |row.fields|
  }

  function StatementBinds(part: seq<EventRow>, hasIdx: bool): nat {
    if part == [] then 0 else StatementBinds(part[..|part| - 1], hasIdx) + RowBinds(part[|part| - 1], hasIdx)
  }

  lemma {:induction false} BindsPerColumn(part: seq<EventRow>, hasIdx: bool, fields: nat)
    requires forall row :: row in part ==> |row.fields| == fields
    ensures StatementBinds(part, hasIdx) <= |part| * (MetaCols(hasIdx) + fields)
  {
    if part != [] {
      var front, cols := part[..|part| - 1], MetaCols(hasIdx) + fields;
      BindsPerColumn(front, hasIdx, fields);
      assert RowBinds(part[|part| - 1], hasIdx) <= cols;
      assert |part| * cols == |front| * cols + cols;
    }
  }

  /** A chunk of rows with the same columns never binds more than the database takes, unless one row does. */
  lemma ChunkStaysUnderCap(part: seq<EventRow>, hasIdx: bool, fields: nat)
    requires forall row :: row in part ==> |row.fields| == fields
    requires |part| <= ChunkRows(MetaCols(hasIdx) + fields) && MetaCols(hasIdx) + fields <= BIND_CAP
    ensures StatementBinds(part, hasIdx) <= BIND_CAP
  {
    BindsPerColumn(part, hasIdx, fields);
    MulMonotone(|part|, ChunkRows(MetaCols(hasIdx) + fields), MetaCols(hasIdx) + fields);
  }

  /** Writes a batch grouped by column signature, groups in some order, each in chunks under the
      bind cap. The keys added and the count never depend on grouping or chunking; with distinct
      keys the whole table is that of row-by-row insertion. `hasIdx` adds the `idx` column. */
  method UpsertBatch<K>(table: Table<K, EventRow>, rows: seq<EventRow>, hasIdx: bool)
    returns (added: nat, binds: nat)
    modifies table`rows
    ensures InsertedInto(table.key, old(table.rows), rows, table.rows)
    ensures |table.rows| == |old(table.rows)| + added
    ensures DistinctKeys(table.key, rows) ==> table.rows == InsertAll(table.key, old(table.rows), rows)
    ensures RowsFit(rows, hasIdx) ==> binds <= BIND_CAP
  {
    var groups := GroupBySignature(rows);
    added, binds := 0, 0;
    var todo := groups.Keys;
    ghost var done: seq<EventRow> := [];
    while todo != {}
      invariant todo <= groups.Keys
      invariant InsertedInto(table.key, old(table.rows), done, table.rows)
      invariant |table.rows| == |old(table.rows)| + added
      invariant forall row :: row in done ==> row in rows
      invariant forall row :: row in rows && SignatureOf(row) !in todo ==> row in done
      invariant RowsFit(rows, hasIdx) ==> binds <= BIND_CAP
      decreases todo
    {
      var sig :| sig in todo;
      var group := groups[sig];
      var cols := MetaCols(hasIdx) + |sig|;
      var n, widest := InsertMore(table, group, ChunkRows(cols), old(table.rows), done);
      StatementFits(rows, hasIdx, groups, sig, cols, widest);
      added := added + n;
      binds := if widest * cols > binds then widest * cols else binds;
      done := done + group;
      todo := todo - {sig};
    }
    InsertedIsAll(table.key, old(table.rows), rows, table.rows);
  }

  lemma StatementFits(
    rows: seq<EventRow>, hasIdx: bool, groups: map<Signature, seq<EventRow>>, sig: Signature, cols: nat, widest: nat)
    requires Grouped(rows, groups) && sig in groups && cols == MetaCols(hasIdx) + |sig|
    requires widest <= |groups[sig]| && widest <= ChunkRows(cols)
    ensures RowsFit(rows, hasIdx) ==> widest * cols <= BIND_CAP
  {
    if widest > 0 && RowsFit(rows, hasIdx) {
      var row := groups[sig][0];
      assert row in groups[sig] && SignatureOf(row) == sig;
      MulMonotone(widest, ChunkRows(cols), cols);
    }
  }
}
