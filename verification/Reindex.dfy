/** A reorg from end to end: the rollback, the re-ingest of the new chain and the drain of the queue
    leave the tables a fresh index of the new chain would have. */
module Reindex {
  import opened Model
  import opened Queue
  import opened Chain
  import opened Drive
  import opened Reorg
  import opened Decode
  import opened Indexer
  import opened Delivery

  /** The worlds are the same but for the heights of `c` above `fork`. */
  ghost predicate SameUpTo(w: World, v: World, c: nat, fork: nat) {
    forall d: nat, h: nat :: (d != c || h <= fork) ==> w(d, h) == v(d, h)
  }

  ghost predicate OthersSame(w: World, v: World, c: nat) {
    forall d: nat, h: nat :: d != c ==> w(d, h) == v(d, h)
  }

  ghost predicate Kept(c: nat, from: nat, d: nat, h: nat) {
    d != c || h < from
  }

  /** The tables listed for a rollback are all the tables that hold rows of the chain. */
  ghost predicate Lists(tables: set<string>, db: Db, c: nat) {
    forall k :: k in db.typed && db.typed[k].chain == c ==> db.typed[k].table in tables
  }

  /** What is still queued for the chain lies between the two heights. */
  ghost predicate QueuedWithin(q: QueueTable, c: nat, lo: nat, hi: nat) {
    forall id :: id in q.rows && q.rows[id].item.chain == c ==> lo <= q.rows[id].item.from && q.rows[id].item.to <= hi
  }

  // ---------------------------------------------------------------- what a rollback keeps

  lemma CoverStays(byTx: Schema, w: World, db: Db, c: nat, from: nat, tables: set<string>, d: nat, h: nat)
    requires WellFormed(w) && SchemaOk(byTx) && Canonical(byTx, db, w) && Kept(c, from, d, h) && Covers(byTx, db, w, d, h)
    ensures Covers(byTx, RolledBack(db, c, from, tables), w, d, h)
  {
    if d == c {
      RollbackKeepsCover(byTx, db, w, c, from, tables, h);
    } else {
      assert BlockOk(w(d, h), d, h);
    }
  }

  lemma RolledBackIsBelow(byTx: Schema, db: Db, w: World, c: nat, from: nat, tables: set<string>)
    requires Canonical(byTx, db, w)
    requires Lists(tables, db, c)
    ensures var db' := RolledBack(db, c, from, tables);
            && (forall k :: k in db'.raw ==> k in db.raw && db'.raw[k] == db.raw[k] && Kept(c, from, k.chain, k.height))
            && (forall k :: k in db'.blocks ==> k in db.blocks && db'.blocks[k] == db.blocks[k] && Kept(c, from, k.chain, k.height))
            && (forall k :: k in db'.typed ==>
                  k in db.typed && db'.typed[k] == db.typed[k] && Kept(c, from, db.typed[k].chain, db.typed[k].height))
  {
  }

  /** Part of a canonical database is canonical for any world that agrees where it has rows. */
  lemma PartIsCanonical(byTx: Schema, w: World, v: World, db: Db, part: Db)
    requires Canonical(byTx, db, w)
    requires forall k :: k in part.raw ==> k in db.raw && part.raw[k] == db.raw[k] && w(k.chain, k.height) == v(k.chain, k.height)
    requires forall k :: k in part.blocks ==> k in db.blocks && part.blocks[k] == db.blocks[k] && w(k.chain, k.height) == v(k.chain, k.height)
    requires forall k :: k in part.typed ==>
               && k in db.typed && part.typed[k] == db.typed[k]
               && w(part.typed[k].chain, part.typed[k].height) == v(part.typed[k].chain, part.typed[k].height)
    ensures Canonical(byTx, part, v)
  {
  }

  /** What the rollback leaves is as canonical for the new world as it was for the old one. */
  lemma RollbackCanonicalInNew(byTx: Schema, w: World, v: World, db: Db, c: nat, fork: nat, tables: set<string>)
    requires Canonical(byTx, db, w) && SameUpTo(w, v, c, fork)
    requires Lists(tables, db, c)
    ensures Canonical(byTx, RolledBack(db, c, fork + 1, tables), v)
  {
    RolledBackIsBelow(byTx, db, w, c, fork + 1, tables);
    PartIsCanonical(byTx, w, v, db, RolledBack(db, c, fork + 1, tables));
  }

  lemma ExpectedAgrees(byTx: Schema, w: World, v: World, d: Decoder, x: EventRow)
    requires WellFormed(w) && w(x.chain, x.height) == v(x.chain, x.height)
    ensures Expected(w, d, x) <==> Expected(v, d, x)
  {
  }

  lemma RowsFromAgrees(w: World, v: World, d: Decoder, r: RawRecord)
    requires w(r.chain, r.height) == v(r.chain, r.height)
    ensures RowsFrom(w, d, r) == RowsFrom(v, d, r) && (Undecodable(w, d, r) <==> Undecodable(v, d, r))
  {
  }

  lemma RollbackCoverInNew(byTx: Schema, w: World, v: World, db: Db, c: nat, fork: nat, tables: set<string>, d: nat, h: nat)
    requires WellFormed(w) && SchemaOk(byTx) && Canonical(byTx, db, w) && SameUpTo(w, v, c, fork)
    requires Kept(c, fork + 1, d, h) && Covers(byTx, db, w, d, h)
    ensures Covers(byTx, RolledBack(db, c, fork + 1, tables), v, d, h)
  {
    CoverStays(byTx, w, db, c, fork + 1, tables, d, h);
    assert w(d, h) == v(d, h);
  }

  lemma RollbackAuxCovered(byTx: Schema, w: World, v: World, db: Db, c: nat, fork: nat, tables: set<string>, db': Db)
    requires WellFormed(w) && SchemaOk(byTx) && Canonical(byTx, db, w) && AuxCovered(byTx, w, db) && SameUpTo(w, v, c, fork)
    requires Lists(tables, db, c) && db' == RolledBack(db, c, fork + 1, tables)
    ensures AuxCovered(byTx, v, db')
  {
    RolledBackIsBelow(byTx, db, w, c, fork + 1, tables);
    forall k | k in db'.typed && IsAux(db'.typed[k].table)
      ensures Covers(byTx, db', v, db'.typed[k].chain, db'.typed[k].height)
    {
      RollbackCoverInNew(byTx, w, v, db, c, fork, tables, db.typed[k].chain, db.typed[k].height);
    }
  }

  lemma RollbackDbInNew(byTx: Schema, ds: Decoders, w: World, v: World, db: Db, c: nat, fork: nat, tables: set<string>, db': Db)
    requires WellFormed(w) && SchemaOk(byTx) && DbOk(byTx, ds, w, db) && SameUpTo(w, v, c, fork)
    requires Lists(tables, db, c)
    requires db' == RolledBack(db, c, fork + 1, tables)
    ensures DbOk(byTx, ds, v, db')
  {
    RollbackCanonicalInNew(byTx, w, v, db, c, fork, tables);
    RolledBackIsBelow(byTx, db, w, c, fork + 1, tables);
    forall k | k in db'.raw
      ensures Covers(byTx, db', v, k.chain, k.height)
    {
      RollbackCoverInNew(byTx, w, v, db, c, fork, tables, k.chain, k.height);
    }
    RollbackAuxCovered(byTx, w, v, db, c, fork, tables, db');
    forall k | k in db'.typed && !IsAux(db'.typed[k].table)
      ensures RowSound(byTx, ds, v, db', db'.typed[k])
    {
      var x := db.typed[k];
      assert RowSound(byTx, ds, w, db, x);
      RollbackCoverInNew(byTx, w, v, db, c, fork, tables, x.chain, x.height);
      ExpectedAgrees(byTx, w, v, ds[x.chain], x);
    }
  }

  lemma StoredStays(byTx: Schema, w: World, db: Db, c: nat, from: nat, tables: set<string>, x: EventRow)
    requires WellFormed(w) && SchemaOk(byTx) && Canonical(byTx, db, w) && Kept(c, from, x.chain, x.height)
    requires !IsAux(x.table) && Stored(byTx, db.typed, x)
    ensures Stored(byTx, RolledBack(db, c, from, tables).typed, x)
  {
  }

  lemma DoneStays(byTx: Schema, ds: Decoders, w: World, v: World, db: Db, c: nat, fork: nat, tables: set<string>, r: RawRecord)
    requires Setup(byTx, ds, w) && Canonical(byTx, db, w) && SameUpTo(w, v, c, fork)
    requires Kept(c, fork + 1, r.chain, r.height) && Done(byTx, ds, w, db.typed, r)
    ensures Done(byTx, ds, v, RolledBack(db, c, fork + 1, tables).typed, r)
  {
    if r.chain in ds {
      var d := ds[r.chain];
      RowsFromAgrees(w, v, d, r);
      forall x | x in RowsFrom(v, d, r)
        ensures Stored(byTx, RolledBack(db, c, fork + 1, tables).typed, x)
      {
        RowsFromRecord(byTx, w, d, r, x);
        StoredStays(byTx, w, db, c, fork + 1, tables, x);
      }
    }
  }

  lemma RollbackLosesNothing(byTx: Schema, ds: Decoders, w: World, v: World, db: Db, c: nat, fork: nat, tables: set<string>, db': Db)
    requires Setup(byTx, ds, w) && Canonical(byTx, db, w) && SameUpTo(w, v, c, fork) && NothingLost(byTx, ds, w, db)
    requires Lists(tables, db, c)
    requires db' == RolledBack(db, c, fork + 1, tables)
    ensures NothingLost(byTx, ds, v, db')
  {
    RolledBackIsBelow(byTx, db, w, c, fork + 1, tables);
    forall k | k in db'.raw && Done(byTx, ds, w, db.typed, db.raw[k])
      ensures Done(byTx, ds, v, db'.typed, db'.raw[k])
    {
      assert db.raw[k].Pos() == k;
      DoneStays(byTx, ds, w, v, db, c, fork, tables, db.raw[k]);
    }
  }

  lemma ItemCoverInNew(byTx: Schema, w: World, v: World, db: Db, c: nat, fork: nat, tables: set<string>, d: nat, lo: nat, hi: nat)
    requires WellFormed(w) && SchemaOk(byTx) && Canonical(byTx, db, w) && SameUpTo(w, v, c, fork)
    requires AllCovered(byTx, db, w, d, lo, hi) && (d == c ==> hi <= fork)
    ensures AllCovered(byTx, RolledBack(db, c, fork + 1, tables), v, d, lo, hi)
  {
    var db' := RolledBack(db, c, fork + 1, tables);
    forall h: nat | lo <= h <= hi
      ensures Covers(byTx, db', v, d, h)
    {
      RollbackCoverInNew(byTx, w, v, db, c, fork, tables, d, h);
    }
  }

  lemma RollbackQueueInNew(byTx: Schema, w: World, v: World, db: Db, c: nat, fork: nat, tables: set<string>, db': Db)
    requires WellFormed(w) && SchemaOk(byTx) && Canonical(byTx, db, w) && SameUpTo(w, v, c, fork) && QueueOk(byTx, w, {}, db)
    requires db' == RolledBack(db, c, fork + 1, tables)
    ensures QueueOk(byTx, v, {c}, db')
  {
    forall id | id in db.queue.rows && db.queue.rows[id].item.chain != c
      ensures var item := db.queue.rows[id].item;
              AllCovered(byTx, db', v, item.chain, item.from, item.to)
    {
      var item := db.queue.rows[id].item;
      ItemCoverInNew(byTx, w, v, db, c, fork, tables, item.chain, item.from, item.to);
    }
  }

  /** No worker is busy with an item of the chain. */
  ghost predicate NobodyOn(s: State, c: nat) {
    forall wk :: wk in s.workers && !s.workers[wk].Idle? ==> s.workers[wk].lease.item.chain != c
  }

  lemma ExpectedInAgrees(byTx: Schema, w: World, v: World, c: nat, fork: nat, d: Decoder, item: WorkItem, x: EventRow)
    requires WellFormed(w) && SameUpTo(w, v, c, fork) && item.chain != c
    ensures ExpectedIn(w, d, item, x) <==> ExpectedIn(v, d, item, x)
  {
  }

  lemma WritingInNew(byTx: Schema, w: World, v: World, db: Db, c: nat, fork: nat, tables: set<string>, d: Decoder, item: WorkItem, rows: set<EventRow>)
    requires WellFormed(w) && SchemaOk(byTx) && DecoderOk(byTx, d) && Canonical(byTx, db, w)
    requires SameUpTo(w, v, c, fork) && item.chain != c && WritingOk(byTx, w, d, db.typed, item, rows)
    ensures WritingOk(byTx, v, d, RolledBack(db, c, fork + 1, tables).typed, item, rows)
  {
    forall x
      ensures ExpectedIn(w, d, item, x) <==> ExpectedIn(v, d, item, x)
    {
      ExpectedInAgrees(byTx, w, v, c, fork, d, item, x);
    }
    forall x | ExpectedIn(w, d, item, x) && Stored(byTx, db.typed, x)
      ensures Stored(byTx, RolledBack(db, c, fork + 1, tables).typed, x)
    {
      ExpectedIsNotAux(byTx, w, d, x);
      StoredStays(byTx, w, db, c, fork + 1, tables, x);
    }
    forall r: RawRecord | InItem(item, r.chain, r.height) && r in v(r.chain, r.height).logs
      ensures !Undecodable(v, d, r)
    {
      assert w(r.chain, r.height) == v(r.chain, r.height);
      RowsFromAgrees(w, v, d, r);
    }
  }

  lemma WorkerInNew(byTx: Schema, ds: Decoders, w: World, v: World, db: Db, c: nat, fork: nat, tables: set<string>, me: Worker)
    requires Setup(byTx, ds, w) && Canonical(byTx, db, w) && SameUpTo(w, v, c, fork)
    requires !me.Idle? && me.lease.item.chain != c && WorkerOk(byTx, ds, w, {}, db, me)
    ensures WorkerOk(byTx, ds, v, {c}, RolledBack(db, c, fork + 1, tables), me)
  {
    var item := me.lease.item;
    if item.chain in ds {
      ItemCoverInNew(byTx, w, v, db, c, fork, tables, item.chain, item.from, item.to);
      if me.Writing? {
        WritingInNew(byTx, w, v, db, c, fork, tables, ds[item.chain], item, me.rows);
      }
    }
  }

  /** A rollback with nobody on the chain takes a sound state of the old world to a sound state of
      the new one, except that the chain's queued ranges may now be missing: until they are
      committed again, nobody may lease them. */
  lemma RollbackIntoNew(byTx: Schema, ds: Decoders, w: World, v: World, s: State, c: nat, fork: nat, tables: set<string>, db': Db)
    requires Setup(byTx, ds, w) && Delivery.Inv(byTx, ds, w, {}, s) && SameUpTo(w, v, c, fork) && NobodyOn(s, c)
    requires Lists(tables, s.db, c)
    requires db' == RolledBack(s.db, c, fork + 1, tables)
    ensures Delivery.Inv(byTx, ds, v, {c}, State(db', s.workers))
  {
    RollbackDbInNew(byTx, ds, w, v, s.db, c, fork, tables, db');
    RollbackQueueInNew(byTx, w, v, s.db, c, fork, tables, db');
    RollbackLosesNothing(byTx, ds, w, v, s.db, c, fork, tables, db');
    forall wk | wk in s.workers
      ensures WorkerOk(byTx, ds, v, {c}, db', s.workers[wk])
    {
      if !s.workers[wk].Idle? {
        WorkerInNew(byTx, ds, w, v, s.db, c, fork, tables, s.workers[wk]);
      }
    }
  }

  // ---------------------------------------------------------------- re-ingest

  /** Once the chain's queued ranges are all committed again it may be opened to workers. */
  lemma Reopen(byTx: Schema, ds: Decoders, v: World, c: nat, s: State)
    requires Delivery.Inv(byTx, ds, v, {c}, s)
    requires forall id :: id in s.db.queue.rows && s.db.queue.rows[id].item.chain == c ==>
               AllCovered(byTx, s.db, v, c, s.db.queue.rows[id].item.from, s.db.queue.rows[id].item.to)
    ensures Delivery.Inv(byTx, ds, v, {}, s)
  {
  }

  lemma StepGrows(byTx: Schema, ds: Decoders, v: World, closed: set<nat>, s: State, step: Step)
    requires Setup(byTx, ds, v) && Delivery.Inv(byTx, ds, v, closed, s) && Delivery.StepOk(byTx, closed, s, step)
    ensures Grows(s.db, Indexer.Next(byTx, ds, v, s, step).db)
  {
    match step {
      case Commit(c, lo, hi) => CommitCanonical(byTx, s.db, v, c, lo, hi);
      case SetCursor(_, _) =>
      case Pull(_, _, _) =>
      case ReadRaw(_) =>
      case ReadTimes(_) =>
      case ReadCalls(_) =>
      case Write(_, _, _) =>
      case Ack(_) =>
      case Reclaim(_, _) =>
      case Crash(_) =>
    }
  }

  lemma NextKeepsCover(byTx: Schema, ds: Decoders, v: World, closed: set<nat>, s: State, step: Step, s': State, c: nat, lo: nat, hi: int)
    requires Setup(byTx, ds, v) && Delivery.Inv(byTx, ds, v, closed, s) && Delivery.Leads(byTx, ds, v, closed, s, step, s')
    requires AllCovered(byTx, s.db, v, c, lo, hi)
    ensures AllCovered(byTx, s'.db, v, c, lo, hi)
  {
    Delivery.NextKeeps(byTx, ds, v, closed, s, step, s');
    StepGrows(byTx, ds, v, closed, s, step);
    CoverageGrows(byTx, s.db, s'.db, v, c, lo, hi);
  }

  lemma RunStepKeepsCover(
    byTx: Schema, ds: Decoders, v: World, closed: set<nat>, states: seq<State>, steps: seq<Step>, j: nat, k: nat, c: nat, lo: nat, hi: int)
    requires Setup(byTx, ds, v) && IndexRun(byTx, ds, v, closed, states, steps) && j + 1 == k <= |steps|
    requires Delivery.Inv(byTx, ds, v, closed, states[j]) && AllCovered(byTx, states[j].db, v, c, lo, hi)
    ensures AllCovered(byTx, states[k].db, v, c, lo, hi)
  {
    NextKeepsCover(byTx, ds, v, closed, states[j], steps[j], states[k], c, lo, hi);
  }

  /** A run uncovers nothing. */
  lemma RunKeepsCover(
    byTx: Schema, ds: Decoders, v: World, closed: set<nat>, states: seq<State>, steps: seq<Step>, k: nat, c: nat, lo: nat, hi: int)
    requires Setup(byTx, ds, v) && IndexRun(byTx, ds, v, closed, states, steps) && k <= |steps|
    requires Delivery.Inv(byTx, ds, v, closed, states[0]) && AllCovered(byTx, states[0].db, v, c, lo, hi)
    ensures AllCovered(byTx, states[k].db, v, c, lo, hi)
  {
    var holds := (s: State) => AllCovered(byTx, s.db, v, c, lo, hi);
    forall i, j | 0 <= i && j == i + 1 && j < |states| && holds(states[i])
      ensures holds(states[j])
    {
      RunKeeps(byTx, ds, v, closed, states, steps, i);
      RunStepKeepsCover(byTx, ds, v, closed, states, steps, i, j, c, lo, hi);
    }
    AllAlong(holds, states, k);
  }

  // ---------------------------------------------------------------- the same tables

  /** The two databases hold the same rows of the chain at this height. */
  ghost predicate AgreeAt(a: Db, b: Db, c: nat, h: nat) {
    && (forall k: Position :: k.chain == c && k.height == h ==>
          (k in a.raw <==> k in b.raw) && (k in a.raw ==> a.raw[k] == b.raw[k]))
    && (forall k :: k == BlockAt(c, h) ==>
          (k in a.blocks <==> k in b.blocks) && (k in a.blocks ==> a.blocks[k] == b.blocks[k]))
    && (forall k :: k in a.typed && a.typed[k].chain == c && a.typed[k].height == h ==> k in b.typed && b.typed[k] == a.typed[k])
    && (forall k :: k in b.typed && b.typed[k].chain == c && b.typed[k].height == h ==> k in a.typed && a.typed[k] == b.typed[k])
  }

  /** A drained database holds every row a drained database covering the same height holds. */
  lemma DrainedRow(byTx: Schema, ds: Decoders, v: World, a: State, b: State, c: nat, h: nat, k: RowKey)
    requires Setup(byTx, ds, v) && Delivery.Inv(byTx, ds, v, {}, a) && Delivery.Inv(byTx, ds, v, {}, b) && c in ds
    requires Drained(a.db, c) && Drained(b.db, c) && Covers(byTx, b.db, v, c, h)
    requires k in a.db.typed && a.db.typed[k].chain == c && a.db.typed[k].height == h
    ensures k in b.db.typed && b.db.typed[k] == a.db.typed[k]
  {
    var x := a.db.typed[k];
    assert KeyIn(byTx, x) == k;
    if IsAux(x.table) {
      assert x in v(c, h).aux;
    } else {
      assert Stored(byTx, a.db.typed, x);
      DrainedIsExact(byTx, ds, v, {}, a, c, x);
      DrainedIsExact(byTx, ds, v, {}, b, c, x);
    }
  }

  lemma CoveredRaw(byTx: Schema, v: World, a: Db, b: Db, k: Position)
    requires WellFormed(v) && CanonicalRaw(a.raw, v) && Covers(byTx, b, v, k.chain, k.height) && k in a.raw
    ensures k in b.raw && b.raw[k] == a.raw[k]
  {
  }

  /** Whatever their histories, two drained databases agree at every height both cover. */
  lemma DrainedDatabasesAgree(byTx: Schema, ds: Decoders, v: World, a: State, b: State, c: nat, h: nat)
    requires Setup(byTx, ds, v) && Delivery.Inv(byTx, ds, v, {}, a) && Delivery.Inv(byTx, ds, v, {}, b) && c in ds
    requires Drained(a.db, c) && Drained(b.db, c) && Covers(byTx, a.db, v, c, h) && Covers(byTx, b.db, v, c, h)
    ensures AgreeAt(a.db, b.db, c, h)
  {
    forall k: Position | k.chain == c && k.height == h
      ensures k in a.db.raw ==> k in b.db.raw && b.db.raw[k] == a.db.raw[k]
      ensures k in b.db.raw ==> k in a.db.raw
    {
      if k in a.db.raw {
        CoveredRaw(byTx, v, a.db, b.db, k);
      }
      if k in b.db.raw {
        CoveredRaw(byTx, v, b.db, a.db, k);
      }
    }
    forall k | k in a.db.typed && a.db.typed[k].chain == c && a.db.typed[k].height == h
      ensures k in b.db.typed && b.db.typed[k] == a.db.typed[k]
    {
      DrainedRow(byTx, ds, v, a, b, c, h, k);
    }
    forall k | k in b.db.typed && b.db.typed[k].chain == c && b.db.typed[k].height == h
      ensures k in a.db.typed && a.db.typed[k] == b.db.typed[k]
    {
      DrainedRow(byTx, ds, v, b, a, c, h, k);
    }
  }

  // ---------------------------------------------------------------- end to end

  lemma SameBelowFork(w: World, v: World, c: nat, fork: nat)
    requires Linked(w, c) && Linked(v, c) && HashesBind(w, v, c)
    requires w(c, fork).meta.hash == v(c, fork).meta.hash
    requires OthersSame(w, v, c)
    ensures SameUpTo(w, v, c, fork)
  {
    forall h: nat | h <= fork
      ensures w(c, h) == v(c, h)
    {
      AgreementGoesDown(w, v, c, fork, h);
    }
  }

  /** The check that fires is a rollback to the fork. */
  lemma FiredCheck(db: Db, v: World, c: nat, confirmations: nat, tables: set<string>, tip: nat, db': Db)
    requires Mismatch(db, c, tip, Some(v(c, tip).meta.hash))
    requires db' == Checked(db, c, confirmations, true, Some(v(c, tip).meta.hash), tables).0
    ensures db' == RolledBack(db, c, ForkOf(tip, confirmations) + 1, tables)
  {
    assert forall t :: Mismatch(db, c, t, Some(v(c, tip).meta.hash)) ==> t == tip;
  }

  /** The re-ingest ends with everything from the start block to `target` covered, and the chain may
      be opened to workers again. */
  lemma ReingestSettles(
    byTx: Schema, ds: Decoders, w: World, v: World, c: nat, fork: nat, tables: set<string>, start: nat, target: nat,
    s: State, states: seq<State>, steps: seq<Step>)
    requires Setup(byTx, ds, w) && Setup(byTx, ds, v) && Delivery.Inv(byTx, ds, w, {}, s) && SameUpTo(w, v, c, fork)
    requires NobodyOn(s, c) && AllCovered(byTx, s.db, w, c, start, fork)
    requires Lists(tables, s.db, c)
    requires IndexRun(byTx, ds, v, {c}, states, steps)
    requires states[0].db == RolledBack(s.db, c, fork + 1, tables) && states[0].workers == s.workers
    requires AllCovered(byTx, states[|steps|].db, v, c, fork + 1, target)
    requires QueuedWithin(states[|steps|].db.queue, c, start, target)
    ensures Delivery.Inv(byTx, ds, v, {}, states[|steps|])
    ensures AllCovered(byTx, states[|steps|].db, v, c, start, target)
  {
    var n := |steps|;
    RollbackIntoNew(byTx, ds, w, v, s, c, fork, tables, states[0].db);
    ItemCoverInNew(byTx, w, v, s.db, c, fork, tables, c, start, fork);
    RunKeeps(byTx, ds, v, {c}, states, steps, n);
    RunKeepsCover(byTx, ds, v, {c}, states, steps, n, c, start, fork);
    Reopen(byTx, ds, v, c, states[n]);
  }

  lemma CoverShrinks(byTx: Schema, db: Db, w: World, c: nat, lo: nat, hi: int, top: int)
    requires AllCovered(byTx, db, w, c, lo, top) && hi <= top
    ensures AllCovered(byTx, db, w, c, lo, hi)
  {
  }

  /** A reorg the probe sees, no deeper than the confirmations: the rollback goes to a height up to
      which the chains agree and everything is committed. */
  lemma ReorgRollsBack(
    byTx: Schema, db: Db, w: World, v: World, c: nat, confirmations: nat, tables: set<string>, tip: nat, fork: nat, start: nat, db': Db)
    requires fork == ForkOf(tip, confirmations)
    requires Linked(w, c) && Linked(v, c) && HashesBind(w, v, c) && OthersSame(w, v, c)
    requires Mismatch(db, c, tip, Some(v(c, tip).meta.hash))
    requires w(c, fork).meta.hash == v(c, fork).meta.hash
    requires c in db.cursors && db.cursors[c].height >= fork
    requires AllCovered(byTx, db, w, c, start, db.cursors[c].height)
    requires db' == Checked(db, c, confirmations, true, Some(v(c, tip).meta.hash), tables).0
    ensures SameUpTo(w, v, c, fork)
    ensures db' == RolledBack(db, c, fork + 1, tables)
    ensures AllCovered(byTx, db, w, c, start, fork)
  {
    SameBelowFork(w, v, c, fork);
    FiredCheck(db, v, c, confirmations, tables, tip, db');
    CoverShrinks(byTx, db, w, c, start, fork, db.cursors[c].height);
  }

  /** An expected row carries the hash of its block. */
  lemma ExpectedHash(byTx: Schema, w: World, d: Decoder, x: EventRow)
    requires WellFormed(w) && DecoderOk(byTx, d) && Expected(w, d, x)
    ensures x.blockHash == w(x.chain, x.height).meta.hash && w(x.chain, x.height).logs != []
  {
    var r :| r in w(x.chain, x.height).logs && x in RowsFrom(w, d, r);
    assert BlockOk(w(x.chain, x.height), x.chain, x.height);
  }

  lemma TypedRowIsIndexed(byTx: Schema, ds: Decoders, w: World, db: Db, k: RowKey)
    requires Setup(byTx, ds, w) && DbOk(byTx, ds, w, db) && k in db.typed
    ensures db.typed[k].blockHash == w(db.typed[k].chain, db.typed[k].height).meta.hash
    ensures BlockAt(db.typed[k].chain, db.typed[k].height) in db.blocks
  {
    var x := db.typed[k];
    if IsAux(x.table) {
      assert BlockOk(w(x.chain, x.height), x.chain, x.height);
    } else {
      assert RowSound(byTx, ds, w, db, x);
      ExpectedHash(byTx, w, ds[x.chain], x);
    }
  }

  /** What a sound state stores of a chain was indexed from its world, as the probe's lemmas need it. */
  lemma SoundIsIndexed(byTx: Schema, ds: Decoders, w: World, closed: set<nat>, s: State, c: nat, tables: set<string>)
    requires Setup(byTx, ds, w) && Delivery.Inv(byTx, ds, w, closed, s)
    ensures IndexedFrom(s.db, w, c, tables)
  {
    forall k | k in s.db.raw && k.chain == c
      ensures s.db.raw[k] in w(c, k.height).logs && s.db.raw[k].blockHash == w(c, k.height).meta.hash
      ensures BlockAt(c, k.height) in s.db.blocks
    {
      assert BlockOk(w(c, k.height), c, k.height);
      assert Covers(byTx, s.db, w, c, k.height);
    }
    forall k | k in s.db.typed && s.db.typed[k].chain == c
      ensures s.db.typed[k].blockHash == w(c, s.db.typed[k].height).meta.hash
      ensures BlockAt(c, s.db.typed[k].height) in s.db.blocks
    {
      TypedRowIsIndexed(byTx, ds, w, s.db, k);
    }
  }

  lemma ReceiptHasTx(byTx: Schema, w: World, db: Db, x: EventRow)
    requires WellFormed(w) && SchemaOk(byTx) && x in w(x.chain, x.height).aux && x.table == RECEIPTS
    requires Covers(byTx, db, w, x.chain, x.height)
    ensures OfTx(TRANSACTIONS, x.chain, x.txId) in db.typed
  {
    assert BlockOk(w(x.chain, x.height), x.chain, x.height);
    var t :| t in w(x.chain, x.height).aux && t.table == TRANSACTIONS && t.txId == x.txId;
    assert KeyIn(byTx, t) in db.typed;
  }

  /** No sound state has a receipt without its transaction, as the foreign key demands. */
  lemma SoundHasNoOrphans(byTx: Schema, ds: Decoders, w: World, closed: set<nat>, s: State)
    requires Setup(byTx, ds, w) && Delivery.Inv(byTx, ds, w, closed, s)
    ensures NoOrphans(s.db.typed)
  {
    forall k | k in s.db.typed && s.db.typed[k].table == RECEIPTS
      ensures OfTx(TRANSACTIONS, s.db.typed[k].chain, s.db.typed[k].txId) in s.db.typed
    {
      ReceiptHasTx(byTx, w, s.db, s.db.typed[k]);
    }
  }

  /** In every state of every run one probe is silent exactly when every stored block is canonical, and
      then every row is; when it fires and the chains agree at the fork, every row left is. */
  lemma ProbeDecidesInRuns(
    byTx: Schema, ds: Decoders, w: World, v: World, states: seq<State>, steps: seq<Step>, k: nat,
    c: nat, confirmations: nat, tables: set<string>, tip: nat, db: Db, db': Db, reindex: Option<nat>)
    requires Setup(byTx, ds, w) && IndexRun(byTx, ds, w, {}, states, steps) && states[0] == State(EMPTY_DB, map[]) && k <= |steps|
    requires Linked(w, c) && Linked(v, c) && HashesBind(w, v, c) && db == states[k].db && IsTip(db.blocks, c, tip)
    requires (db', reindex) == Checked(db, c, confirmations, true, Some(v(c, tip).meta.hash), tables)
    ensures reindex.None? <==> forall b :: b in db.blocks && b.chain == c ==> db.blocks[b] == v(c, b.height).meta
    ensures reindex.None? || w(c, ForkOf(tip, confirmations)).meta.hash == v(c, ForkOf(tip, confirmations)).meta.hash ==>
              ChainCanonical(db', v, c, tables)
  {
    RunKeeps(byTx, ds, w, {}, states, steps, k);
    SoundIsIndexed(byTx, ds, w, {}, states[k], c, tables);
    ProbeOutcome(db, w, v, c, confirmations, tables, tip, db', reindex);
  }

  // ---------------------------------------------------------------- why the chain must be closed

  ghost predicate LeftAlone(s: State, wk: nat, lease: Lease, at: int) {
    wk in s.workers && s.workers[wk] == HasRaw(lease, {}) && s.db.queue.rows == map[lease.id := QueueRow(lease.item, Some(at), lease.leaseSeq)]
  }

  lemma NothingToWrite(ds: Decoders, db: Db, lease: Lease, times: map<nat, int>)
    requires lease.item.chain in ds
    ensures AfterCalls(ds, db, HasTimes(lease, {}, times)) == Writing(lease, {})
  {
  }

  /** The rest of a worker's turn after it read no records: nothing to write, one row acked. */
  lemma BlindWorkerAcks(byTx: Schema, ds: Decoders, v: World, s: State, wk: nat, lease: Lease, at: int)
    requires LeftAlone(s, wk, lease, at) && lease.item.chain in ds
    ensures var s2 := Indexer.Next(byTx, ds, v, s, ReadTimes(wk));
            && WorkerOf(s2, wk).HasTimes?
            && var s3 := Indexer.Next(byTx, ds, v, s2, ReadCalls(wk));
               && Indexer.Enabled(byTx, s3, Step.Ack(wk))
               && var s4 := Indexer.Next(byTx, ds, v, s3, Step.Ack(wk));
                  s4.db.raw == s.db.raw && s4.db.typed == s.db.typed && s4.db.queue.rows == map[]
  {
    var s2 := Indexer.Next(byTx, ds, v, s, ReadTimes(wk));
    NothingToWrite(ds, s.db, lease, WorkerOf(s2, wk).times);
    var s3 := Indexer.Next(byTx, ds, v, s2, ReadCalls(wk));
    assert WorkerOf(s3, wk) == Writing(lease, {});
    assert s3.db == s.db;
    assert s.db.queue.rows - {lease.id} == map[];
  }

  /** Committing a range again while its item is leased stores the records and queues nothing. */
  lemma CommitUnderLease(byTx: Schema, v: World, s: State, wk: nat, lease: Lease, at: int, r: RawRecord, db': Db)
    requires WellFormed(v) && Canonical(byTx, s.db, v) && LeftAlone(s, wk, lease, at) && lease.item.kind == Backfill
    requires r in v(r.chain, r.height).logs && InItem(lease.item, r.chain, r.height)
    requires db' == Committed(byTx, s.db, lease.item.chain, Fetched(v, lease.item.chain, lease.item.from, lease.item.to))
    ensures LeftAlone(State(db', s.workers), wk, lease, at)
    ensures r.Pos() in db'.raw && db'.raw[r.Pos()] == r
  {
    var c, lo, hi := lease.item.chain, lease.item.from, lease.item.to;
    RawCoversAt(s.db.raw, v, c, lo, hi, r.height, r);
    CommitTables(byTx, s.db, v, c, lo, hi);
    CommitQueue(byTx, s.db, v, c, lo, hi);
    assert KeyOf(s.db.queue.rows[lease.id].item) == KeyOf(WorkItem(c, lo, hi, Backfill, 0));
  }

  lemma CommitDecodesNothing(byTx: Schema, ds: Decoders, v: World, db: Db, c: nat, lo: nat, hi: nat, r: RawRecord)
    requires Setup(byTx, ds, v) && Canonical(byTx, db, v) && r.chain in ds && ds[r.chain].decode(r).Row?
    requires KeyIn(byTx, ds[r.chain].decode(r).row) !in db.typed
    ensures !Done(byTx, ds, v, Committed(byTx, db, c, Fetched(v, c, lo, hi)).typed, r)
  {
    var typed' := Committed(byTx, db, c, Fetched(v, c, lo, hi)).typed;
    var row := ds[r.chain].decode(r).row;
    var x := Stamped(map[r.height := v(r.chain, r.height).meta.time], row);
    assert r in {r};
    assert x in RowsFrom(v, ds[r.chain], r);
    AuxCommitted(byTx, db.typed, v, c, lo, hi);
    CommitTables(byTx, db, v, c, lo, hi);
    assert !Stored(byTx, typed', x);
  }

  /** A worker that has read nothing of a range when it is committed loses the range: the commit's push
      finds the leased row and adds nothing, and the worker's ack removes it. */
  lemma BlindWorkerLosesRecords(byTx: Schema, ds: Decoders, v: World, s: State, wk: nat, lease: Lease, at: int, r: RawRecord)
    requires Setup(byTx, ds, v) && Canonical(byTx, s.db, v) && LeftAlone(s, wk, lease, at)
    requires lease.item.kind == Backfill && lease.item.chain in ds && r in v(r.chain, r.height).logs
    requires InItem(lease.item, r.chain, r.height) && ds[r.chain].decode(r).Row?
    requires KeyIn(byTx, ds[r.chain].decode(r).row) !in s.db.typed
    ensures var s1 := Indexer.Next(byTx, ds, v, s, Commit(lease.item.chain, lease.item.from, lease.item.to));
            && WorkerOf(s1, wk).HasRaw?
            && var s2 := Indexer.Next(byTx, ds, v, s1, ReadTimes(wk));
               && WorkerOf(s2, wk).HasTimes?
               && var s3 := Indexer.Next(byTx, ds, v, s2, ReadCalls(wk));
                  && Indexer.Enabled(byTx, s3, Step.Ack(wk))
                  && var s4 := Indexer.Next(byTx, ds, v, s3, Step.Ack(wk));
                     r.Pos() in s4.db.raw && s4.db.raw[r.Pos()] == r && s4.db.queue.rows == map[] &&
                     !Done(byTx, ds, v, s4.db.typed, r)
  {
    var s1 := Indexer.Next(byTx, ds, v, s, Commit(lease.item.chain, lease.item.from, lease.item.to));
    CommitUnderLease(byTx, v, s, wk, lease, at, r, s1.db);
    CommitDecodesNothing(byTx, ds, v, s.db, lease.item.chain, lease.item.from, lease.item.to, r);
    BlindWorkerAcks(byTx, ds, v, s1, wk, lease, at);
  }

  /** What a rollback at or below the item's range leaves a lease holder to read: nothing, and no row
      decoded from it. */
  lemma RolledBackReadsNothing(byTx: Schema, d: Decoder, w: World, db: Db, c: nat, from: nat, tables: set<string>, item: WorkItem, r: RawRecord)
    requires SchemaOk(byTx) && DecoderOk(byTx, d) && Canonical(byTx, db, w) && Lists(tables, db, c)
    requires item.chain == c && item.from >= from && InItem(item, r.chain, r.height) && d.decode(r).Row?
    ensures RecordsIn(RolledBack(db, c, from, tables).raw, c, item.from, item.to) == {}
    ensures KeyIn(byTx, d.decode(r).row) !in RolledBack(db, c, from, tables).typed
  {
    RolledBackIsBelow(byTx, db, w, c, from, tables);
  }

  lemma BlindRead(byTx: Schema, ds: Decoders, v: World, s: State, wk: nat, lease: Lease)
    requires wk in s.workers && s.workers[wk] == Holding(lease)
    requires RecordsIn(s.db.raw, lease.item.chain, lease.item.from, lease.item.to) == {}
    ensures Indexer.Next(byTx, ds, v, s, ReadRaw(wk)) == s.(workers := s.workers[wk := HasRaw(lease, {})])
  {
  }

  lemma RollbackLeavesLeaseBlind(byTx: Schema, ds: Decoders, w: World, v: World, s: State, c: nat, fork: nat, tables: set<string>,
                                 wk: nat, lease: Lease, at: int, r: RawRecord, s1: State)
    requires Setup(byTx, ds, w) && Canonical(byTx, s.db, w) && SameUpTo(w, v, c, fork) && Lists(tables, s.db, c)
    requires wk in s.workers && s.workers[wk] == Holding(lease) && lease.item.chain == c && c in ds && fork < lease.item.from
    requires s.db.queue.rows == map[lease.id := QueueRow(lease.item, Some(at), lease.leaseSeq)]
    requires InItem(lease.item, r.chain, r.height) && ds[c].decode(r).Row?
    requires s1 == Indexer.Next(byTx, ds, v, State(RolledBack(s.db, c, fork + 1, tables), s.workers), ReadRaw(wk))
    ensures LeftAlone(s1, wk, lease, at) && Canonical(byTx, s1.db, v) && KeyIn(byTx, ds[c].decode(r).row) !in s1.db.typed
  {
    var db' := RolledBack(s.db, c, fork + 1, tables);
    RollbackCanonicalInNew(byTx, w, v, s.db, c, fork, tables);
    RolledBackReadsNothing(byTx, ds[c], w, s.db, c, fork + 1, tables, lease.item, r);
    BlindRead(byTx, ds, v, State(db', s.workers), wk, lease);
    assert db'.queue == s.db.queue;
  }

  /** A lease open across a rollback: the range is rolled back, its holder reads, the new chain's range
      is committed again, and the holder finishes. The new records are then neither decoded nor in the
      range of any queue row. */
  lemma OpenLeaseLosesRecords(byTx: Schema, ds: Decoders, w: World, v: World, s: State, c: nat, fork: nat, tables: set<string>,
                              wk: nat, lease: Lease, at: int, r: RawRecord)
    requires Setup(byTx, ds, w) && Setup(byTx, ds, v) && Delivery.Inv(byTx, ds, w, {}, s) && SameUpTo(w, v, c, fork) && Lists(tables, s.db, c)
    requires wk in s.workers && s.workers[wk] == Holding(lease) && lease.item.chain == c && c in ds && fork < lease.item.from
    requires s.db.queue.rows == map[lease.id := QueueRow(lease.item, Some(at), lease.leaseSeq)] && lease.item.kind == Backfill
    requires r in v(r.chain, r.height).logs && InItem(lease.item, r.chain, r.height) && ds[c].decode(r).Row?
    ensures var s0 := State(RolledBack(s.db, c, fork + 1, tables), s.workers);
            && WorkerOf(s0, wk).Holding?
            && var s1 := Indexer.Next(byTx, ds, v, s0, ReadRaw(wk));
               var s2 := Indexer.Next(byTx, ds, v, s1, Commit(c, lease.item.from, lease.item.to));
               && WorkerOf(s2, wk).HasRaw?
               && var s3 := Indexer.Next(byTx, ds, v, s2, ReadTimes(wk));
                  && WorkerOf(s3, wk).HasTimes?
                  && var s4 := Indexer.Next(byTx, ds, v, s3, ReadCalls(wk));
                     && Indexer.Enabled(byTx, s4, Step.Ack(wk))
                     && var s5 := Indexer.Next(byTx, ds, v, s4, Step.Ack(wk));
                        r.Pos() in s5.db.raw && s5.db.raw[r.Pos()] == r && s5.db.queue.rows == map[] &&
                        !Done(byTx, ds, v, s5.db.typed, r)
  {
    var s0 := State(RolledBack(s.db, c, fork + 1, tables), s.workers);
    var s1 := Indexer.Next(byTx, ds, v, s0, ReadRaw(wk));
    RollbackLeavesLeaseBlind(byTx, ds, w, v, s, c, fork, tables, wk, lease, at, r, s1);
    BlindWorkerLosesRecords(byTx, ds, v, s1, wk, lease, at, r);
  }
}
